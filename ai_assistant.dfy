/** The AI assistant session of `components/AiAssistantChat.tsx`: a message
    log seeded with the welcome message, a guarded send that appends the
    user's message and one AI placeholder, folds the streamed chunks into that
    placeholder by id, appends a fixed error message on failure and always
    clears the busy flag. */
module AiAssistant {
  import opened Wrappers
  import opened Types
  import JsString

  const WelcomeId: string := "1"
  const InitErrorId: string := "error-1"
  const InitErrorText: string := "Sorry, I'm having trouble connecting right now."
  const SendErrorText: string := "Oops! Something went wrong. Please try again."

  /** What `geminiChat.sendMessageStream` does: it rejects before a stream
      exists, or the stream yields the texts `chunks` in order and then either
      ends or (`fails`) throws. */
  datatype Reply = Rejected | Streamed(chunks: seq<string>, fails: bool)

  /** `aiResponseText` after `+=` of each chunk in arrival order. */
  function Concat(chunks: seq<string>): string {
    if chunks == [] then "" else Concat(chunks[..|chunks| - 1]) + chunks[|chunks| - 1]
  }

  /** `log.map(msg => msg.id === id ? { ...msg, text } : msg)`. */
  function WithText(log: seq<ChatMessage>, id: string, text: string): seq<ChatMessage> {
    if log == [] then []
    else [if log[0].id == id then log[0].(text := text) else log[0]] + WithText(log[1..], id, text)
  }

  /** The rewrite keeps the length and touches only the messages with that id,
      and only their text. */
  lemma {:induction false} WithTextAt(log: seq<ChatMessage>, id: string, text: string, i: nat)
    requires i < |log|
    ensures |WithText(log, id, text)| == |log|
    ensures WithText(log, id, text)[i] == if log[i].id == id then log[i].(text := text) else log[i]
  {
    WithTextLength(log[1..], id, text);
    if i > 0 {
      WithTextAt(log[1..], id, text, i - 1);
    }
  }

  lemma {:induction false} WithTextLength(log: seq<ChatMessage>, id: string, text: string)
    ensures |WithText(log, id, text)| == |log|
  {
    if log != [] {
      WithTextLength(log[1..], id, text);
    }
  }

  /** Rewriting the same id twice leaves the last text. */
  lemma {:induction false} WithTextTwice(log: seq<ChatMessage>, id: string, a: string, b: string)
    ensures WithText(WithText(log, id, a), id, b) == WithText(log, id, b)
  {
    if log != [] {
      WithTextTwice(log[1..], id, a, b);
    }
  }

  /** The rewrite distributes over concatenation. */
  lemma {:induction false} WithTextAppend(log: seq<ChatMessage>, extra: seq<ChatMessage>, id: string, text: string)
    ensures WithText(log + extra, id, text) == WithText(log, id, text) + WithText(extra, id, text)
  {
    if log != [] {
      assert (log + extra)[1..] == log[1..] + extra;
      WithTextAppend(log[1..], extra, id, text);
    } else {
      assert log + extra == extra;
    }
  }

  /** No message of `log` carries `id`. */
  predicate FreshId(log: seq<ChatMessage>, id: string) {
    forall i :: 0 <= i < |log| ==> log[i].id != id
  }

  /** A rewrite by an id no message carries changes nothing. */
  lemma {:induction false} WithTextFresh(log: seq<ChatMessage>, id: string, text: string)
    requires FreshId(log, id)
    ensures WithText(log, id, text) == log
  {
    if log != [] {
      assert FreshId(log[1..], id) by {
        forall i | 0 <= i < |log[1..]| ensures log[1..][i].id != id {
          assert log[1..][i] == log[i + 1];
        }
      }
      WithTextFresh(log[1..], id, text);
    }
  }

  /** The log once `chunks` have been folded into the message `id`. */
  function AfterChunks(log: seq<ChatMessage>, id: string, chunks: seq<string>): seq<ChatMessage> {
    if chunks == [] then log else WithText(log, id, Concat(chunks))
  }

  /** The log after an accepted send, by outcome of the request. */
  function SendOutcome(log: seq<ChatMessage>, input: string, userId: string, aiId: string, errorId: string,
                       reply: Reply): seq<ChatMessage> {
    var withUser := log + [ChatMessage(userId, User, input)];
    var error := ChatMessage(errorId, Ai, SendErrorText);
    match reply
    case Rejected => withUser + [error]
    case Streamed(chunks, fails) =>
      var streamed := AfterChunks(withUser + [ChatMessage(aiId, Ai, "")], aiId, chunks);
      if fails then streamed + [error] else streamed
  }

  /** With an AI id that no earlier message (nor the user's) carries, an
      accepted send keeps every earlier message in place and appends exactly
      the user's message, one AI message holding the concatenation of the
      chunks received (kept when the stream then fails), and one fixed error
      message on failure. */
  lemma {:induction false} SendOutcomeAppends(log: seq<ChatMessage>, input: string, userId: string, aiId: string,
                                              errorId: string, reply: Reply)
    requires FreshId(log, aiId) && userId != aiId
    ensures var user := ChatMessage(userId, User, input);
            var error := ChatMessage(errorId, Ai, SendErrorText);
            SendOutcome(log, input, userId, aiId, errorId, reply) ==
              match reply
              case Rejected => log + [user, error]
              case Streamed(chunks, fails) =>
                log + [user, ChatMessage(aiId, Ai, Concat(chunks))] + (if fails then [error] else [])
  {
    var user := ChatMessage(userId, User, input);
    var placeholder := ChatMessage(aiId, Ai, "");
    match reply
    case Rejected =>
    case Streamed(chunks, fails) =>
      if chunks != [] {
        var text := Concat(chunks);
        var withUser := log + [user];
        assert FreshId(withUser, aiId);
        WithTextAppend(withUser, [placeholder], aiId, text);
        WithTextFresh(withUser, aiId, text);
        assert WithText([placeholder], aiId, text) == [ChatMessage(aiId, Ai, text)];
      }
  }

  /** The example of three chunks: the one AI message reads `"Hello!"`. */
  lemma HelloInThreeChunks(log: seq<ChatMessage>, input: string, userId: string, aiId: string, errorId: string)
    requires FreshId(log, aiId) && userId != aiId
    ensures SendOutcome(log, input, userId, aiId, errorId, Streamed(["Hel", "lo", "!"], false)) ==
            log + [ChatMessage(userId, User, input), ChatMessage(aiId, Ai, "Hello!")]
  {
    SendOutcomeAppends(log, input, userId, aiId, errorId, Streamed(["Hel", "lo", "!"], false));
    assert ["Hel", "lo", "!"][..2] == ["Hel", "lo"];
    assert ["Hel", "lo"][..1] == ["Hel"];
    assert ["Hel"][..0] == [];
    assert Concat(["Hel"]) == "Hel";
    assert Concat(["Hel", "lo"]) == "Hello";
    assert Concat(["Hel", "lo", "!"]) == "Hello!";
    var user := ChatMessage(userId, User, input);
    assert log + [user, ChatMessage(aiId, Ai, "Hello!")] + [] == log + [user, ChatMessage(aiId, Ai, "Hello!")];
  }

  /** The state of the `AiAssistantChat` component: its `useState` slots, with
      `hasSession` standing for `geminiChat !== null`. */
  class AiAssistantChat {
    var messages: seq<ChatMessage>
    var input: string
    var isLoading: bool
    var hasSession: bool

    /** Mounting: the welcome effect sets the log to the welcome message; then
        the initialisation effect either opens the session or appends the
        `'error-1'` message and leaves the session absent. */
    constructor (welcome: string, initSucceeds: bool)
      ensures input == "" && !isLoading && hasSession == initSucceeds
      ensures messages == [ChatMessage(WelcomeId, Ai, welcome)] +
                          (if initSucceeds then [] else [ChatMessage(InitErrorId, Ai, InitErrorText)])
    {
      input := "";
      isLoading := false;
      messages := [ChatMessage(WelcomeId, Ai, welcome)];
      hasSession := initSucceeds;
      if !initSucceeds {
        messages := messages + [ChatMessage(InitErrorId, Ai, InitErrorText)];
      }
    }

    /** The welcome effect, re-run whenever `t` changes (a language switch):
        the log becomes the single welcome message. */
    method ResetWelcome(welcome: string)
      modifies this`messages
      ensures messages == [ChatMessage(WelcomeId, Ai, welcome)]
    {
      messages := [ChatMessage(WelcomeId, Ai, welcome)];
    }

    /** The input's `onChange`. */
    method SetInput(text: string)
      modifies this`input
      ensures input == text
    {
      input := text;
    }

    /** The `for await` loop: each chunk is appended to `aiResponseText` and
        the message `aiId` is rewritten with it, so that after `i` chunks it
        holds the first `i` chunks' concatenation; `isLoading` stays set. */
    method FoldChunks(aiId: string, chunks: seq<string>)
      modifies this`messages
      ensures messages == AfterChunks(old(messages), aiId, chunks)
    {
      var aiResponseText := "";
      ghost var base := messages;
      var i := 0;
      while i < |chunks|
        invariant 0 <= i <= |chunks|
        invariant aiResponseText == Concat(chunks[..i])
        invariant messages == AfterChunks(base, aiId, chunks[..i])
      {
        assert chunks[..i + 1][..i] == chunks[..i];
        aiResponseText := aiResponseText + chunks[i];
        if i > 0 {
          WithTextTwice(base, aiId, Concat(chunks[..i]), aiResponseText);
        }
        messages := WithText(messages, aiId, aiResponseText);
        i := i + 1;
      }
      assert chunks[..i] == chunks;
    }

    /** `handleSend`. It is a no-op when the input is blank, a request is in
        flight or there is no session; `request` is then `None`. Otherwise it
        sends the untrimmed input (`request`), appends the user's message,
        clears the input and sets `isLoading`; once the stream exists it
        appends the empty AI message `aiId` and folds each chunk into it; a
        failure appends the error message `errorId`; `isLoading` is cleared in
        the end (`pending` is the flag once the stream has been consumed, just
        before the `finally`). `userId`, `aiId` and `errorId` stand for the clock-derived ids. */
    method HandleSend(userId: string, aiId: string, errorId: string, reply: Reply) returns (request: Option<string>, ghost pending: bool)
      modifies this`messages, this`input, this`isLoading
      ensures request.Some? <==> !JsString.Blank(old(input)) && !old(isLoading) && hasSession
      ensures request.None? ==> messages == old(messages) && input == old(input) && isLoading == old(isLoading)
      ensures request.Some? ==>
                request.value == old(input) && input == "" && pending && !isLoading &&
                messages == SendOutcome(old(messages), old(input), userId, aiId, errorId, reply)
    {
      pending := isLoading;
      if JsString.Blank(input) || isLoading || !hasSession {
        return None, pending;
      }
      var sent := input;
      var log := messages;
      messages := messages + [ChatMessage(userId, User, input)];
      input := "";
      isLoading := true;
      var error := ChatMessage(errorId, Ai, SendErrorText);
      match reply {
        case Rejected =>
          messages := messages + [error];
        case Streamed(chunks, fails) =>
          messages := messages + [ChatMessage(aiId, Ai, "")];
          FoldChunks(aiId, chunks);
          if fails {
            messages := messages + [error];
          }
      }
      pending := isLoading;
      isLoading := false;
      request := Some(sent);
    }
  }
}
