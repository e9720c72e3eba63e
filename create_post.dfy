/** The post composer of `components/CreatePost.tsx`: a draft and a busy flag,
    and the guarded enhancement that sends the draft to a text generator and
    replaces the draft with a non-empty answer. */
module CreatePost {
  import opened Wrappers
  import JsString

  const PromptPreamble: string :=
    "You are a creative social media assistant for an app called Inovira. Based on the following idea, " +
    "write an engaging and friendly social media post. Use relevant emojis and hashtags. " +
    "Keep it concise and positive in tone."

  /** The template literal sent to the generator, its line breaks and
      indentation included. */
  function Prompt(draft: string): string {
    PromptPreamble + "\n      \n      " + "Idea: \"" + draft + "\""
  }

  /** The prompt opens with the fixed instructions and ends with the draft,
      verbatim, inside the quoted `Idea:` line. */
  lemma PromptQuotesDraft(draft: string)
    ensures var p := Prompt(draft);
            var idea := "Idea: \"" + draft + "\"";
            |p| == |PromptPreamble| + 14 + |idea| &&
            p[..|PromptPreamble|] == PromptPreamble &&
            p[|p| - |idea|..] == idea &&
            p[|p| - 1 - |draft|..|p| - 1] == draft
  {
  }

  /** What `ai.models.generateContent` comes to: a response whose `text` is a
      string (possibly empty), a response without text, or a thrown error. */
  datatype Generation = Generated(text: string) | NoText | Threw

  /** The draft after a generation: a non-empty returned text replaces it,
      anything else leaves it. */
  function EnhancedDraft(draft: string, outcome: Generation): string {
    match outcome
    case Generated(text) => if text != "" then text else draft
    case NoText => draft
    case Threw => draft
  }

  lemma EnhancedDraftCases(draft: string, outcome: Generation)
    ensures outcome.Generated? && outcome.text != "" ==> EnhancedDraft(draft, outcome) == outcome.text
    ensures !(outcome.Generated? && outcome.text != "") ==> EnhancedDraft(draft, outcome) == draft
  {
  }

  /** The `disabled` expression of the Enhance and Post buttons. */
  predicate ButtonsDisabled(draft: string, isGenerating: bool) {
    isGenerating || JsString.Blank(draft)
  }

  /** The buttons are disabled exactly while generating or while the draft is
      whitespace only. */
  lemma {:induction false} ButtonsDisabledWhen(draft: string, isGenerating: bool)
    ensures ButtonsDisabled(draft, isGenerating) <==> isGenerating || JsString.AllWhitespace(draft)
  {
    JsString.BlankIffAllWhitespace(draft);
  }

  class PostComposer {
    var postContent: string
    var isGenerating: bool

    constructor ()
      ensures postContent == "" && !isGenerating
    {
      postContent, isGenerating := "", false;
    }

    /** The textarea's `onChange`. */
    method SetPostContent(text: string)
      modifies this`postContent
      ensures postContent == text
    {
      postContent := text;
    }

    /** `handleGeneratePost`. It does nothing (`prompt` is `None`) exactly
        when the buttons are disabled: the draft is blank or a generation is
        in flight. Otherwise it sets `isGenerating` for the time of the request
        (`pending` is the flag while the generator runs), sends `prompt`, takes
        the draft from the outcome and clears `isGenerating` on every path. */
    method HandleGeneratePost(outcome: Generation) returns (prompt: Option<string>, ghost pending: bool)
      modifies this
      ensures prompt.Some? <==> !ButtonsDisabled(old(postContent), old(isGenerating))
      ensures prompt.None? ==> postContent == old(postContent) && isGenerating == old(isGenerating)
      ensures prompt.Some? ==>
                prompt.value == Prompt(old(postContent)) && pending && !isGenerating &&
                postContent == EnhancedDraft(old(postContent), outcome)
    {
      pending := isGenerating;
      if JsString.Blank(postContent) || isGenerating {
        return None, pending;
      }
      isGenerating := true;
      prompt := Some(Prompt(postContent));
      pending := isGenerating;
      match outcome {
        case Generated(text) =>
          if text != "" {
            postContent := text;
          }
        case NoText =>
        case Threw =>
      }
      isGenerating := false;
    }
  }
}
