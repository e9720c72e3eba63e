# Inovira client: preferences and chat sessions in Dafny

This project models the stateful logic of the Inovira social-network client, a React single-page app:

- **The preference store** (`SettingsProvider`). It resolves the theme, post layout and language at start-up. Each setting comes from a fallback chain: the stored value, then a browser hint, then a hardcoded default. Each setting is persisted under its own storage key. The store also offers the translation lookup `t`, which falls back to English.
- **The AI assistant session.** A guarded send appends the user's message and then one empty AI placeholder. The streamed chunks are folded into that placeholder by its id. A failure appends a fixed error message. The busy flag is cleared on every path.
- **The peer chat window.** It keeps a log of text and audio messages, refuses a blank input, and runs voice recording from a flag, a one-second counter and the recorder and interval references. It also shows a duration as `mm:ss`.
- **The post composer.** Its "Enhance" action replaces the draft with the text a generator returns.
- **The call controls.** The mute and camera flags flip together with the `enabled` bit of their tracks, and every track is stopped on teardown.

Modules follow the source files:

- `Types` is `types.ts`.
- `Settings` is `contexts/SettingsContext.tsx`.
- `AiAssistant` is `components/AiAssistantChat.tsx`.
- `UserChat` is `components/UserChatWindow.tsx`.
- `CreatePost` is `components/CreatePost.tsx`.
- `CallView` is `components/CallView.tsx`.

Four helper modules hold what those files borrow from the platform:

- `JsString`: `String.prototype.trim`, the blank test `!s.trim()` and `split('-')[0]`.
- `Media`: media tracks as records in an array, and the in-place `forEach` over them.
- `IsoDate`: `Date.prototype.toISOString` and `substr`.
- `Wrappers`: an `Option` type.

Component state that React keeps in `useState` slots and refs becomes the fields of a class. Each event handler becomes one method, run as an atomic step. The methods are specified by pure functions of the old state, and the lemmas about those functions state the properties.

Foreign collaborators appear as parameters:

- **Browser storage and hints**: a `Window` value holds `localStorage` as a key-to-string map, the dark-mode media query and `navigator.language`. `None` stands for "no `window`".
- **The translation table and the supported languages**: an abstract `Catalog`, because `i18n/translations` is not part of this model.
- **The Gemini streaming chat**: a `Reply`. It either rejects before a stream exists, or yields a sequence of chunk texts and then ends or throws.
- **The Gemini text generator**: a `Generation`. It returns text, returns no text, or throws.
- **`getUserMedia`**: an `array?<Track>`, where `null` means access was denied.
- **`Date.now()` ids, `toLocaleTimeString` timestamps, object URLs and `setInterval` ids**: string or integer parameters.

## Behaviour the code has that one might not expect

The model follows the code in each of these cases:

- **Starting a recording twice.** `startRecording` has no already-recording guard. A second start replaces the recorder and interval references, and the first interval keeps ticking. `UserChat.SecondStartLeavesTimerRunning` shows this.
- **The exit paths of the peer chat window.** The microphone is released only in the recorder's `onstop`. Leaving the window while recording does not release it.
- **The stored post layout.** It is not checked against `PostLayout`: any non-empty stored string becomes the layout, as it is.
- **The recorded duration.** An audio message's duration is not the final counter. It is the `recordingTime` that the `onstop` closure captured when `startRecording` ran, that is, the counter's value before it was reset. The model records that captured value in `Recorder.capturedTime`.
- **When the AI placeholder appears.** The empty AI message is appended as soon as the stream object exists, before any chunk arrives, not at the first chunk.

## Model

| member | source | states |
|---|---|---|
| `Types.ViewIsClosed` | types.ts:1-6 | Every `View` is one of FEED, CHAT, PROFILE and SETTINGS. The four are distinct, and parsing a string gives a view exactly when the string is that view's enum value. |
| `Types.ThemeIsClosed` | types.ts:8-11 | `Theme` has exactly the two distinct values `'light'` and `'dark'`. Parsing a string gives a theme exactly for those two strings. |
| `Types.PostLayoutIsClosed` | types.ts:13-16 | `PostLayout` has exactly the two distinct values `'comfortable'` and `'compact'`. Parsing is their inverse. |
| `Types.SenderIsClosed` | types.ts:42-46 | `ChatMessageSender` has exactly three distinct values: `'user'`, `'ai'` and `'other'`. |
| `Types.MessageTypeIsClosed` | types.ts:67-70 | `UserMessageType` has exactly the two distinct values `'text'` and `'audio'`. |
| `Types.MessageType` | types.ts:67-89 | A peer message is a text message (with `text`) exactly when its type is TEXT. It is an audio message (with `audioUrl` and `duration`) exactly when its type is AUDIO. Both variants carry `id`, `sender` and `timestamp`. |
| `JsString.TrimIsInnerPiece` | components/UserChatWindow.tsx:87 | `trim` returns a contiguous piece of its input. That piece neither starts nor ends with whitespace, and everything cut from either end is whitespace. |
| `JsString.BlankIffAllWhitespace` | components/UserChatWindow.tsx:87 | `!s.trim()` holds exactly when every character of `s` is ECMAScript whitespace (this includes the empty string). |
| `JsString.BeforeFirstDash` | contexts/SettingsContext.tsx:36 | `split('-')[0]` is a prefix of the locale that contains no `-`. It is either the whole locale or is followed in the locale by a `-`. |
| `Settings.InitialThemeResolution` | contexts/SettingsContext.tsx:19-28 | A stored `'light'` or `'dark'` is returned. Otherwise the theme is DARK exactly when the system prefers dark. With no window it is DARK. |
| `Settings.InitialLanguageResolution` | contexts/SettingsContext.tsx:30-40 | A non-empty stored supported language wins. Otherwise the result is the locale's text before its first `-` when that is supported, and `'en'` otherwise. The result is always supported or `'en'`. With no window it is `'en'`. |
| `Settings.UnsupportedStoredLanguageIgnored` | contexts/SettingsContext.tsx:32-37 | An unsupported stored language gives the same result as an empty storage entry. |
| `Settings.InitialPostLayoutResolution` | contexts/SettingsContext.tsx:45 | Any non-empty stored layout string is used as it is. A missing or empty one gives `'comfortable'`. The result is never empty. |
| `Settings.TranslateFallsBackToEnglish` | contexts/SettingsContext.tsx:67-69 | `t(key)` is `Translate(catalog, language, key)` over the provider's catalog and current language. It is the current language's string when it is present and non-empty, and the English string otherwise. It is empty only if the English string is. |
| `Settings.PersistedSettingsRestore` | contexts/SettingsContext.tsx:48-61 | Whatever storage held before, writing a theme, a non-empty layout and a supported non-empty language under their three keys makes start-up resolve exactly those values. |
| `Settings.RestartRestores` | contexts/SettingsContext.tsx:44-61 | A provider's persisted storage restores its theme and layout on restart. It also restores its language when that language is supported and non-empty. |
| `Settings.SettingsProvider.constructor` | contexts/SettingsContext.tsx:44-61 | Mounting runs the three initialisers and then the three effects. Each axis is written under its own key. The root element loses both theme classes and gains the current one. |
| `Settings.SettingsProvider.ApplyTheme` | contexts/SettingsContext.tsx:48-53 | The theme effect removes both theme classes from the root element and adds the current theme's, so exactly one of the two is present afterwards. It writes `'theme'` to storage and changes no setting. |
| `Settings.SettingsProvider.SetTheme` | contexts/SettingsContext.tsx:48-53 | `setTheme` and its effect change only the theme. Storage gains `'theme'` and the root class list then holds exactly the new theme's class out of the two. |
| `Settings.SettingsProvider.SetPostLayout` | contexts/SettingsContext.tsx:55-57 | `setPostLayout` and its effect change and persist only the layout. |
| `Settings.SettingsProvider.SetLanguage` | contexts/SettingsContext.tsx:59-61 | `setLanguage` and its effect change and persist only the language. |
| `AiAssistant.WithTextAt` | components/AiAssistantChat.tsx:75-77 | Rewriting by id keeps the list's length. Only messages with that id change, and only in their text. |
| `AiAssistant.WithTextTwice` | components/AiAssistantChat.tsx:73-78 | Rewriting the same id twice equals the last rewrite. This is why folding chunk after chunk leaves only the running concatenation. |
| `AiAssistant.WithTextFresh` | components/AiAssistantChat.tsx:75-77 | A rewrite by an id that no message carries changes nothing. |
| `AiAssistant.SendOutcomeAppends` | components/AiAssistantChat.tsx:57-84 | Take an AI id that no earlier message and not the user's message carries. An accepted send then keeps every earlier message in place. It appends exactly the user's untrimmed message, then one AI message holding the concatenation of the chunks received, then one fixed error message on failure. Partial text is kept. A rejected request appends the user message and the error only. |
| `AiAssistant.HelloInThreeChunks` | components/AiAssistantChat.tsx:73-78 | Chunks `"Hel"`, `"lo"`, `"!"` give a single AI message reading `"Hello!"` after the user's message. |
| `AiAssistant.AiAssistantChat.constructor` | components/AiAssistantChat.tsx:21-46 | On mount the log is the welcome message, followed by the `'error-1'` message if initialisation failed. The session is present exactly when initialisation succeeded, and the chat is idle. |
| `AiAssistant.AiAssistantChat.ResetWelcome` | components/AiAssistantChat.tsx:28-30 | A change of `t` resets the log to the single welcome message. |
| `AiAssistant.AiAssistantChat.SetInput` | components/AiAssistantChat.tsx:115 | Typing replaces the input with the field's value; nothing else changes. |
| `AiAssistant.AiAssistantChat.FoldChunks` | components/AiAssistantChat.tsx:73-78 | After the loop, the AI message's text is the concatenation of all chunks in arrival order. The loop invariant gives this after every prefix. |
| `AiAssistant.AiAssistantChat.HandleSend` | components/AiAssistantChat.tsx:54-85 | The send is a no-op exactly when the input is blank, a request is in flight or the session is absent. Otherwise the untrimmed input is sent and the input is cleared. The log becomes `SendOutcome`. `isLoading` is still set once the stream has been consumed (`pending`) and is false at the end on every path. |
| `UserChat.DurationIsMinutesAndSeconds` | components/UserChatWindow.tsx:180 | Take the ISO string of `s` seconds and use `substr(14, 5)`. The result is the five characters `MM:SS`: two zero-padded digits of the minutes within the hour, `:`, and two of the seconds. Below an hour the minutes are the whole minutes. |
| `UserChat.DurationWrapsHourly` | components/UserChatWindow.tsx:54 | The display of `s` seconds equals that of `s % 3600`. |
| `IsoDate.IsoStringLayout` | components/UserChatWindow.tsx:54 | `toISOString` yields 24 characters, and characters 14 to 18 are the time of day's `mm:ss`. |
| `UserChat.UserChatWindow.constructor` | components/UserChatWindow.tsx:75-80 | The log starts as the three seeded messages. The input is empty, no recording is running and the counter is 0. |
| `UserChat.UserChatWindow.HandleSend` | components/UserChatWindow.tsx:86-97 | A whitespace-only input leaves both the log and the input unchanged. Otherwise exactly one user text message with the untrimmed input is appended after the unchanged earlier messages, and the input is cleared. |
| `UserChat.UserChatWindow.SetInput` | components/UserChatWindow.tsx:186 | Typing replaces the input with the field's value and keeps the window's invariant. |
| `UserChat.UserChatWindow.StartRecording` | components/UserChatWindow.tsx:99-138 | A denied microphone changes nothing. Otherwise a new recorder captures the current counter, `isRecording` is set, the counter restarts at 0 and a new interval is added to the running ones. There is no already-recording check. |
| `UserChat.UserChatWindow.Tick` | components/UserChatWindow.tsx:130-132 | A running interval's tick adds exactly 1 to the counter, which stays non-negative. |
| `UserChat.UserChatWindow.StopRecording` | components/UserChatWindow.tsx:140-148 | The stop is a no-op unless a recorder exists and `isRecording` is set; on that path its frame leaves every microphone track unchanged. Otherwise it runs the recorder's `onstop` (lines 110-125): exactly one user audio message with the captured duration is appended and every microphone track is stopped. `isRecording` is cleared and the current interval is cleared. |
| `UserChat.SecondStartLeavesTimerRunning` | components/UserChatWindow.tsx:127-146 | Two starts and then a stop leave the first interval running and able to tick. The first microphone stream is left untouched. |
| `CreatePost.PromptQuotesDraft` | components/CreatePost.tsx:17-19 | The prompt starts with the fixed instructions and ends with `Idea: "<draft>"`, with the draft verbatim. |
| `CreatePost.EnhancedDraftCases` | components/CreatePost.tsx:26-35 | A non-empty returned text replaces the draft verbatim. An empty text, a missing text or a thrown error leaves the draft. |
| `CreatePost.ButtonsDisabledWhen` | components/CreatePost.tsx:70 | The Enhance and Post buttons are disabled exactly while generating or while the draft is whitespace only. |
| `CreatePost.PostComposer.constructor` | components/CreatePost.tsx:7-8 | The composer starts with an empty draft and no generation in flight. |
| `CreatePost.PostComposer.SetPostContent` | components/CreatePost.tsx:51 | Typing replaces the draft with the textarea's value; nothing else changes. |
| `CreatePost.PostComposer.HandleGeneratePost` | components/CreatePost.tsx:11-39 | The handler is a no-op exactly when the buttons are disabled. Otherwise it sends the prompt of the draft with `isGenerating` set while pending, the draft becomes `EnhancedDraft`, and `isGenerating` is false on every exit path. |
| `Media.AppliedAt` | components/CallView.tsx:36 | A `forEach` over the tracks acts on each track separately and keeps their number. |
| `Media.ToggleTouchesOnlyItsKind` | components/CallView.tsx:40-48 | Flipping one kind's tracks negates exactly their `enabled` bits. Tracks of the other kind are untouched, and every kind and ready state is kept. |
| `Media.ToggleTwiceRestores` | components/CallView.tsx:40-48 | Flipping the same kind twice restores every track. |
| `Media.StopEndsEveryTrack` | components/CallView.tsx:35-37 | After stopping all tracks none is live. Kinds and `enabled` bits are kept. |
| `Media.ForEachTrack` | components/CallView.tsx:41 | The in-place loop leaves the array equal to the operation applied to each original track. |
| `CallView.CallSession.constructor` | components/CallView.tsx:13-16 | A call starts unmuted, with the camera on and no stream. |
| `CallView.CallSession.StartStream` | components/CallView.tsx:19-31 | An acquired stream is stored. A denied acquisition stores nothing and calls `onEndCall`. The flags are unchanged. |
| `CallView.CallSession.ToggleMute` | components/CallView.tsx:40-43 | `isMuted` flips and every audio track's `enabled` bit flips, through `Applied`. The camera flag is kept. With no stream only the flag changes. |
| `CallView.CallSession.ToggleCamera` | components/CallView.tsx:45-48 | `isCameraOff` flips and every video track's `enabled` bit flips. The mute flag is kept. With no stream only the flag changes. |
| `CallView.CallSession.Teardown` | components/CallView.tsx:35-37 | The cleanup stops every track of the acquired stream, whatever the flags are. |
| `CallView.ToggleTwiceAndHangUp` | components/CallView.tsx:35-48 | Toggling mute twice and the camera twice restores both flags and every track, so the teardown afterwards sees the original tracks: the stream ends as the original tracks, each stopped, and no track is live. |

## Left out

- Rendering is not modelled: JSX, styling, scrolling (`scrollIntoView`), `alert` and `console.error`. The presentational components are left out too: `Feed`, `Profile`, `Stories`, `Post`, `Sidebar` and `Settings`, which only render data or call the setters modelled here.
- `App.tsx` and `components/Chat.tsx` are single-slot assignments (view selection, selected contact, active call). Nothing there is checked beyond the assignment, so they are not part of this model.
- Audio playback progress and play/pause in the audio bubble are not modelled. They are floating-point arithmetic driven by DOM events.
- The `audioChunks` array filled by `ondataavailable`, the `Blob` built from it and `URL.createObjectURL` are foreign. The object URL is a parameter of `UserChat.UserChatWindow.StopRecording`.
- React's asynchronous interleaving, render batching and effect dependency tracking are not modelled. Each handler is one atomic step and the `for await` loop is a sequential loop. The only stale closure modelled is the captured `recordingTime`. A recorder or interval overwritten by a second start is lost to the model, except that its interval id stays in `runningIntervals` and its microphone stream is never stopped.
- The stream acquired by `CallView` after the component has been torn down is not modelled.
- `AiAssistant.SendOutcomeAppends`: states "no other message changes" only for a fresh AI id. The fold rewrites every message whose id equals `ai-${Date.now()}`, and a clock that did not advance could repeat an id. The ids are parameters.
- A chunk whose `text` is `undefined` is not modelled. JavaScript would append the word "undefined"; the model treats chunk texts as strings.
- `UserChat.FormatDuration`: covers durations below the start of year 10000 only. From there on `toISOString` writes a six-digit signed year, and beyond 8.64e15 ms it throws. Negative durations do not occur, because the counter never goes negative.
- `IsoDate.IsoStringLayout`: the lemma is about the time-of-day fields. The calendar date is defined by counting days and months from 1970, but no property of it is proved beyond its length.
- `Settings.SettingsProvider.SetTheme`: re-setting the current theme runs the effect again in the model. React would skip the effect; the resulting state is the same.
- Strings are sequences of Unicode scalar values, not of UTF-16 code units, so a lone surrogate in typed input cannot be represented. This does not affect `trim`, `split('-')` or `substr` here: every ECMAScript whitespace character is in the Basic Multilingual Plane, and the ISO string is ASCII.
- The `useSettings` guard, which throws outside a provider, is not modelled: it is a usage error, not state.
- The `Language` type is the key set of `availableLanguages`. Whether it contains `'en'` is not known, because `i18n/translations` is not part of this model.
