/** The enums, records and tagged union of `types.ts`. Each TypeScript string
    enum becomes a datatype with its string value and the parse back from a
    string; each enum is closed: parsing succeeds on its values and on nothing else. */
module Types {
  import opened Wrappers

  /** The top-level views, with their enum strings. */
  datatype View = Feed | Chat | Profile | Settings

  function ViewValue(v: View): string {
    match v
    case Feed => "FEED"
    case Chat => "CHAT"
    case Profile => "PROFILE"
    case Settings => "SETTINGS"
  }

  function ParseView(s: string): (r: Option<View>)
    ensures r.Some? ==> ViewValue(r.value) == s
  {
    if s == "FEED" then Some(Feed)
    else if s == "CHAT" then Some(Chat)
    else if s == "PROFILE" then Some(Profile)
    else if s == "SETTINGS" then Some(Settings)
    else None
  }

  /** `View` is exactly its four members: every value is one of them, they
      are distinct, and parsing inverts the enum strings. */
  lemma ViewIsClosed(v: View, s: string)
    ensures v == Feed || v == Chat || v == Profile || v == Settings
    ensures |{Feed, Chat, Profile, Settings}| == 4
    ensures ParseView(s) == Some(v) <==> s == ViewValue(v)
  {
  }

  datatype Theme = Light | Dark

  function ThemeValue(t: Theme): string {
    match t
    case Light => "light"
    case Dark => "dark"
  }

  /** `Object.values(Theme).includes(s)`, with the member it names. */
  function ParseTheme(s: string): (r: Option<Theme>)
    ensures r.Some? ==> ThemeValue(r.value) == s
  {
    if s == "light" then Some(Light)
    else if s == "dark" then Some(Dark)
    else None
  }

  /** `Theme` has exactly the two values `'light'` and `'dark'`. */
  lemma ThemeIsClosed(t: Theme, s: string)
    ensures ThemeValue(t) == "light" || ThemeValue(t) == "dark"
    ensures ThemeValue(Light) != ThemeValue(Dark)
    ensures ParseTheme(s) == Some(t) <==> s == ThemeValue(t)
    ensures ParseTheme(s).None? <==> s != "light" && s != "dark"
  {
  }

  datatype PostLayout = Comfortable | Compact

  function PostLayoutValue(l: PostLayout): string {
    match l
    case Comfortable => "comfortable"
    case Compact => "compact"
  }

  function ParsePostLayout(s: string): (r: Option<PostLayout>)
    ensures r.Some? ==> PostLayoutValue(r.value) == s
  {
    if s == "comfortable" then Some(Comfortable)
    else if s == "compact" then Some(Compact)
    else None
  }

  /** `PostLayout` has exactly the two values `'comfortable'` and `'compact'`. */
  lemma PostLayoutIsClosed(l: PostLayout, s: string)
    ensures PostLayoutValue(l) == "comfortable" || PostLayoutValue(l) == "compact"
    ensures PostLayoutValue(Comfortable) != PostLayoutValue(Compact)
    ensures ParsePostLayout(s) == Some(l) <==> s == PostLayoutValue(l)
  {
  }

  datatype ChatMessageSender = User | Ai | Other

  function SenderValue(s: ChatMessageSender): string {
    match s
    case User => "user"
    case Ai => "ai"
    case Other => "other"
  }

  /** `ChatMessageSender` has exactly three distinct values. */
  lemma SenderIsClosed(s: ChatMessageSender)
    ensures SenderValue(s) in {"user", "ai", "other"}
    ensures |{SenderValue(User), SenderValue(Ai), SenderValue(Other)}| == 3
  {
  }

  datatype UserMessageType = TextType | AudioType

  function MessageTypeValue(t: UserMessageType): string {
    match t
    case TextType => "text"
    case AudioType => "audio"
  }

  /** `UserMessageType` has exactly the two distinct values `'text'` and `'audio'`. */
  lemma MessageTypeIsClosed(t: UserMessageType)
    ensures MessageTypeValue(t) == "text" || MessageTypeValue(t) == "audio"
    ensures MessageTypeValue(TextType) != MessageTypeValue(AudioType)
  {
  }

  /** One turn of the AI assistant conversation. */
  datatype ChatMessage = ChatMessage(id: string, sender: ChatMessageSender, text: string)

  /** One turn of a peer conversation: a text or an audio message, both with
      the common envelope `id`, `sender`, `timestamp`; `duration` is in seconds. */
  datatype UserChatMessage =
    | UserTextMessage(id: string, sender: ChatMessageSender, text: string, timestamp: string)
    | UserAudioMessage(id: string, sender: ChatMessageSender, audioUrl: string, duration: int, timestamp: string)

  /** The `type` discriminant of a peer message. */
  function MessageType(m: UserChatMessage): (r: UserMessageType)
    ensures r == TextType <==> m.UserTextMessage?
    ensures r == AudioType <==> m.UserAudioMessage?
  {
    match m
    case UserTextMessage(_, _, _, _) => TextType
    case UserAudioMessage(_, _, _, _, _) => AudioType
  }
}
