/**
 * The message kinds of a chat message and the kinds of admin (system)
 * messages: WhatsAppClone/Screens/Chat/Models/MessageItem+Types.swift.
 */
module MessageTypes {

  import opened Wrappers

  /** Admin message kinds; a Swift `String` enum whose raw values are the case names. */
  datatype AdminMessageType = ChannelCreation | MemberAdded | MemberLeft | ChannelNameChanged

  /** The raw values: the case names. */
  const AdminRawValues: set<string> := {"channelCreation", "memberAdded", "memberLeft", "channelNameChanged"}

  function AdminRawValue(t: AdminMessageType): (raw: string)
    ensures raw in AdminRawValues
  {
    match t
    case ChannelCreation => "channelCreation"
    case MemberAdded => "memberAdded"
    case MemberLeft => "memberLeft"
    case ChannelNameChanged => "channelNameChanged"
  }

  /** The failable `init?(rawValue:)` Swift synthesises for a `String` enum. */
  function AdminFromRawValue(raw: string): (r: Option<AdminMessageType>)
    ensures r.Some? <==> raw in AdminRawValues
    ensures r.Some? ==> AdminRawValue(r.value) == raw
  {
    match raw
    case "channelCreation" => Some(ChannelCreation)
    case "memberAdded" => Some(MemberAdded)
    case "memberLeft" => Some(MemberLeft)
    case "channelNameChanged" => Some(ChannelNameChanged)
    case _ => None
  }

  /** Every admin kind is recovered from its raw value, so distinct kinds have distinct raw values. */
  lemma AdminRawValueRoundTrip(t: AdminMessageType)
    ensures AdminFromRawValue(AdminRawValue(t)) == Some(t)
  {
  }

  datatype MessageType = Text | Photo | Video | Audio

  /** The string a message kind is stored as. */
  function Title(t: MessageType): (s: string)
    ensures s in KnownTitles
  {
    match t
    case Text => "text"
    case Photo => "photo"
    case Video => "video"
    case Audio => "audio"
  }

  const KnownTitles: set<string> := {"text", "photo", "video", "audio"}

  /** `MessageType.init(_:)`: reads a stored kind; any unknown string is a text message. */
  function Parse(s: string): (t: MessageType)
    ensures s in KnownTitles <==> Title(t) == s
    ensures s !in KnownTitles ==> t == Text
  {
    match s
    case "text" => Text
    case "photo" => Photo
    case "video" => Video
    case "audio" => Audio
    case _ => Text
  }

  /** Storing a kind and reading it back gives the same kind. */
  lemma ParseTitle(t: MessageType)
    ensures Parse(Title(t)) == t
  {
  }

  /** Every title is one of the known strings, and no two kinds share a title. */
  lemma TitleInjective(a: MessageType, b: MessageType)
    ensures Title(a) in KnownTitles
    ensures Title(a) == Title(b) ==> a == b
  {
    ParseTitle(a);
    ParseTitle(b);
  }
}
