/** The navigation-bar title of a chat room: WhatsAppClone/Screens/Chat/Views/ChatRoomScreen.swift. */
module ChatTitle {

  import opened Numbers

  /** The most characters of a channel title shown before it is cut. */
  const MaxChar: nat := 20

  const Ellipsis: string := "..."

  /**
   * `channelTitle`: the first 20 characters of the title, followed by
   * "..." when anything was cut off. Characters are Unicode scalars here
   * (Swift counts grapheme clusters).
   */
  function ChannelTitle(title: string): (r: string)
    ensures Min(MaxChar, |title|) <= |r| <= MaxChar + |Ellipsis|
    ensures r[..Min(MaxChar, |title|)] == title[..Min(MaxChar, |title|)]
    ensures |title| <= MaxChar ==> r == title
    ensures |title| > MaxChar ==> |r| == MaxChar + |Ellipsis| && r[MaxChar..] == Ellipsis
  {
    var trailingChars := if |title| > MaxChar then Ellipsis else "";
    title[..Min(MaxChar, |title|)] + trailingChars
  }

  /** Cutting is idempotent: a cut title is cut again to the same 20 characters and the same "...". */
  lemma ChannelTitleIdempotent(title: string)
    ensures ChannelTitle(ChannelTitle(title)) == ChannelTitle(title)
  {
  }
}
