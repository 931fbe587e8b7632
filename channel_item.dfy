/** A chat channel: WhatsAppClone/Screens/Channel/Models/ChannelItem.swift. */
module ChannelModel {

  import opened Wrappers
  import opened UserModel

  /** Dates are seconds since 1970. `membersCount` is a Swift `UInt`. */
  datatype ChannelItem = ChannelItem(
    id: string,
    name: Option<string>,
    lastMessage: string,
    creationDate: real,
    lastMessageTimeStamp: real,
    membersCount: nat,
    adminUids: seq<string>,
    membersUids: seq<string>,
    members: seq<UserItem>,
    thumbnailUrl: Option<string>)
  {
    /** A channel is a group chat when more than two member profiles are loaded. */
    predicate IsGroupChat(): (b: bool)
      ensures b <==> |members| >= 3
    {
      |members| > 2
    }
  }

  /** `isGroupChat` looks only at the loaded member profiles, not at the stored counts or uids. */
  lemma IsGroupChatIgnoresCounts(c: ChannelItem, count: nat, uids: seq<string>)
    ensures c.(membersCount := count, membersUids := uids).IsGroupChat() == c.IsGroupChat()
  {
  }

  /** The preview channel; `now` stands for `Date.now`. */
  function Placeholder(now: real): (c: ChannelItem)
    ensures c.id == "1" && c.membersCount == 2 && c.lastMessage == "Hello world"
    ensures c.adminUids == [] && c.membersUids == [] && c.members == []
    ensures c.name.None? && c.thumbnailUrl.None?
    ensures c.creationDate == now && c.lastMessageTimeStamp == now
    ensures !c.IsGroupChat()
  {
    ChannelItem("1", None, "Hello world", now, now, 2, [], [], [], None)
  }
}
