/**
 * Sending and paging messages: WhatsAppClone/Service/MessageService.swift.
 * The Firebase database is reduced to plain data: a query delivers the
 * children of a channel's message node as a sequence of (key, fields)
 * pairs in key order.
 */
module MessageService {

  import opened Wrappers
  import opened MessageTypes
  import opened UserModel
  import opened ChannelModel
  import MediaAttachments

  /**
   * What a stored message's dictionary yields once parsed (the dictionary
   * initialiser of `MessageItem` is not part of this model).
   */
  datatype MessageFields = MessageFields(
    text: string,
    messageType: MessageType,
    timeStamp: real,
    ownerUid: string,
    reactions: map<string, int>,
    userReactions: map<string, string>)

  /** A message as the chat screen holds it; `id` is its database key. */
  datatype MessageItem = MessageItem(
    id: string,
    isGroupChat: bool,
    fields: MessageFields,
    sender: Option<UserItem>)
  {
    function TimeStamp(): real { fields.timeStamp }
  }

  /** One child of a query snapshot: its key and its parsed value. */
  datatype Child = Child(key: string, fields: MessageFields)

  /** `members.first(where: { $0.id == uid })` */
  function FirstMember(members: seq<UserItem>, uid: string): (r: Option<UserItem>)
    ensures r.Some? ==> r.value.Id() == uid && r.value in members
    ensures r.None? ==> forall u :: u in members ==> u.Id() != uid
    ensures r.Some? ==> exists i :: (0 <= i < |members| && members[i] == r.value
      && forall j :: 0 <= j < i ==> members[j].Id() != uid)
  {
    if members == [] then None
    else if members[0].Id() == uid then Some(members[0])
    else
      var r := FirstMember(members[1..], uid);
      if r.Some? then
        var i :| 0 <= i < |members[1..]| && members[1..][i] == r.value
          && forall j :: 0 <= j < i ==> members[1..][j].Id() != uid;
        assert members[i + 1] == r.value;
        r
      else r
  }

  /** Builds the item for one child: its key becomes the id and the sender is looked up among the loaded members. */
  function MakeMessage(channel: ChannelItem, child: Child): (m: MessageItem)
    ensures m.id == child.key && m.fields == child.fields
    ensures m.isGroupChat == channel.IsGroupChat()
    ensures m.sender == FirstMember(channel.members, child.fields.ownerUid)
  {
    MessageItem(child.key, channel.IsGroupChat(), child.fields, FirstMember(channel.members, child.fields.ownerUid))
  }

  /** The `compactMap` over a snapshot's children. */
  function MakeMessages(channel: ChannelItem, children: seq<Child>): (ms: seq<MessageItem>)
    ensures |ms| == |children|
    ensures forall i :: 0 <= i < |children| ==> ms[i] == MakeMessage(channel, children[i])
  {
    seq(|children|, i requires 0 <= i < |children| => MakeMessage(channel, children[i]))
  }

  // ----- Ordering by time stamp -----

  predicate SortedByTime(s: seq<MessageItem>)
  {
    forall i, j :: 0 <= i < j < |s| ==> s[i].TimeStamp() <= s[j].TimeStamp()
  }

  /** Places `m` before the first message that is not older than it. */
  function InsertByTime(m: MessageItem, s: seq<MessageItem>): (r: seq<MessageItem>)
    ensures multiset(r) == multiset(s) + multiset{m}
    ensures |r| == |s| + 1
  {
    if s == [] || m.TimeStamp() <= s[0].TimeStamp() then [m] + s
    else
      assert s == [s[0]] + s[1..];
      [s[0]] + InsertByTime(m, s[1..])
  }

  /** Inserting into a sorted list keeps it sorted. */
  lemma {:induction false} InsertKeepsOrder(m: MessageItem, s: seq<MessageItem>)
    requires SortedByTime(s)
    ensures SortedByTime(InsertByTime(m, s))
  {
    if s == [] || m.TimeStamp() <= s[0].TimeStamp() {
      if s != [] {
        assert forall y :: y in s ==> s[0].TimeStamp() <= y.TimeStamp();
        HeadBelowRest(m, s);
      }
    } else {
      var rest := InsertByTime(m, s[1..]);
      assert SortedByTime(s[1..]);
      InsertKeepsOrder(m, s[1..]);
      forall y | y in rest ensures s[0].TimeStamp() <= y.TimeStamp() {
        assert y in multiset(rest);
        assert y in s[1..] || y == m;
      }
      HeadBelowRest(s[0], rest);
    }
  }

  /** Putting a message in front of a sorted list keeps it sorted when it is not newer than anything in the list. */
  lemma HeadBelowRest(x: MessageItem, rest: seq<MessageItem>)
    requires SortedByTime(rest)
    requires forall y :: y in rest ==> x.TimeStamp() <= y.TimeStamp()
    ensures SortedByTime([x] + rest)
  {
    var r := [x] + rest;
    forall i, j | 0 <= i < j < |r| ensures r[i].TimeStamp() <= r[j].TimeStamp() {
      assert r[j] == rest[j - 1];
      if i > 0 {
        assert r[i] == rest[i - 1];
      }
    }
  }

  /** `messages.sort { $0.timeStamp < $1.timeStamp }`: ascending by time stamp, same messages. */
  function SortByTime(s: seq<MessageItem>): (r: seq<MessageItem>)
    ensures SortedByTime(r)
    ensures multiset(r) == multiset(s)
    ensures |r| == |s|
  {
    if s == [] then []
    else
      assert s == [s[0]] + s[1..];
      InsertKeepsOrder(s[0], SortByTime(s[1..]));
      InsertByTime(s[0], SortByTime(s[1..]))
  }

  /** `messages.filter { $0.id != cursor }`: keeps every message but those with that id. */
  function WithoutId(s: seq<MessageItem>, cursor: string): (r: seq<MessageItem>)
    ensures forall m {:trigger multiset(r)[m]} :: multiset(r)[m] == if m.id == cursor then 0 else multiset(s)[m]
    ensures |r| <= |s|
  {
    if s == [] then []
    else
      var rest := WithoutId(s[1..], cursor);
      assert s == [s[0]] + s[1..];
      if s[0].id == cursor then rest else [s[0]] + rest
  }

  /** Filtering keeps the relative order, so a sorted list stays sorted. */
  lemma {:induction false} WithoutIdKeepsOrder(s: seq<MessageItem>, cursor: string)
    requires SortedByTime(s)
    ensures SortedByTime(WithoutId(s, cursor))
  {
    if s != [] {
      var rest := WithoutId(s[1..], cursor);
      assert SortedByTime(s[1..]);
      WithoutIdKeepsOrder(s[1..], cursor);
      if s[0].id != cursor {
        forall y | y in rest ensures s[0].TimeStamp() <= y.TimeStamp() {
          assert multiset(rest)[y] > 0;
          assert y in s[1..];
        }
        HeadBelowRest(s[0], rest);
      }
    }
  }

  // ----- One page of history -----

  /** What `getHistoricalMessages` hands to its completion. */
  datatype MessageNode = MessageNode(messages: seq<MessageItem>, currentCursor: Option<string>)

  const EmptyNode: MessageNode := MessageNode([], None)

  /** The outcome of `observeSingleEvent`: a snapshot, or the cancel block. */
  datatype QueryOutcome = Snapshot(children: seq<Child>) | Cancelled

  /**
   * The page built from a non-empty snapshot. The messages are sorted by
   * time stamp; the first page (no cursor) drops its newest message, a
   * later page drops the entry equal to the cursor (the key range of the
   * query includes it). The next cursor is the key of the first child,
   * taken before any message is dropped.
   */
  function Page(channel: ChannelItem, lastCursor: Option<string>, children: seq<Child>): (node: MessageNode)
    requires children != []
    ensures node.currentCursor == Some(children[0].key)
    ensures lastCursor.None? ==> |node.messages| == |children| - 1
    ensures lastCursor.Some? ==> |node.messages| <= |children|
  {
    var sorted := SortByTime(MakeMessages(channel, children));
    if lastCursor.None? then
      MessageNode(sorted[..|sorted| - 1], Some(children[0].key))
    else
      MessageNode(WithoutId(sorted, lastCursor.value), Some(children[0].key))
  }

  /** Every page is in ascending time-stamp order. */
  lemma PageSorted(channel: ChannelItem, lastCursor: Option<string>, children: seq<Child>)
    requires children != []
    ensures SortedByTime(Page(channel, lastCursor, children).messages)
  {
    var sorted := SortByTime(MakeMessages(channel, children));
    if lastCursor.None? {
      DropNewest(sorted);
    } else {
      WithoutIdKeepsOrder(sorted, lastCursor.value);
    }
  }

  /** `newest` is one of `ms` and no message of `ms` has a later time stamp. */
  predicate IsNewest(newest: MessageItem, ms: seq<MessageItem>)
  {
    newest in ms && forall m :: m in ms ==> m.TimeStamp() <= newest.TimeStamp()
  }

  /** The first page holds every fetched message but one, and the one left out is a newest fetched message. */
  lemma FirstPageDropsNewest(channel: ChannelItem, children: seq<Child>)
    requires children != []
    ensures exists newest :: (
      && IsNewest(newest, MakeMessages(channel, children))
      && multiset(Page(channel, None, children).messages) + multiset{newest} == multiset(MakeMessages(channel, children)))
  {
    var newest := NewestLeftOut(channel, children);
  }

  /** The message the first page leaves out: the last one after sorting. */
  lemma NewestLeftOut(channel: ChannelItem, children: seq<Child>) returns (newest: MessageItem)
    requires children != []
    ensures IsNewest(newest, MakeMessages(channel, children))
    ensures multiset(Page(channel, None, children).messages) + multiset{newest} == multiset(MakeMessages(channel, children))
  {
    var all := MakeMessages(channel, children);
    var sorted := SortByTime(all);
    DropNewest(sorted);
    var kept := Page(channel, None, children).messages;
    newest := sorted[|sorted| - 1];
    assert multiset(kept) + multiset{newest} == multiset(all);
    assert newest in multiset(all);
    forall m | m in all ensures m.TimeStamp() <= newest.TimeStamp() {
      assert m in multiset(sorted);
      assert m == newest || m in multiset(kept);
    }
  }

  /** A later page keeps exactly the fetched messages whose id is not the cursor, each as often as it was fetched. */
  lemma LaterPageFilters(channel: ChannelItem, cursor: string, children: seq<Child>, m: MessageItem)
    requires children != []
    ensures multiset(Page(channel, Some(cursor), children).messages)[m]
      == if m.id == cursor then 0 else multiset(MakeMessages(channel, children))[m]
  {
  }

  /** `removeLast` on a sorted list takes off a message at least as new as every one it keeps. */
  lemma DropNewest(s: seq<MessageItem>)
    requires SortedByTime(s) && s != []
    ensures SortedByTime(s[..|s| - 1])
    ensures multiset(s[..|s| - 1]) + multiset{s[|s| - 1]} == multiset(s)
    ensures forall m :: m in s[..|s| - 1] ==> m.TimeStamp() <= s[|s| - 1].TimeStamp()
  {
    assert s == s[..|s| - 1] + [s[|s| - 1]];
  }

  /**
   * `getHistoricalMessages`: the completion value, or `None` when the
   * completion is never called (an empty snapshot).
   */
  method GetHistoricalMessages(channel: ChannelItem, lastCursor: Option<string>, outcome: QueryOutcome)
    returns (completion: Option<MessageNode>)
    ensures outcome.Cancelled? ==> completion == Some(MessageNode([], None))
    ensures outcome.Snapshot? && outcome.children == [] ==> completion.None?
    ensures outcome.Snapshot? && outcome.children != [] ==>
      completion == Some(Page(channel, lastCursor, outcome.children))
  {
    match outcome {
      case Cancelled =>
        completion := Some(EmptyNode);
      case Snapshot(children) =>
        if children == [] {
          completion := None;
          return;
        }
        var first := children[0];
        var messages := MakeMessages(channel, children);
        messages := SortByTime(messages);
        completion := None;
        // Every child yields a message, so this test always passes.
        if |messages| == |children| {
          if lastCursor.None? {
            messages := messages[..|messages| - 1];
          }
          var filteredMessages := if lastCursor.None? then messages else WithoutId(messages, lastCursor.value);
          completion := Some(MessageNode(filteredMessages, Some(first.key)));
        }
    }
  }

  /** On a later page no message carries the cursor's id, and every other fetched message is kept. */
  lemma CursorExcluded(channel: ChannelItem, cursor: string, children: seq<Child>, i: nat)
    requires i < |children|
    ensures forall m :: m in Page(channel, Some(cursor), children).messages ==> m.id != cursor
    ensures children[i].key != cursor ==> MakeMessage(channel, children[i]) in Page(channel, Some(cursor), children).messages
  {
    var node := Page(channel, Some(cursor), children);
    forall m | m in node.messages ensures m.id != cursor {
      LaterPageFilters(channel, cursor, children, m);
      assert multiset(node.messages)[m] > 0;
    }
    var ms := MakeMessages(channel, children);
    if children[i].key != cursor {
      LaterPageFilters(channel, cursor, children, ms[i]);
      assert ms[i] in multiset(ms);
      assert multiset(node.messages)[ms[i]] > 0;
    }
  }

  // ----- Sending -----

  /** The two writes `sendTextMessage` makes: the channel preview and the message itself. */
  datatype TextMessageWrite = TextMessageWrite(
    channelId: string,
    messageId: string,
    lastMessage: string,
    lastMessageTimeStamp: real,
    lastMessageType: string,
    message: MessageFields)

  /**
   * `sendTextMessage`, with the generated key `autoId` and the clock `now`
   * as inputs: nothing is written (and `onComplete` is not called) when no
   * key could be generated.
   */
  function SendTextMessage(channel: ChannelItem, currentUser: UserItem, text: string, autoId: Option<string>, now: real)
    : (w: Option<TextMessageWrite>)
    ensures w.None? <==> autoId.None?
    ensures w.Some? ==>
      && w.value.channelId == channel.id && w.value.messageId == autoId.value
      && w.value.lastMessage == text && w.value.lastMessageTimeStamp == now
      && w.value.lastMessageType == Title(Text)
      && w.value.message == MessageFields(text, Text, now, currentUser.uid, map[], map[])
  {
    match autoId
    case None => None
    case Some(messageId) =>
      Some(TextMessageWrite(channel.id, messageId, text, now, Title(Text),
        MessageFields(text, Text, now, currentUser.uid, map[], map[])))
  }

  // ----- Upload parameters -----

  datatype MessageUploadParams = MessageUploadParams(
    channel: ChannelItem,
    text: string,
    messageType: MessageType,
    attachment: MediaAttachments.MediaAttachment,
    thumbnailURL: Option<string>,
    videoURL: Option<string>,
    sender: UserItem,
    audioURL: Option<string>,
    audioDuration: Option<real>)
  {
    /** The uploader is the sender. */
    function OwnerUID(): (uid: string)
      ensures uid == sender.Id()
    {
      sender.uid
    }

    /** Thumbnail size is sent only for photos and videos, taken from the attachment's thumbnail. */
    function ThumbnailWidth(): (w: Option<real>)
      ensures w.Some? <==> messageType == Photo || messageType == Video
      ensures w.Some? ==> w.value == attachment.Thumbnail().width
    {
      if messageType == Photo || messageType == Video then Some(attachment.Thumbnail().width) else None
    }

    function ThumbnailHeight(): (h: Option<real>)
      ensures h.Some? <==> messageType == Photo || messageType == Video
      ensures h.Some? ==> h.value == attachment.Thumbnail().height
    {
      if messageType == Photo || messageType == Video then Some(attachment.Thumbnail().height) else None
    }
  }
}
