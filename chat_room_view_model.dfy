/** The chat screen's state: WhatsAppClone/Screens/Chat/ViewModels/ChatRoomViewModel.swift. */
module ChatRoom {

  import opened Wrappers
  import opened UserModel
  import opened ChannelModel
  import opened MessageService

  /** The uids of the loaded member profiles (`members.compactMap { $0.uid }`). */
  function MemberUids(members: seq<UserItem>): (uids: seq<string>)
    ensures |uids| == |members|
    ensures forall i :: 0 <= i < |members| ==> uids[i] == members[i].uid
  {
    seq(|members|, i requires 0 <= i < |members| => members[i].uid)
  }

  /** `s` can be obtained from `t` by deleting elements: order is kept. */
  predicate IsSubsequence(s: seq<string>, t: seq<string>)
    decreases |t|
  {
    s == [] || (t != [] && (if s[0] == t[0] then IsSubsequence(s[1..], t[1..]) else IsSubsequence(s, t[1..])))
  }

  /**
   * The two filters of `getAllChannelMembers`: member uids whose profile
   * is not loaded yet, without the current user.
   */
  function UidsToFetch(membersUids: seq<string>, fetched: seq<string>, currentUid: string): (r: seq<string>)
    ensures forall x :: x in r <==> x in membersUids && x !in fetched && x != currentUid
    ensures forall x {:trigger multiset(r)[x]} ::
      multiset(r)[x] == (if x !in fetched && x != currentUid then multiset(membersUids)[x] else 0)
    ensures IsSubsequence(r, membersUids)
  {
    if membersUids == [] then []
    else
      var rest := UidsToFetch(membersUids[1..], fetched, currentUid);
      var x := membersUids[0];
      assert membersUids == [x] + membersUids[1..];
      if x !in fetched && x != currentUid then [x] + rest else
        SubsequenceOfTail(rest, membersUids);
        rest
  }

  lemma SubsequenceOfTail(s: seq<string>, t: seq<string>)
    requires t != [] && IsSubsequence(s, t[1..])
    ensures IsSubsequence(s, t)
    decreases |t|, 0
  {
    if s != [] && s[0] == t[0] {
      SubsequenceDropHead(s, t[1..]);
    }
  }

  lemma SubsequenceDropHead(s: seq<string>, t: seq<string>)
    requires s != [] && IsSubsequence(s, t)
    ensures IsSubsequence(s[1..], t)
    decreases |t|, 1
  {
    if s[0] != t[0] {
      SubsequenceDropHead(s, t[1..]);
      SubsequenceOfTail(s[1..], t);
    } else {
      if s[1..] != [] {
        SubsequenceOfTail(s[1..], t);
      }
    }
  }

  class ChatRoomViewModel {
    var textMessage: string
    var messages: seq<MessageItem>
    var channel: ChannelItem
    var currentUser: Option<UserItem>

    /** `init(channel:)`; the auth listener sets `currentUser` later. */
    constructor (channel: ChannelItem)
      ensures this.channel == channel
      ensures textMessage == "" && messages == [] && currentUser.None?
    {
      this.channel := channel;
      textMessage := "";
      messages := [];
      currentUser := None;
    }

    /**
     * The auth state turned to logged-in with `user`: the user is stored.
     * The listener then starts `getMessages` or `getAllChannelMembers`;
     * those are separate steps here (`GetAllChannelMembers`, `ReceiveMessages`).
     */
    method SetCurrentUser(user: UserItem)
      modifies this
      ensures currentUser == Some(user)
      ensures textMessage == old(textMessage) && messages == old(messages) && channel == old(channel)
    {
      currentUser := Some(user);
    }

    /**
     * `sendMessage`: without a signed-in user nothing happens. Otherwise
     * the text is sent, and once the send completes the input is cleared.
     * `autoId` and `now` stand for the generated key and the clock.
     */
    method SendMessage(autoId: Option<string>, now: real) returns (write: Option<TextMessageWrite>)
      modifies this`textMessage
      ensures old(currentUser).None? ==> write.None? && textMessage == old(textMessage)
      ensures old(currentUser).Some? ==>
        write == SendTextMessage(channel, currentUser.value, old(textMessage), autoId, now)
      ensures textMessage == if write.Some? then "" else old(textMessage)
    {
      write := None;
      if currentUser.None? {
        return;
      }
      write := SendTextMessage(channel, currentUser.value, textMessage, autoId, now);
      if write.Some? {
        // onComplete
        textMessage := "";
      }
    }

    /** `getMessages`' completion: the list is replaced wholesale. */
    method ReceiveMessages(ms: seq<MessageItem>)
      modifies this`messages
      ensures messages == ms
    {
      messages := ms;
    }

    /**
     * `getAllChannelMembers`: computes the uids still to fetch and, when the
     * users come back (`fetchedUsers` stands for `UserService.getUsers`),
     * appends them to the channel's members. Without a current user nothing
     * is fetched and nothing changes.
     */
    method GetAllChannelMembers(fetchedUsers: seq<UserItem>) returns (toFetch: Option<seq<string>>)
      modifies this`channel
      ensures old(currentUser).None? ==> toFetch.None? && channel == old(channel)
      ensures old(currentUser).Some? ==>
        && toFetch == Some(UidsToFetch(old(channel).membersUids, MemberUids(old(channel).members), currentUser.value.uid))
        && channel == old(channel).(members := old(channel).members + fetchedUsers)
    {
      if currentUser.None? {
        return None;
      }
      var membersAlreadyFetched := MemberUids(channel.members);
      var memberUidsToFetch := UidsToFetch(channel.membersUids, membersAlreadyFetched, currentUser.value.uid);
      toFetch := Some(memberUidsToFetch);
      channel := channel.(members := channel.members + fetchedUsers);
    }
  }
}
