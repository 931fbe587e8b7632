/**
 * The reaction counter of a message: `addReaction` and
 * `increaseCountViaTransaction` in WhatsAppClone/Service/MessageService.swift.
 * A message's node in the database holds `reactions` (emoji to count) and
 * `userReactions` (user id to the one emoji that user picked last).
 */
module MessageReactions {

  import opened Wrappers
  import opened DictionaryValues

  datatype ReactionNode = ReactionNode(reactions: map<string, Value>, userReactions: map<string, string>)

  const EmptyReactionNode: ReactionNode := ReactionNode(map[], map[])

  /** `value as? Int ?? 0`: the count a stored value stands for. */
  function CountOf(stored: Option<Value>): (n: int)
    ensures stored.Some? && stored.value.IntValue? ==> n == stored.value.n
    ensures !(stored.Some? && stored.value.IntValue?) ==> n == 0
  {
    if stored.Some? && stored.value.IntValue? then stored.value.n else 0
  }

  /** The result of one run of the transaction block: the value it writes and the count it reports. */
  datatype TransactionRun = TransactionRun(written: Value, reported: int)

  /**
   * The block given to `runTransactionBlock`: an integer is incremented,
   * anything else (including nothing) is replaced by 1, and the completion
   * is told the value now held.
   */
  function IncreaseCount(current: Option<Value>): (run: TransactionRun)
    ensures run.written == IntValue(run.reported)
    ensures run.reported == CountOf(current) + 1
  {
    var written := if current.Some? && current.value.IntValue? then IntValue(current.value.n + 1) else IntValue(1);
    TransactionRun(written, CountOf(Some(written)))
  }

  /** The count of `emoji` stored in a node. */
  function Count(node: ReactionNode, emoji: string): (n: int)
  {
    CountOf(if emoji in node.reactions then Some(node.reactions[emoji]) else None)
  }

  /**
   * `addReaction`: runs the counter transaction at `reactions/<emoji>`,
   * then records `userReactions[uid] := emoji`, and reports the new count.
   */
  function AddReaction(node: ReactionNode, emoji: string, uid: string): (r: (ReactionNode, int))
    ensures r.1 == Count(node, emoji) + 1
    ensures r.0.reactions == node.reactions[emoji := IntValue(r.1)]
    ensures r.0.userReactions == node.userReactions[uid := emoji]
  {
    var run := IncreaseCount(if emoji in node.reactions then Some(node.reactions[emoji]) else None);
    var afterTransaction := node.(reactions := node.reactions[emoji := run.written]);
    (afterTransaction.(userReactions := afterTransaction.userReactions[uid := emoji]), run.reported)
  }

  /** Only the chosen emoji's count changes, and it goes up by exactly one; no count ever goes down. */
  lemma AddReactionCounts(node: ReactionNode, emoji: string, uid: string, other: string)
    ensures Count(AddReaction(node, emoji, uid).0, emoji) == Count(node, emoji) + 1
    ensures other != emoji ==> Count(AddReaction(node, emoji, uid).0, other) == Count(node, other)
  {
  }

  /** The users whose current reaction is `emoji`. */
  function Holders(node: ReactionNode, emoji: string): (users: set<string>)
    ensures forall u :: u in users <==> u in node.userReactions && node.userReactions[u] == emoji
  {
    set u | u in node.userReactions && node.userReactions[u] == emoji
  }

  /**
   * The invariant the counter protocol does keep: every count is at least
   * the number of users currently holding that emoji. (It is not kept with
   * equality: switching emoji never lowers the old emoji's count.)
   */
  ghost predicate CountsCoverHolders(node: ReactionNode)
  {
    forall e :: e in node.reactions || e in node.userReactions.Values ==> |Holders(node, e)| <= Count(node, e)
  }

  lemma {:induction false} AddReactionKeepsCountsCoverHolders(node: ReactionNode, emoji: string, uid: string)
    requires CountsCoverHolders(node)
    ensures CountsCoverHolders(AddReaction(node, emoji, uid).0)
  {
    var after := AddReaction(node, emoji, uid).0;
    forall e | e in after.reactions || e in after.userReactions.Values
      ensures |Holders(after, e)| <= Count(after, e)
    {
      if e == emoji {
        assert Holders(after, e) <= Holders(node, e) + {uid};
        SubsetCardinality(Holders(after, e), Holders(node, e) + {uid});
        HoldersBound(node, e);
      } else {
        assert Holders(after, e) <= Holders(node, e);
        SubsetCardinality(Holders(after, e), Holders(node, e));
        if Holders(after, e) != {} {
          var u :| u in Holders(after, e);
          assert e in node.userReactions.Values;
        }
      }
    }
  }

  /** For an emoji nobody holds the bound is trivial; for one that is held the invariant gives it. */
  lemma HoldersBound(node: ReactionNode, e: string)
    requires CountsCoverHolders(node)
    ensures |Holders(node, e)| <= Count(node, e) || Holders(node, e) == {}
  {
    if Holders(node, e) != {} {
      var u :| u in Holders(node, e);
      assert e in node.userReactions.Values;
    }
  }

  lemma SubsetCardinality(a: set<string>, b: set<string>)
    requires a <= b
    ensures |a| <= |b|
  {
    assert b == a + (b - a);
  }

  /** A fresh node (no reactions yet) satisfies the invariant. */
  lemma EmptyNodeCoversHolders()
    ensures CountsCoverHolders(EmptyReactionNode)
  {
  }

  /**
   * One user picking "👍" and then "❤️" leaves both counts at 1 while
   * the user holds only "❤️": the first count is never taken back.
   */
  lemma SwitchingNeverDecrements(uid: string)
    ensures var n1 := AddReaction(EmptyReactionNode, "👍", uid).0;
      var n2 := AddReaction(n1, "❤️", uid).0;
      Count(n2, "👍") == 1 && Count(n2, "❤️") == 1
      && n2.userReactions == map[uid := "❤️"]
      && Holders(n2, "👍") == {}
  {
    var n1 := AddReaction(EmptyReactionNode, "👍", uid).0;
    var n2 := AddReaction(n1, "❤️", uid).0;
    assert "👍" != "❤️";
    assert n2.userReactions == map[uid := "❤️"];
  }

  /** Two users reacting with the same emoji count twice and are both recorded. */
  lemma TwoUsersSameEmoji(u1: string, u2: string)
    requires u1 != u2
    ensures var n1 := AddReaction(EmptyReactionNode, "👍", u1).0;
      var n2 := AddReaction(n1, "👍", u2).0;
      Count(n2, "👍") == 2 && Holders(n2, "👍") == {u1, u2}
  {
  }
}
