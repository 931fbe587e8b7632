/** The reaction badge under a message: WhatsAppClone/Screens/Chat/Views/MessageReactionView.swift. */
module MessageReactionBadge {

  import opened Wrappers

  /** The sum of all counts of an emoji-to-count dictionary. */
  ghost function SumCounts(reactions: map<string, int>): int
    decreases |reactions|
  {
    if reactions == map[] then 0
    else
      var e :| e in reactions;
      reactions[e] + SumCounts(reactions - {e})
  }

  /** The sum does not depend on which entry is taken first. */
  lemma {:induction false} SumCountsRemove(reactions: map<string, int>, e: string)
    requires e in reactions
    ensures SumCounts(reactions) == reactions[e] + SumCounts(reactions - {e})
    decreases |reactions|
  {
    var first :| first in reactions && SumCounts(reactions) == reactions[first] + SumCounts(reactions - {first});
    if first != e {
      assert |reactions - {first}| < |reactions|;
      SumCountsRemove(reactions - {first}, e);
      SumCountsRemove(reactions - {e}, first);
      assert reactions - {first} - {e} == reactions - {e} - {first};
    }
  }

  /**
   * `emojis`: the dictionary's keys in its iteration order, which Swift
   * leaves unspecified; every emoji appears exactly once.
   */
  method Emojis(reactions: map<string, int>) returns (emojis: seq<string>)
    ensures |emojis| == |reactions|
    ensures forall e :: e in emojis <==> e in reactions
    ensures forall i, j :: 0 <= i < j < |emojis| ==> emojis[i] != emojis[j]
  {
    emojis := [];
    var remaining := reactions.Keys;
    while remaining != {}
      invariant remaining <= reactions.Keys
      invariant forall e :: e in emojis <==> e in reactions && e !in remaining
      invariant forall i, j :: 0 <= i < j < |emojis| ==> emojis[i] != emojis[j]
      invariant |emojis| + |remaining| == |reactions|
      decreases |remaining|
    {
      var e :| e in remaining;
      emojis := emojis + [e];
      remaining := remaining - {e};
    }
  }

  /** `emojiCount`: the counts added up, in whatever order the dictionary yields them. */
  method EmojiCount(reactions: map<string, int>) returns (total: int)
    ensures total == SumCounts(reactions)
  {
    total := 0;
    var remaining := reactions;
    while remaining != map[]
      invariant remaining.Keys <= reactions.Keys
      invariant forall e :: e in remaining ==> remaining[e] == reactions[e]
      invariant total + SumCounts(remaining) == SumCounts(reactions)
      decreases |remaining|
    {
      var e :| e in remaining;
      SumCountsRemove(remaining, e);
      total := total + remaining[e];
      remaining := remaining - {e};
    }
  }

  /** What the badge draws: each emoji once, then the total when it is above one. */
  datatype Badge = Badge(emojis: seq<string>, total: Option<int>)

  /**
   * `body`: nothing unless the message has reactions; the total is shown
   * only when it exceeds 1. `hasReactions` is `MessageItem.hasReactions`,
   * which is not part of this model.
   */
  method Body(reactions: map<string, int>, hasReactions: bool) returns (badge: Option<Badge>)
    ensures badge.None? <==> !hasReactions
    ensures badge.Some? ==>
      && (forall e :: e in badge.value.emojis <==> e in reactions)
      && |badge.value.emojis| == |reactions|
      && (badge.value.total.Some? <==> SumCounts(reactions) > 1)
      && (badge.value.total.Some? ==> badge.value.total.value == SumCounts(reactions))
  {
    if !hasReactions {
      return None;
    }
    var emojis := Emojis(reactions);
    var emojiCount := EmojiCount(reactions);
    badge := Some(Badge(emojis, if emojiCount > 1 then Some(emojiCount) else None));
  }

  /** A single reaction of count one shows its emoji and no number. */
  lemma SingleReactionShowsNoTotal(e: string)
    ensures SumCounts(map[e := 1]) == 1
  {
    SumCountsRemove(map[e := 1], e);
    assert map[e := 1] - {e} == map[];
  }
}
