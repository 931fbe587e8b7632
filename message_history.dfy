/**
 * Paging back through a channel's history with `getHistoricalMessages`
 * (WhatsAppClone/Service/MessageService.swift), over a model of the two
 * Firebase queries it issues. The channel's message node is a sequence of
 * children in ascending key order; keys compare lexicographically by
 * character, which is Firebase's order for keys that are not 32-bit
 * integers (generated message keys never are).
 */
module MessageHistory {

  import opened Wrappers
  import opened ChannelModel
  import opened MessageService
  import opened Numbers

  /** Lexicographic order on keys. */
  predicate KeyLess(a: string, b: string)
  {
    (a == [] && b != []) || (a != [] && b != [] && (a[0] < b[0] || (a[0] == b[0] && KeyLess(a[1..], b[1..]))))
  }

  lemma {:induction false} KeyLessIrreflexiveAsymmetric(a: string, b: string)
    ensures KeyLess(a, b) ==> a != b && !KeyLess(b, a)
  {
    if a != [] && b != [] && a[0] == b[0] {
      KeyLessIrreflexiveAsymmetric(a[1..], b[1..]);
      if a == b { assert a[1..] == b[1..]; }
    }
  }

  /** Keys of the channel's node, as the database orders them: strictly ascending. */
  predicate KeysAscending(log: seq<Child>)
  {
    forall i, j :: 0 <= i < j < |log| ==> KeyLess(log[i].key, log[j].key)
  }


  /** `queryLimited(toLast: pageSize)`: the last `pageSize` children. */
  function LimitedToLast(s: seq<Child>, pageSize: nat): (r: seq<Child>)
    ensures |r| == Min(pageSize, |s|) && r == s[|s| - |r|..]
  {
    s[|s| - Min(pageSize, |s|)..]
  }

  /** `queryOrderedByKey().queryEnding(atValue: cursor)`: the children whose key is at most the cursor. */
  function EndingAt(log: seq<Child>, cursor: string): (r: seq<Child>)
    ensures forall c :: c in r ==> c in log && (c.key == cursor || KeyLess(c.key, cursor))
  {
    if log == [] then []
    else
      var rest := EndingAt(log[1..], cursor);
      if log[0].key == cursor || KeyLess(log[0].key, cursor) then [log[0]] + rest else rest
  }

  /** The range query misses no child whose key is at most the cursor, and repeats none. */
  lemma {:induction false} EndingAtContents(log: seq<Child>, cursor: string, c: Child)
    ensures multiset(EndingAt(log, cursor))[c]
      == if c.key == cursor || KeyLess(c.key, cursor) then multiset(log)[c] else 0
    decreases |log|
  {
    if log != [] {
      EndingAtContents(log[1..], cursor, c);
      assert log == [log[0]] + log[1..];
    }
  }

  lemma {:induction false} KeyLessTransitive(a: string, b: string, c: string)
    requires KeyLess(a, b) && KeyLess(b, c)
    ensures KeyLess(a, c)
    decreases |a|
  {
    if a != [] && a[0] == b[0] && b[0] == c[0] {
      KeyLessTransitive(a[1..], b[1..], c[1..]);
    }
  }

  lemma {:induction false} KeyLessTotal(a: string, b: string)
    ensures a == b || KeyLess(a, b) || KeyLess(b, a)
    decreases |a|
  {
    if a != [] && b != [] && a[0] == b[0] {
      KeyLessTotal(a[1..], b[1..]);
      if a[1..] == b[1..] {
        assert a == [a[0]] + a[1..] && b == [b[0]] + b[1..];
      }
    }
  }

  /**
   * In an ascending node the range query returns a prefix: the children up
   * to the last key not above the cursor, in key order.
   */
  lemma {:induction false} EndingAtIsPrefix(log: seq<Child>, cursor: string)
    requires KeysAscending(log)
    ensures |EndingAt(log, cursor)| <= |log| && EndingAt(log, cursor) == log[..|EndingAt(log, cursor)|]
    decreases |log|
  {
    if log != [] {
      var rest := EndingAt(log[1..], cursor);
      assert KeysAscending(log[1..]);
      EndingAtIsPrefix(log[1..], cursor);
      if log[0].key == cursor || KeyLess(log[0].key, cursor) {
        assert [log[0]] + log[1..][..|rest|] == log[..|rest| + 1];
      } else {
        // The first key is above the cursor, and every later key is above the first.
        KeyLessTotal(cursor, log[0].key);
        forall i | 0 <= i < |log[1..]| ensures KeyLess(cursor, log[1..][i].key) {
          KeyLessTransitive(cursor, log[0].key, log[i + 1].key);
        }
        NoneAfter(log[1..], cursor);
      }
    }
  }

  /**
   * The snapshot for a page: the first query without a cursor, the range
   * query with one. Both keep at most `pageSize` children of the node.
   */
  function Query(log: seq<Child>, lastCursor: Option<string>, pageSize: nat): (r: seq<Child>)
    requires pageSize >= 1
    ensures |r| <= pageSize
    ensures lastCursor.None? ==> |r| == Min(pageSize, |log|)
    ensures lastCursor.Some? ==> forall c :: c in r ==> c in log && (c.key == lastCursor.value || KeyLess(c.key, lastCursor.value))
  {
    match lastCursor
    case None => LimitedToLast(log, pageSize)
    case Some(cursor) => LimitedToLast(EndingAt(log, cursor), pageSize)
  }

  /** In an ascending node, the children up to a key that is present form a prefix ending at that key. */
  lemma {:induction false} EndingAtPrefix(log: seq<Child>, c: nat)
    requires KeysAscending(log) && c < |log|
    ensures EndingAt(log, log[c].key) == log[..c + 1]
    decreases |log|
  {
    var cursor := log[c].key;
    if c == 0 {
      // Every later key is larger than the cursor, so none of them is taken.
      NoneAfter(log[1..], cursor);
      assert log[..1] == [log[0]];
    } else {
      assert KeysAscending(log[1..]);
      assert log[1..][c - 1] == log[c];
      EndingAtPrefix(log[1..], c - 1);
      assert log[..c + 1] == [log[0]] + log[1..][..c];
    }
  }

  lemma {:induction false} NoneAfter(log: seq<Child>, cursor: string)
    requires forall i :: 0 <= i < |log| ==> KeyLess(cursor, log[i].key)
    ensures EndingAt(log, cursor) == []
    decreases |log|
  {
    if log != [] {
      KeyLessIrreflexiveAsymmetric(cursor, log[0].key);
      NoneAfter(log[1..], cursor);
    }
  }

  /** The next cursor is the smallest key of the page, and every message of the page has a key at least as large. */
  lemma CursorIsSmallestKey(channel: ChannelItem, lastCursor: Option<string>, snapshot: seq<Child>, m: MessageItem)
    requires snapshot != [] && KeysAscending(snapshot)
    requires m in Page(channel, lastCursor, snapshot).messages
    ensures Page(channel, lastCursor, snapshot).currentCursor == Some(snapshot[0].key)
    ensures m.id == snapshot[0].key || KeyLess(snapshot[0].key, m.id)
  {
    var node := Page(channel, lastCursor, snapshot);
    var all := MakeMessages(channel, snapshot);
    assert multiset(node.messages)[m] > 0;
    if lastCursor.None? {
      FirstPageDropsNewest(channel, snapshot);
      var newest :| IsNewest(newest, all) && multiset(node.messages) + multiset{newest} == multiset(all);
      assert m in multiset(all);
    } else {
      LaterPageFilters(channel, lastCursor.value, snapshot, m);
    }
    assert m in all;
    var i :| 0 <= i < |all| && all[i] == m;
  }

  /**
   * A page fetched with the cursor at index `c` (a key that is present)
   * holds exactly the messages of the `pageSize - 1` entries just before
   * the cursor (fewer near the start), and its cursor is the first of
   * the entries fetched. So successive pages neither overlap nor leave gaps,
   * and a page yields at most `pageSize - 1` messages.
   */
  lemma CursorPage(channel: ChannelItem, log: seq<Child>, c: nat, pageSize: nat)
    requires KeysAscending(log) && c < |log| && pageSize >= 1
    ensures var lo := Max(0, c + 1 - pageSize);
      var snapshot := Query(log, Some(log[c].key), pageSize);
      && snapshot == log[lo..c + 1]
      && multiset(Page(channel, Some(log[c].key), snapshot).messages) == multiset(MakeMessages(channel, log[lo..c]))
      && |Page(channel, Some(log[c].key), snapshot).messages| == c - lo
      && Page(channel, Some(log[c].key), snapshot).currentCursor == Some(log[lo].key)
  {
    CursorSnapshot(log, c, pageSize);
    PageDropsOnlyCursor(channel, log, Max(0, c + 1 - pageSize), c);
  }

  /** The range query at a present cursor returns the cursor entry and the `pageSize - 1` entries before it, none with the cursor key. */
  lemma CursorSnapshot(log: seq<Child>, c: nat, pageSize: nat)
    requires KeysAscending(log) && c < |log| && pageSize >= 1
    ensures Query(log, Some(log[c].key), pageSize) == log[Max(0, c + 1 - pageSize)..c + 1]
    ensures forall k :: Max(0, c + 1 - pageSize) <= k < c ==> log[k].key != log[c].key
  {
    EndingAtPrefix(log, c);
    assert log[..c + 1][c + 1 - Min(pageSize, c + 1)..] == log[Max(0, c + 1 - pageSize)..c + 1];
    forall k | 0 <= k < c ensures log[k].key != log[c].key {
      KeyLessIrreflexiveAsymmetric(log[k].key, log[c].key);
    }
  }

  /** A page of the entries `lo..c` whose only entry with the cursor key is the last one holds the messages of the entries before it. */
  lemma PageDropsOnlyCursor(channel: ChannelItem, log: seq<Child>, lo: nat, c: nat)
    requires lo <= c < |log|
    requires forall k :: lo <= k < c ==> log[k].key != log[c].key
    ensures var node := Page(channel, Some(log[c].key), log[lo..c + 1]);
      && multiset(node.messages) == multiset(MakeMessages(channel, log[lo..c]))
      && |node.messages| == c - lo
      && node.currentCursor == Some(log[lo].key)
  {
    var before := log[lo..c];
    assert log[lo..c + 1] == before + [log[c]];
    forall k | 0 <= k < |before| ensures before[k].key != log[c].key {
      assert before[k] == log[lo + k];
    }
    CursorEntryDropped(channel, before, log[c]);
    var node := Page(channel, Some(log[c].key), before + [log[c]]);
    assert |node.messages| == |multiset(node.messages)|;
  }

  /** The cursor entry, last of a page and the only one with its key, is the one entry whose message the page leaves out. */
  lemma CursorEntryDropped(channel: ChannelItem, before: seq<Child>, last: Child)
    requires forall k :: 0 <= k < |before| ==> before[k].key != last.key
    ensures multiset(Page(channel, Some(last.key), before + [last]).messages) == multiset(MakeMessages(channel, before))
  {
    IdsOfOthers(channel, before, last.key);
    var node := Page(channel, Some(last.key), before + [last]);
    var older := MakeMessages(channel, before);
    assert MakeMessages(channel, before + [last]) == older + [MakeMessage(channel, last)];
    forall m ensures multiset(node.messages)[m] == multiset(older)[m] {
      LaterPageFilters(channel, last.key, before + [last], m);
      if m.id == last.key {
        assert m !in older;
      }
    }
    assert multiset(node.messages) == multiset(older);
  }

  lemma IdsOfOthers(channel: ChannelItem, children: seq<Child>, key: string)
    requires forall k :: 0 <= k < |children| ==> children[k].key != key
    ensures forall m :: m in MakeMessages(channel, children) ==> m.id != key
  {
    var ms := MakeMessages(channel, children);
    forall m | m in ms ensures m.id != key {
      var k :| 0 <= k < |ms| && ms[k] == m;
    }
  }

  /**
   * The first page (no cursor) fetches the last `pageSize` entries and
   * holds their messages but one, a newest by time stamp. Its cursor is
   * the first entry fetched.
   */
  lemma FirstPage(channel: ChannelItem, log: seq<Child>, pageSize: nat)
    requires 1 <= pageSize && log != []
    ensures var lo := |log| - Min(pageSize, |log|);
      var snapshot := Query(log, None, pageSize);
      && snapshot == log[lo..]
      && |Page(channel, None, snapshot).messages| == |log| - lo - 1
      && Page(channel, None, snapshot).currentCursor == Some(log[lo].key)
    ensures var lo := |log| - Min(pageSize, |log|);
      exists newest :: (
        && IsNewest(newest, MakeMessages(channel, log[lo..]))
        && multiset(Page(channel, None, log[lo..]).messages) + multiset{newest} == multiset(MakeMessages(channel, log[lo..])))
  {
    FirstPageDropsNewest(channel, log[|log| - Min(pageSize, |log|)..]);
  }

  /** With a page size of one, a cursor page fetches only the cursor entry, drops it, and keeps the same cursor. */
  lemma PageSizeOneNeverAdvances(channel: ChannelItem, log: seq<Child>, c: nat)
    requires KeysAscending(log) && c < |log|
    ensures Page(channel, Some(log[c].key), Query(log, Some(log[c].key), 1)) == MessageNode([], Some(log[c].key))
  {
    CursorPage(channel, log, c, 1);
  }

  /** Once the cursor is the oldest key, every further page is empty and keeps that cursor: paging never stops by itself. */
  lemma OldestCursorRepeats(channel: ChannelItem, log: seq<Child>, pageSize: nat)
    requires KeysAscending(log) && log != [] && pageSize >= 1
    ensures Page(channel, Some(log[0].key), Query(log, Some(log[0].key), pageSize)) == MessageNode([], Some(log[0].key))
  {
    CursorPage(channel, log, 0, pageSize);
  }

  /**
   * The messages delivered by paging back from the entry at index `c`
   * until the cursor reaches the oldest entry, each page put in front of
   * the newer ones.
   */
  function Backfill(channel: ChannelItem, log: seq<Child>, c: nat, pageSize: nat): (ms: seq<MessageItem>)
    requires KeysAscending(log) && c < |log| && pageSize >= 2
    decreases c
  {
    if c == 0 then []
    else
      var node := Page(channel, Some(log[c].key), Query(log, Some(log[c].key), pageSize));
      Backfill(channel, log, Max(0, c + 1 - pageSize), pageSize) + node.messages
  }

  /**
   * Paging back from index `c` delivers every older entry's message exactly
   * once: no duplicates across pages and no gaps.
   */
  lemma {:induction false} BackfillComplete(channel: ChannelItem, log: seq<Child>, c: nat, pageSize: nat)
    requires KeysAscending(log) && c < |log| && pageSize >= 2
    ensures multiset(Backfill(channel, log, c, pageSize)) == multiset(MakeMessages(channel, log[..c]))
    decreases c
  {
    if c > 0 {
      var lo := Max(0, c + 1 - pageSize);
      BackfillStep(channel, log, c, pageSize);
      BackfillComplete(channel, log, lo, pageSize);
      MakeMessagesSplit(channel, log, lo, c);
    } else {
      assert MakeMessages(channel, log[..0]) == [];
    }
  }

  /**
   * The first page followed by paging back to the oldest entry delivers
   * every message of the channel exactly once, except one message with
   * the latest time stamp among the first page's entries, which no page
   * delivers.
   */
  lemma WholeHistory(channel: ChannelItem, log: seq<Child>, pageSize: nat)
    requires KeysAscending(log) && log != [] && pageSize >= 2
    ensures var lo := |log| - Min(pageSize, |log|);
      var first := Page(channel, None, Query(log, None, pageSize));
      exists newest :: (
        && IsNewest(newest, MakeMessages(channel, log[lo..]))
        && multiset(Backfill(channel, log, lo, pageSize) + first.messages) + multiset{newest}
          == multiset(MakeMessages(channel, log)))
  {
    var lo := |log| - Min(pageSize, |log|);
    assert Query(log, None, pageSize) == log[lo..];
    var newest := NewestLeftOut(channel, log[lo..]);
    BackfillThenFirstPage(channel, log, lo, pageSize, newest);
    assert IsNewest(newest, MakeMessages(channel, log[lo..]))
      && multiset(Backfill(channel, log, lo, pageSize) + Page(channel, None, Query(log, None, pageSize)).messages) + multiset{newest}
        == multiset(MakeMessages(channel, log));
  }

  /** Paging back from the first page's cursor, followed by that page, gives every message but the one the first page left out. */
  lemma BackfillThenFirstPage(channel: ChannelItem, log: seq<Child>, lo: nat, pageSize: nat, newest: MessageItem)
    requires KeysAscending(log) && lo < |log| && pageSize >= 2
    requires multiset(Page(channel, None, log[lo..]).messages) + multiset{newest} == multiset(MakeMessages(channel, log[lo..]))
    ensures multiset(Backfill(channel, log, lo, pageSize) + Page(channel, None, log[lo..]).messages) + multiset{newest}
      == multiset(MakeMessages(channel, log))
  {
    var snapshot := log[lo..];
    BackfillComplete(channel, log, lo, pageSize);
    MakeMessagesSplit(channel, log, lo, |log|);
    assert log[..|log|] == log && log[lo..|log|] == snapshot;
    JoinPages(Backfill(channel, log, lo, pageSize), Page(channel, None, snapshot).messages, newest,
      MakeMessages(channel, log[..lo]), MakeMessages(channel, snapshot), MakeMessages(channel, log));
  }

  /** Older pages followed by a page missing `newest` make up the whole log but `newest`. */
  lemma JoinPages(older: seq<MessageItem>, newer: seq<MessageItem>, newest: MessageItem,
                  olderAll: seq<MessageItem>, newerAll: seq<MessageItem>, all: seq<MessageItem>)
    requires multiset(older) == multiset(olderAll)
    requires multiset(newer) + multiset{newest} == multiset(newerAll)
    requires multiset(all) == multiset(olderAll) + multiset(newerAll)
    ensures multiset(older + newer) + multiset{newest} == multiset(all)
  {
  }

  /** One step of paging back adds exactly the messages of the entries between the new cursor and the old one. */
  lemma BackfillStep(channel: ChannelItem, log: seq<Child>, c: nat, pageSize: nat)
    requires KeysAscending(log) && 0 < c < |log| && pageSize >= 2
    ensures var lo := Max(0, c + 1 - pageSize);
      multiset(Backfill(channel, log, c, pageSize))
        == multiset(Backfill(channel, log, lo, pageSize)) + multiset(MakeMessages(channel, log[lo..c]))
  {
    CursorPage(channel, log, c, pageSize);
  }

  lemma MakeMessagesSplit(channel: ChannelItem, log: seq<Child>, lo: nat, c: nat)
    requires lo <= c <= |log|
    ensures multiset(MakeMessages(channel, log[..c])) == multiset(MakeMessages(channel, log[..lo])) + multiset(MakeMessages(channel, log[lo..c]))
  {
    var l := MakeMessages(channel, log[..c]);
    var r := MakeMessages(channel, log[..lo]) + MakeMessages(channel, log[lo..c]);
    forall i | 0 <= i < |l| ensures l[i] == r[i] {
      if i < lo {
        assert log[..c][i] == log[..lo][i];
      } else {
        assert log[..c][i] == log[lo..c][i - lo];
      }
    }
    assert l == r;
  }
}
