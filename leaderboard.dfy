/** The local side of the leaderboard manager: the score list kept in the
    browser's storage (abstracted to a sequence of entries), the top-N
    view of it, the offline rank, the name check, the offline guard of
    score submission and the top-three panel.

    The storage list is only ever read through a descending sort by
    score. The sort the browser uses is stable, so `SortDesc` is the
    stable one: an entry never overtakes an earlier entry of equal score. */
module Leaderboard {
  import opened Options

  /** Number of entries the local list keeps. */
  const KeepLocal: nat := 50
  /** How many entries the offline rank looks at. */
  const RankWindow: int := 100
  /** How many entries the panel shows. */
  const PanelSize: nat := 3
  /** Shortest accepted player name, after trimming. */
  const MinNameLength: nat := 2

  datatype Entry = Entry(playerName: string, score: int, createdAt: string)

  /** A row that has been handed to the external leaderboard store. */
  datatype Row = Row(playerName: string, score: int)

  function Min(a: int, b: int): int { if a < b then a else b }

  ghost predicate Descending(t: seq<Entry>)
  {
    forall i, j :: 0 <= i < j < |t| ==> t[i].score >= t[j].score
  }

  /** Number of entries scoring at least `s`. */
  function CountAtLeast(t: seq<Entry>, s: int): (n: nat)
    ensures n <= |t|
  {
    if t == [] then 0 else (if t[0].score >= s then 1 else 0) + CountAtLeast(t[1..], s)
  }

  /** Number of entries scoring strictly more than `s` (scores are integers). */
  function CountAbove(t: seq<Entry>, s: int): nat
  {
    CountAtLeast(t, s + 1)
  }

  /** Places `e` after every leading entry that scores at least as much. */
  function Insert(e: Entry, t: seq<Entry>): (r: seq<Entry>)
    ensures |r| == |t| + 1
    ensures multiset(r) == multiset(t) + multiset{e}
  {
    if t == [] then [e]
    else if t[0].score >= e.score then
      assert t == [t[0]] + t[1..];
      [t[0]] + Insert(e, t[1..])
    else [e] + t
  }

  /** `list.sort((a, b) => b.score - a.score)` with a stable sort: each
      entry is inserted, in list order, behind the entries of equal score
      that precede it. */
  function SortDesc(s: seq<Entry>): (r: seq<Entry>)
    ensures |r| == |s|
    ensures multiset(r) == multiset(s)
    decreases |s|
  {
    if s == [] then []
    else
      assert s == s[..|s| - 1] + [s[|s| - 1]];
      Insert(s[|s| - 1], SortDesc(s[..|s| - 1]))
  }

  lemma DescendingTail(t: seq<Entry>)
    requires Descending(t) && t != []
    ensures Descending(t[1..])
  {
    forall i, j | 0 <= i < j < |t[1..]| ensures t[1..][i].score >= t[1..][j].score {
      assert t[1..][i] == t[i + 1] && t[1..][j] == t[j + 1];
    }
  }

  lemma {:induction false} CountAllBelow(t: seq<Entry>, s: int)
    requires forall k :: 0 <= k < |t| ==> t[k].score < s
    ensures CountAtLeast(t, s) == 0
    decreases |t|
  {
    if t != [] {
      CountAllBelow(t[1..], s);
    }
  }

  lemma {:induction false} CountAllReach(t: seq<Entry>, s: int)
    requires forall k :: 0 <= k < |t| ==> t[k].score >= s
    ensures CountAtLeast(t, s) == |t|
    decreases |t|
  {
    if t != [] {
      CountAllReach(t[1..], s);
    }
  }

  lemma ConsInsertion(t: seq<Entry>, e: Entry, k: nat)
    requires 0 < |t| && k < |t|
    ensures [t[0]] + (t[1..][..k] + [e] + t[1..][k..]) == t[..k + 1] + [e] + t[k + 1..]
  {
    assert t[1..][..k] == t[1..k + 1];
    assert t[1..][k..] == t[k + 1..];
    assert [t[0]] + t[1..k + 1] == t[..k + 1];
  }

  /** In a descending list the new entry lands right after the entries
      that score at least as much as it. */
  lemma {:induction false} InsertPosition(e: Entry, t: seq<Entry>)
    requires Descending(t)
    ensures CountAtLeast(t, e.score) <= |t|
    ensures Insert(e, t) == t[..CountAtLeast(t, e.score)] + [e] + t[CountAtLeast(t, e.score)..]
    decreases |t|
  {
    if t == [] {
    } else if t[0].score >= e.score {
      DescendingTail(t);
      InsertPosition(e, t[1..]);
      var k := CountAtLeast(t[1..], e.score);
      assert CountAtLeast(t, e.score) == k + 1;
      ConsInsertion(t, e, k);
    } else {
      InsertAheadOfAll(e, t);
    }
  }

  /** An entry that beats the head of a descending list goes first. */
  lemma InsertAheadOfAll(e: Entry, t: seq<Entry>)
    requires Descending(t) && t != [] && t[0].score < e.score
    ensures CountAtLeast(t, e.score) == 0
    ensures Insert(e, t) == t[..0] + [e] + t[0..]
  {
    forall k | 0 <= k < |t| ensures t[k].score < e.score {
      assert t[0].score >= t[k].score;
    }
    CountAllBelow(t, e.score);
    assert t[..0] == [] && t[0..] == t;
  }

  /** In a descending list, the entries before index `k` reach `s` and
      the entries from `k` on do not, where `k` counts those reaching it. */
  lemma {:induction false} CountSplitsDescending(t: seq<Entry>, s: int)
    requires Descending(t)
    ensures CountAtLeast(t, s) <= |t|
    ensures forall i :: 0 <= i < CountAtLeast(t, s) ==> t[i].score >= s
    ensures forall i :: CountAtLeast(t, s) <= i < |t| ==> t[i].score < s
    decreases |t|
  {
    if t != [] {
      DescendingTail(t);
      CountSplitsDescending(t[1..], s);
      if t[0].score < s {
        forall i | 0 < i < |t| ensures t[i].score < s {
          assert t[0].score >= t[i].score;
        }
      } else {
        forall i | 0 < i < |t| ensures t[i] == t[1..][i - 1] { }
      }
    }
  }

  /** Where the elements of `t` sit once `e` is placed at index `k`. */
  lemma InsertedAt(t: seq<Entry>, e: Entry, k: nat)
    requires k <= |t|
    ensures var r := t[..k] + [e] + t[k..];
      && |r| == |t| + 1
      && (forall i :: 0 <= i < k ==> r[i] == t[i])
      && r[k] == e
      && (forall i :: k < i < |r| ==> r[i] == t[i - 1])
  {
  }

  /** Inserting into a descending list keeps it descending. */
  lemma InsertDescending(e: Entry, t: seq<Entry>)
    requires Descending(t)
    ensures Descending(Insert(e, t))
  {
    InsertPosition(e, t);
    CountSplitsDescending(t, e.score);
    var k := CountAtLeast(t, e.score);
    InsertedAt(t, e, k);
    var r := t[..k] + [e] + t[k..];
    forall i, j | 0 <= i < j < |r| ensures r[i].score >= r[j].score {
      if j < k {
        assert t[i].score >= t[j].score;
      } else if j > k && i < k {
        assert t[i].score >= t[j - 1].score;
      } else if i > k {
        assert t[i - 1].score >= t[j - 1].score;
      }
    }
  }

  /** The sorted list is descending. */
  lemma {:induction false} SortDescending(s: seq<Entry>)
    ensures Descending(SortDesc(s))
    decreases |s|
  {
    if s != [] {
      SortDescending(s[..|s| - 1]);
      InsertDescending(s[|s| - 1], SortDesc(s[..|s| - 1]));
    }
  }

  /** The end index `slice(0, end)` uses: a negative end counts from the
      back, and the result is clamped to the list. */
  function SliceEnd(len: nat, end: int): (k: nat)
    ensures k <= len
  {
    if end >= 0 then (if end < len then end else len)
    else if len + end > 0 then len + end else 0
  }

  /** `getLocalTopScores(limit)`: the stored list sorted by descending
      score, cut to `limit` entries. */
  function LocalTopScores(stored: seq<Entry>, limit: int): (r: seq<Entry>)
    ensures limit >= 0 ==> |r| == Min(limit, |stored|)
    ensures |r| <= |stored|
    ensures Descending(r)
    ensures multiset(r) <= multiset(stored)
  {
    var sorted := SortDesc(stored);
    var k := SliceEnd(|sorted|, limit);
    SortDescending(stored);
    assert sorted == sorted[..k] + sorted[k..];
    sorted[..k]
  }

  /** `saveLocalScore`: the stored list with the new entry, sorted and
      cut to `KeepLocal` entries. */
  function SaveLocal(stored: seq<Entry>, e: Entry): (r: seq<Entry>)
    ensures |r| == Min(|stored| + 1, KeepLocal)
    ensures |r| <= KeepLocal
    ensures Descending(r)
    ensures multiset(r) <= multiset(stored + [e])
  {
    var sorted := SortDesc(stored + [e]);
    var k := Min(|sorted|, KeepLocal);
    SortDescending(stored + [e]);
    assert sorted == sorted[..k] + sorted[k..];
    sorted[..k]
  }

  lemma {:induction false} CountAppend(a: seq<Entry>, b: seq<Entry>, s: int)
    ensures CountAtLeast(a + b, s) == CountAtLeast(a, s) + CountAtLeast(b, s)
    decreases |a|
  {
    if a == [] {
      assert a + b == b;
    } else {
      assert (a + b)[0] == a[0];
      assert (a + b)[1..] == a[1..] + b;
      CountAppend(a[1..], b, s);
    }
  }

  lemma {:induction false} CountInsert(e: Entry, t: seq<Entry>, s: int)
    ensures CountAtLeast(Insert(e, t), s) == CountAtLeast(t, s) + (if e.score >= s then 1 else 0)
    decreases |t|
  {
    if t != [] && t[0].score >= e.score {
      CountInsert(e, t[1..], s);
      assert ([t[0]] + Insert(e, t[1..]))[1..] == Insert(e, t[1..]);
    } else if t != [] {
      assert ([e] + t)[1..] == t;
    }
  }

  lemma CountDropLast(t: seq<Entry>, s: int)
    requires t != []
    ensures CountAtLeast(t, s) == CountAtLeast(t[..|t| - 1], s) + (if t[|t| - 1].score >= s then 1 else 0)
  {
    var init, last := t[..|t| - 1], t[|t| - 1];
    assert t == init + [last];
    CountAppend(init, [last], s);
    assert [last][1..] == [];
  }

  /** Sorting moves entries around but keeps how many reach a score. */
  lemma {:induction false} CountSort(t: seq<Entry>, s: int)
    ensures CountAtLeast(SortDesc(t), s) == CountAtLeast(t, s)
    decreases |t|
  {
    if t != [] {
      var init, last := t[..|t| - 1], t[|t| - 1];
      var sortedInit := SortDesc(init);
      assert SortDesc(t) == Insert(last, sortedInit);
      CountSort(init, s);
      CountInsert(last, sortedInit, s);
      CountDropLast(t, s);
    }
  }

  /** The first `n` entries of a descending list score at least as much
      as every entry left behind. */
  lemma PrefixIsHighest(t: seq<Entry>, n: nat)
    requires Descending(t) && n <= |t|
    ensures forall x, y :: x in t[..n] && y in multiset(t) - multiset(t[..n]) ==> x.score >= y.score
  {
    assert t == t[..n] + t[n..];
    assert multiset(t) - multiset(t[..n]) == multiset(t[n..]);
    forall x, y | x in t[..n] && y in multiset(t[n..]) ensures x.score >= y.score {
      var i :| 0 <= i < n && t[..n][i] == x;
      var j :| 0 <= j < |t[n..]| && t[n..][j] == y;
      assert t[i] == x && t[n + j] == y;
    }
  }

  /** The top-N view holds the highest scores of the stored list. */
  lemma TopScoresAreHighest(stored: seq<Entry>, limit: int)
    ensures var r := LocalTopScores(stored, limit);
      forall x, y :: x in r && y in multiset(stored) - multiset(r) ==> x.score >= y.score
  {
    var sorted := SortDesc(stored);
    SortDescending(stored);
    PrefixIsHighest(sorted, SliceEnd(|sorted|, limit));
  }

  /** Saving keeps the `KeepLocal` highest of the old list plus the new entry. */
  lemma SaveKeepsHighest(stored: seq<Entry>, e: Entry)
    ensures var r := SaveLocal(stored, e);
      forall x, y :: x in r && y in multiset(stored + [e]) - multiset(r) ==> x.score >= y.score
  {
    var sorted := SortDesc(stored + [e]);
    SortDescending(stored + [e]);
    PrefixIsHighest(sorted, Min(|sorted|, KeepLocal));
  }

  /** Saving inserts the new entry into the sorted old list, right
      behind the entries that reach its score, and cuts the result. */
  lemma SaveIsInsertion(stored: seq<Entry>, e: Entry)
    ensures var t := SortDesc(stored);
      var k := CountAtLeast(stored, e.score);
      k <= |t| && SaveLocal(stored, e) == (t[..k] + [e] + t[k..])[..Min(|stored| + 1, KeepLocal)]
  {
    var t := SortDesc(stored);
    SortAppend(stored, e);
    CountSort(stored, e.score);
    SortDescending(stored);
    InsertPosition(e, t);
  }

  /** When fewer than `KeepLocal` stored entries score at least as much
      as the new entry, it is kept, right behind exactly those entries. */
  lemma SaveKeepsNewEntry(stored: seq<Entry>, e: Entry)
    requires CountAtLeast(stored, e.score) < KeepLocal
    ensures var k := CountAtLeast(stored, e.score);
      var r := SaveLocal(stored, e);
      k < |r| && r[k] == e && r[..k] == SortDesc(stored)[..k]
  {
    var t := SortDesc(stored);
    var k := CountAtLeast(stored, e.score);
    SaveIsInsertion(stored, e);
    InsertionPrefix(t, e, k, Min(|stored| + 1, KeepLocal));
  }

  lemma InsertionPrefix(t: seq<Entry>, e: Entry, k: nat, m: nat)
    requires k < m <= |t| + 1
    ensures var r := (t[..k] + [e] + t[k..])[..m];
      k < |r| && r[k] == e && r[..k] == t[..k]
  {
    var ins := t[..k] + [e] + t[k..];
    assert ins[..m][..k] == ins[..k];
    assert ins[..k] == t[..k];
  }

  /** Otherwise the new entry is dropped and the list is the old top
      `KeepLocal`. */
  lemma SaveDropsNewEntry(stored: seq<Entry>, e: Entry)
    requires CountAtLeast(stored, e.score) >= KeepLocal
    ensures SaveLocal(stored, e) == SortDesc(stored)[..KeepLocal]
  {
    var t := SortDesc(stored);
    var k := CountAtLeast(stored, e.score);
    SaveIsInsertion(stored, e);
    PrefixBeforeInsertion(t, e, k, KeepLocal);
  }

  /** Where the new entry ends up: when fewer than `KeepLocal` stored
      entries score at least as much as it, it is kept, at that position,
      behind exactly those entries; otherwise it is dropped and the list
      is the old top `KeepLocal`. */
  lemma SavePlacesNewEntry(stored: seq<Entry>, e: Entry)
    ensures var k := CountAtLeast(stored, e.score);
      var r := SaveLocal(stored, e);
      && (k < KeepLocal ==> k < |r| && r[k] == e && r[..k] == SortDesc(stored)[..k])
      && (k >= KeepLocal ==> r == SortDesc(stored)[..KeepLocal])
  {
    if CountAtLeast(stored, e.score) < KeepLocal {
      SaveKeepsNewEntry(stored, e);
    } else {
      SaveDropsNewEntry(stored, e);
    }
  }

  lemma PrefixBeforeInsertion(t: seq<Entry>, e: Entry, k: nat, n: nat)
    requires n <= k <= |t|
    ensures (t[..k] + [e] + t[k..])[..n] == t[..n]
  {
    var ins := t[..k] + [e] + t[k..];
    assert |ins[..n]| == |t[..n]|;
    forall i | 0 <= i < n ensures ins[..n][i] == t[..n][i] {
      assert ins[i] == t[..k][i];
    }
  }

  /** Sorting a list with one more entry at the end inserts that entry
      into the sorted list. */
  lemma SortAppend(stored: seq<Entry>, e: Entry)
    ensures SortDesc(stored + [e]) == Insert(e, SortDesc(stored))
  {
    var s := stored + [e];
    assert s[..|s| - 1] == stored;
  }

  /** In a descending list, `findIndex(score <= s)` finds the position
      right after the entries scoring more than `s`. */
  lemma FirstAtMostCountsAbove(t: seq<Entry>, s: int)
    requires Descending(t)
    ensures var k := CountAbove(t, s);
      FirstAtMost(t, s) == if k < |t| then k else -1
  {
    CountSplitsDescending(t, s + 1);
  }

  /** `findIndex(entry => entry.score <= s)`. */
  function FirstAtMost(t: seq<Entry>, s: int): (r: int)
    ensures -1 <= r < |t|
    ensures r == -1 <==> forall j :: 0 <= j < |t| ==> t[j].score > s
    ensures r >= 0 ==> t[r].score <= s && forall j :: 0 <= j < r ==> t[j].score > s
    decreases |t|
  {
    if t == [] then -1
    else if t[0].score <= s then 0
    else
      var k := FirstAtMost(t[1..], s);
      assert forall j :: 0 < j < |t| ==> t[j] == t[1..][j - 1];
      if k == -1 then -1 else k + 1
  }

  /** The offline branch of `getPlayerRank`: one more than the index of
      the first of the top `RankWindow` entries that `s` reaches, or one
      past the end when it reaches none. */
  function OfflineRank(stored: seq<Entry>, s: int): (r: int)
    ensures 1 <= r <= Min(|stored|, RankWindow) + 1
  {
    var top := LocalTopScores(stored, RankWindow);
    var rank := FirstAtMost(top, s) + 1;
    if rank != 0 then rank else |top| + 1
  }

  /** The online branch's `(count || 0) + 1`: a missing count and a zero
      count both rank first, and no count of higher scores gives a rank below 1. */
  function OnlineRank(count: Option<int>): (r: int)
    ensures count.None? || count.value >= 0 ==> r >= 1
    ensures count.None? || count == Some(0) ==> r == 1
  {
    (if count.Some? then count.value else 0) + 1
  }

  /** What the store answers to the rank query. */
  datatype RankReply = RankCount(count: Option<int>) | RankFailed

  /** `getPlayerRank`: offline it ranks locally and always answers; online
      it answers `(count || 0) + 1`, or nothing when the query fails. */
  function PlayerRank(online: bool, stored: seq<Entry>, s: int, reply: RankReply): (r: Option<int>)
    ensures !online ==> r.Some? && 1 <= r.value <= Min(|stored|, RankWindow) + 1
    ensures online && reply.RankFailed? ==> r.None?
    ensures online && reply == RankCount(None) ==> r == Some(1)
    ensures online && reply.RankCount? && reply.count.Some? ==> r == Some(reply.count.value + 1)
  {
    if !online then Some(OfflineRank(stored, s))
    else match reply
      case RankFailed => None
      case RankCount(count) => Some(OnlineRank(count))
  }

  /** The offline rank is the online formula applied to the top list:
      one more than the number of its entries that score more than `s`. */
  lemma OfflineRankCountsHigher(stored: seq<Entry>, s: int)
    ensures var top := LocalTopScores(stored, RankWindow);
      OfflineRank(stored, s) == CountAbove(top, s) + 1 == OnlineRank(Some(CountAbove(top, s)))
  {
    FirstAtMostCountsAbove(LocalTopScores(stored, RankWindow), s);
  }

  /** With at most `RankWindow` stored entries (saving keeps 50), the
      offline rank is one more than the number of stored entries that
      score more than `s`. */
  lemma OfflineRankOfSmallList(stored: seq<Entry>, s: int)
    requires |stored| <= RankWindow
    ensures OfflineRank(stored, s) == CountAbove(stored, s) + 1
  {
    OfflineRankCountsHigher(stored, s);
    CountSort(stored, s + 1);
    assert LocalTopScores(stored, RankWindow) == SortDesc(stored);
  }

  /** The characters `String.prototype.trim` removes: white space and
      line terminators. */
  predicate IsWhitespace(c: char): (r: bool)
    ensures r ==> c <= '\U{FFFF}'
    ensures '0' <= c <= '9' || 'A' <= c <= 'Z' || 'a' <= c <= 'z' ==> !r
  {
    || c == '\t' || c == '\n' || c == '\U{000B}' || c == '\U{000C}' || c == '\r' || c == ' '
    || c == '\U{00A0}' || c == '\U{1680}' || ('\U{2000}' <= c <= '\U{200A}')
    || c == '\U{2028}' || c == '\U{2029}' || c == '\U{202F}' || c == '\U{205F}'
    || c == '\U{3000}' || c == '\U{FEFF}'
  }

  /** Where the leading white space of `s[i..]` ends. */
  function LeadEnd(s: string, i: nat): (r: nat)
    requires i <= |s|
    ensures i <= r <= |s|
    ensures forall k :: i <= k < r ==> IsWhitespace(s[k])
    ensures r < |s| ==> !IsWhitespace(s[r])
    decreases |s| - i
  {
    if i < |s| && IsWhitespace(s[i]) then LeadEnd(s, i + 1) else i
  }

  /** Where the trailing white space of `s[lo..j]` starts. */
  function TrailStart(s: string, lo: nat, j: nat): (r: nat)
    requires lo <= j <= |s|
    ensures lo <= r <= j
    ensures forall k :: r <= k < j ==> IsWhitespace(s[k])
    ensures lo < r ==> !IsWhitespace(s[r - 1])
    decreases j
  {
    if lo < j && IsWhitespace(s[j - 1]) then TrailStart(s, lo, j - 1) else j
  }

  /** `String.prototype.trim`: `s` without its leading and trailing
      white space. */
  function Trim(s: string): (r: string)
    ensures |r| <= |s|
    ensures r == [] || (!IsWhitespace(r[0]) && !IsWhitespace(r[|r| - 1]))
  {
    var i := LeadEnd(s, 0);
    s[i..TrailStart(s, i, |s|)]
  }

  /** Trimming cuts only white space, and only from the two ends. */
  lemma TrimCutsOnlyWhitespace(s: string)
    ensures exists i, j :: (0 <= i <= j <= |s| && Trim(s) == s[i..j]
      && (forall k :: 0 <= k < i ==> IsWhitespace(s[k]))
      && (forall k :: j <= k < |s| ==> IsWhitespace(s[k])))
  {
    var i := LeadEnd(s, 0);
    var j := TrailStart(s, i, |s|);
    assert Trim(s) == s[i..j];
  }

  /** Trimming twice changes nothing more. */
  lemma TrimIdempotent(s: string)
    ensures Trim(Trim(s)) == Trim(s)
  {
    var t := Trim(s);
    if t != [] {
      assert LeadEnd(t, 0) == 0;
      assert TrailStart(t, 0, |t|) == |t|;
    }
  }

  /** JavaScript's `length` of a string: its UTF-16 code units, two for
      a character outside the Basic Multilingual Plane. */
  function Utf16Length(s: string): (n: nat)
    ensures |s| <= n <= 2 * |s|
    ensures (forall k :: 0 <= k < |s| ==> s[k] <= '\U{FFFF}') ==> n == |s|
  {
    if s == [] then 0 else (if s[0] > '\U{FFFF}' then 2 else 1) + Utf16Length(s[1..])
  }

  /** The name `saveName` accepts: the trimmed input, when its `length`
      is at least `MinNameLength`. */
  function AcceptedName(input: string): (r: Option<string>)
    ensures r.Some? <==> Utf16Length(Trim(input)) >= MinNameLength
    ensures r.Some? ==> r.value == Trim(input) && r.value != []
    ensures |Trim(input)| >= MinNameLength ==> r.Some?
    ensures r.Some? ==> !IsWhitespace(r.value[0]) && !IsWhitespace(r.value[|r.value| - 1])
  {
    var newName := Trim(input);
    if newName != [] && Utf16Length(newName) >= MinNameLength then Some(newName) else None
  }

  /** A single character outside the Basic Multilingual Plane has a
      `length` of two, so it is a valid name on its own. */
  lemma AstralCharacterIsAName()
    ensures AcceptedName("\U{1F3AE}") == Some("\U{1F3AE}")
  {
    var s := "\U{1F3AE}";
    assert LeadEnd(s, 0) == 0;
    assert TrailStart(s, 0, 1) == 1;
    assert Trim(s) == s;
    assert Utf16Length(s) == 2;
  }

  datatype Scope = Global | Local

  /** One line of the leaderboard panel: rank, name and score. */
  datatype PanelLine = PanelLine(rank: nat, playerName: string, score: int)

  /** What `updateLeaderboardUI` shows for `scores`. `topScore` is
      computed by the source though the panel does not print it. */
  datatype Panel = Panel(scope: Scope, lines: seq<PanelLine>, topScore: int, noScoresNote: bool)

  function LeaderboardPanel(online: bool, scores: seq<Entry>): (p: Panel)
    ensures |p.lines| == Min(|scores|, PanelSize) && |p.lines| <= PanelSize
    ensures forall i :: 0 <= i < |p.lines| ==>
      p.lines[i] == PanelLine(i + 1, scores[i].playerName, scores[i].score)
    ensures p.topScore == if |scores| > 0 then scores[0].score else 0
    ensures p.noScoresNote <==> |scores| == 0
    ensures p.scope == if online then Global else Local
  {
    var top := scores[..Min(|scores|, PanelSize)];
    Panel(if online then Global else Local,
          seq(|top|, i requires 0 <= i < |top| => PanelLine(i + 1, top[i].playerName, top[i].score)),
          if |scores| > 0 then scores[0].score else 0,
          |scores| == 0)
  }

  /** On a descending list (what the panel is given) `topScore` is the
      highest score shown or stored, and 0 for an empty list. */
  lemma TopScoreIsHighest(online: bool, scores: seq<Entry>)
    requires Descending(scores)
    ensures var p := LeaderboardPanel(online, scores);
      (forall k :: 0 <= k < |scores| ==> p.topScore >= scores[k].score)
      && (forall i :: 0 <= i < |p.lines| ==> p.topScore >= p.lines[i].score)
      && (scores == [] ==> p.topScore == 0)
  {
  }

  /** What the store answers to the connection test query. */
  datatype ConnectionReply = Reachable | Unreachable

  /** What the store answers to an insert. */
  datatype InsertReply = Inserted | InsertFailed

  /** The leaderboard manager's state: the connection flags, the player
      name, the browser-storage copies of the name and the local list,
      and the rows handed to the external store. */
  class LeaderboardManager {
    var isOnline: bool
    /** Whether a store client was created (`this.supabase` is set). */
    var hasClient: bool
    var playerName: string
    /** The `playerName` storage key. */
    var storedName: string
    /** The `localLeaderboard` storage key. */
    var localScores: seq<Entry>
    /** Rows the external store has accepted from this manager. */
    var remoteRows: seq<Row>

    /** A manager in offline mode with the name it found or generated,
        before `Init` connects it to the store. */
    constructor (name: string, stored: seq<Entry>)
      ensures !isOnline && !hasClient
      ensures playerName == name && storedName == name
      ensures localScores == stored && remoteRows == []
    {
      isOnline, hasClient := false, false;
      playerName, storedName := name, name;
      localScores, remoteRows := stored, [];
    }

    /** `testConnection`: a one-row query against the leaderboard table.
        The manager is online exactly when the query succeeds; without a
        store client the query throws, which also counts as failure. */
    method TestConnection(test: ConnectionReply)
      modifies this`isOnline
      ensures isOnline == (hasClient && test.Reachable?)
    {
      if hasClient && test.Reachable? {
        isOnline := true;
      } else {
        isOnline := false;
      }
    }

    /** `init`: when the store library, its URL and its key are all
        configured, a store client is created and the connection test
        decides whether the manager goes online; otherwise it stays
        offline. */
    method Init(configured: bool, test: ConnectionReply)
      modifies this`isOnline, this`hasClient
      ensures hasClient == (old(hasClient) || configured)
      ensures configured ==> isOnline == test.Reachable?
      ensures !configured ==> !isOnline
    {
      if configured {
        hasClient := true;
        TestConnection(test);
      } else {
        isOnline := false;
      }
    }

    /** `saveName` with the modal's input (None when the input element is
        missing). */
    method SaveName(input: Option<string>)
      modifies this
      ensures input.Some? && AcceptedName(input.value).Some? ==>
        playerName == AcceptedName(input.value).value && storedName == playerName
      ensures !(input.Some? && AcceptedName(input.value).Some?) ==>
        playerName == old(playerName) && storedName == old(storedName)
      ensures isOnline == old(isOnline) && hasClient == old(hasClient)
      ensures localScores == old(localScores) && remoteRows == old(remoteRows)
    {
      if input.Some? {
        var newName := Trim(input.value);
        if newName != [] && Utf16Length(newName) >= MinNameLength {
          playerName := newName;
          storedName := newName;
        }
      }
    }

    /** `saveLocalScore(score)`; `createdAt` is the clock's timestamp. */
    method SaveLocalScore(score: int, createdAt: string)
      modifies this
      ensures localScores == SaveLocal(old(localScores), Entry(old(playerName), score, createdAt))
      ensures |localScores| <= KeepLocal && Descending(localScores)
      ensures isOnline == old(isOnline) && hasClient == old(hasClient)
      ensures playerName == old(playerName) && storedName == old(storedName)
      ensures remoteRows == old(remoteRows)
    {
      var list := localScores;
      list := list + [Entry(playerName, score, createdAt)];
      list := SortDesc(list);
      var trimmed := list[..Min(|list|, KeepLocal)];
      localScores := trimmed;
    }

    /** `submitScore(score)`: offline it reports failure and leaves the
        store alone; online the store's answer decides. */
    method SubmitScore(score: int, reply: InsertReply) returns (ok: bool)
      modifies this
      ensures !old(isOnline) || !old(hasClient) ==> !ok
      ensures ok <==> old(isOnline) && old(hasClient) && reply.Inserted?
      ensures remoteRows == if ok then old(remoteRows) + [Row(old(playerName), score)] else old(remoteRows)
      ensures isOnline == old(isOnline) && hasClient == old(hasClient)
      ensures playerName == old(playerName) && storedName == old(storedName)
      ensures localScores == old(localScores)
    {
      if !isOnline || !hasClient {
        return false;
      }
      if reply.Inserted? {
        remoteRows := remoteRows + [Row(playerName, score)];
        ok := true;
      } else {
        ok := false;
      }
    }
  }
}
