/** The high-score table kept when a game ends (saveHighScore in
    src/components/GameOverlay.tsx:13-39): a duplicate of a score saved less
    than a minute ago is ignored; otherwise the new entry is appended, the list
    is sorted by score, highest first, and cut to five entries. The stored list
    is a parameter and the new list a result; dates are milliseconds. */
module HighScores {
  import opened Geometry

  datatype Entry = Entry(score: int, date: int)

  /** The outcome of a save: whether the table was written, and the table as
      stored afterwards. */
  datatype SaveResult = SaveResult(written: bool, scores: seq<Entry>)

  /** How long a saved score suppresses an equal one, in milliseconds. */
  const DuplicateWindow: int := 60000
  const MaxScores: nat := 5

  predicate IsRecent(e: Entry, score: int, now: int)
  {
    e.score == score && now - e.date < DuplicateWindow
  }

  /** Whether the table already holds this score, saved less than a minute
      before `now` (the source's `some`). */
  function IsRecentDuplicate(stored: seq<Entry>, score: int, now: int): (r: bool)
    ensures r <==> exists i :: 0 <= i < |stored| && IsRecent(stored[i], score, now)
    decreases |stored|
  {
    if stored == [] then false
    else if IsRecent(stored[0], score, now) then true
    else
      var r := IsRecentDuplicate(stored[1..], score, now);
      assert forall i :: 1 <= i < |stored| ==> stored[i] == stored[1..][i - 1];
      r
  }

  /** Highest score first. */
  predicate NonIncreasing(s: seq<Entry>)
  {
    forall i, j :: 0 <= i < j < |s| ==> s[i].score >= s[j].score
  }

  /** Places x after every leading entry scoring at least as much, so an entry
      inserted later stays behind equal scores. */
  function Insert(s: seq<Entry>, x: Entry): (r: seq<Entry>)
    ensures |r| == |s| + 1
    decreases |s|
  {
    if s == [] then [x]
    else if s[0].score >= x.score then [s[0]] + Insert(s[1..], x)
    else [x] + s
  }

  /** The stable sort by descending score (the source's
      `sort((a, b) => b.score - a.score)`; the language's sort is stable). */
  function SortDesc(s: seq<Entry>): (r: seq<Entry>)
    ensures |r| == |s|
    decreases |s|
  {
    if s == [] then [] else Insert(SortDesc(s[..|s| - 1]), s[|s| - 1])
  }

  function Take(s: seq<Entry>, n: nat): (r: seq<Entry>)
    ensures |r| == MinI(n, |s|) && r == s[..|r|]
  {
    if |s| <= n then s else s[..n]
  }

  /** Inserting adds exactly x. */
  lemma {:induction false} InsertPerm(s: seq<Entry>, x: Entry)
    ensures multiset(Insert(s, x)) == multiset(s) + multiset{x}
    decreases |s|
  {
    if s != [] && s[0].score >= x.score {
      InsertPerm(s[1..], x);
      assert s == [s[0]] + s[1..];
    }
  }

  /** Inserting below a bound that holds for the list and for x keeps it. */
  lemma {:induction false} InsertBelow(s: seq<Entry>, x: Entry, bound: int)
    requires forall i :: 0 <= i < |s| ==> s[i].score <= bound
    requires x.score <= bound
    ensures forall i :: 0 <= i < |Insert(s, x)| ==> Insert(s, x)[i].score <= bound
    decreases |s|
  {
    if s != [] && s[0].score >= x.score {
      InsertBelow(s[1..], x, bound);
    }
  }

  /** Inserting into a sorted list keeps it sorted. */
  lemma {:induction false} InsertSorted(s: seq<Entry>, x: Entry)
    requires NonIncreasing(s)
    ensures NonIncreasing(Insert(s, x))
    decreases |s|
  {
    if s != [] && s[0].score >= x.score {
      var rest := Insert(s[1..], x);
      InsertSorted(s[1..], x);
      InsertBelow(s[1..], x, s[0].score);
      var r := [s[0]] + rest;
      forall i, j | 0 <= i < j < |r|
        ensures r[i].score >= r[j].score
      {
        assert r[j] == rest[j - 1];
        if i > 0 {
          assert r[i] == rest[i - 1];
        }
      }
    }
  }

  lemma InsertFacts(s: seq<Entry>, x: Entry)
    requires NonIncreasing(s)
    ensures NonIncreasing(Insert(s, x))
    ensures multiset(Insert(s, x)) == multiset(s) + multiset{x}
  {
    InsertPerm(s, x);
    InsertSorted(s, x);
  }

  /** The sort orders by descending score and only rearranges its input. */
  lemma {:induction false} SortDescFacts(s: seq<Entry>)
    ensures NonIncreasing(SortDesc(s))
    ensures multiset(SortDesc(s)) == multiset(s)
    ensures |SortDesc(s)| == |s|
    decreases |s|
  {
    if s != [] {
      var init := s[..|s| - 1];
      SortDescFacts(init);
      InsertFacts(SortDesc(init), s[|s| - 1]);
      assert s == init + [s[|s| - 1]];
      assert |multiset(SortDesc(s))| == |s|;
    }
  }

  /** An entry scoring no more than every entry of the list goes to its end. */
  lemma {:induction false} InsertLast(s: seq<Entry>, x: Entry)
    requires forall i :: 0 <= i < |s| ==> s[i].score >= x.score
    ensures Insert(s, x) == s + [x]
    decreases |s|
  {
    if s != [] {
      InsertLast(s[1..], x);
      assert s == [s[0]] + s[1..];
    }
  }

  /** Sorting an already sorted list changes nothing. */
  lemma {:induction false} SortDescSorted(s: seq<Entry>)
    requires NonIncreasing(s)
    ensures SortDesc(s) == s
    decreases |s|
  {
    if s != [] {
      var init := s[..|s| - 1];
      SortDescSorted(init);
      InsertLast(init, s[|s| - 1]);
      assert init + [s[|s| - 1]] == s;
    }
  }

  /** The entries scoring v, in their order in s. */
  function WithScore(s: seq<Entry>, v: int): seq<Entry>
    decreases |s|
  {
    if s == [] then []
    else (if s[0].score == v then [s[0]] else []) + WithScore(s[1..], v)
  }

  lemma {:induction false} WithScoreAppend(a: seq<Entry>, b: seq<Entry>, v: int)
    ensures WithScore(a + b, v) == WithScore(a, v) + WithScore(b, v)
    decreases |a|
  {
    if a == [] {
      assert a + b == b;
    } else {
      var head := if a[0].score == v then [a[0]] else [];
      assert (a + b)[0] == a[0];
      assert (a + b)[1..] == a[1..] + b;
      WithScoreAppend(a[1..], b, v);
      assert WithScore(a + b, v) == head + WithScore(a[1..] + b, v);
      assert WithScore(a, v) == head + WithScore(a[1..], v);
      assert head + (WithScore(a[1..], v) + WithScore(b, v)) == (head + WithScore(a[1..], v)) + WithScore(b, v);
    }
  }

  lemma {:induction false} WithScoreNone(s: seq<Entry>, v: int)
    requires forall i :: 0 <= i < |s| ==> s[i].score < v
    ensures WithScore(s, v) == []
    decreases |s|
  {
    if s != [] {
      WithScoreNone(s[1..], v);
    }
  }

  /** Inserting into a sorted list puts x behind the entries already scoring
      the same. */
  lemma {:induction false} InsertStable(s: seq<Entry>, x: Entry, v: int)
    requires NonIncreasing(s)
    ensures WithScore(Insert(s, x), v) == WithScore(s, v) + (if x.score == v then [x] else [])
    decreases |s|
  {
    if s == [] {
    } else if s[0].score >= x.score {
      var rest := Insert(s[1..], x);
      var head := if s[0].score == v then [s[0]] else [];
      assert NonIncreasing(s[1..]);
      InsertStable(s[1..], x, v);
      assert Insert(s, x) == [s[0]] + rest;
      assert ([s[0]] + rest)[1..] == rest;
      assert WithScore([s[0]] + rest, v) == head + WithScore(rest, v);
      assert WithScore(s, v) == head + WithScore(s[1..], v);
    } else {
      assert Insert(s, x) == [x] + s;
      assert ([x] + s)[1..] == s;
      if x.score == v {
        assert forall i :: 0 <= i < |s| ==> s[i].score <= s[0].score;
        WithScoreNone(s, v);
      }
    }
  }

  /** The sort is stable: the entries of any one score keep their input order
      (an entry saved later stays behind earlier equal scores). */
  lemma {:induction false} SortDescStable(s: seq<Entry>, v: int)
    ensures WithScore(SortDesc(s), v) == WithScore(s, v)
    decreases |s|
  {
    if s != [] {
      var init := s[..|s| - 1];
      SortDescStable(init, v);
      SortDescFacts(init);
      InsertStable(SortDesc(init), s[|s| - 1], v);
      assert s == init + [s[|s| - 1]];
      WithScoreAppend(init, [s[|s| - 1]], v);
      assert [s[|s| - 1]][1..] == [];
    }
  }

  /** A save at time `now`: nothing is written when the same score was saved
      less than a minute ago; otherwise the table becomes the new entry
      (dated `now`) merged in by score, cut to five entries. */
  function SaveHighScore(stored: seq<Entry>, score: int, now: int): (r: SaveResult)
    ensures r.written <==> !IsRecentDuplicate(stored, score, now)
    ensures !r.written ==> r.scores == stored
    ensures r.written ==> |r.scores| == MinI(MaxScores, |stored| + 1)
    ensures r.written ==> NonIncreasing(r.scores)
    ensures r.written ==> multiset(r.scores) <= multiset(stored) + multiset{Entry(score, now)}
  {
    if IsRecentDuplicate(stored, score, now) then SaveResult(false, stored)
    else
      var all := stored + [Entry(score, now)];
      var sorted := SortDesc(all);
      SortDescFacts(all);
      var top := Take(sorted, MaxScores);
      assert multiset(sorted) == multiset(top) + multiset(sorted[|top|..]) by {
        assert sorted == top + sorted[|top|..];
      }
      SaveResult(true, top)
  }

  /** What a cut removes from a list. */
  lemma CutMultiset(t: seq<Entry>, n: nat)
    requires n <= |t|
    ensures multiset(t) - multiset(t[..n]) == multiset(t[n..])
  {
    assert t == t[..n] + t[n..];
  }

  /** In a sorted list, entries behind position n score no more than those
      before it. */
  lemma SortedCut(t: seq<Entry>, n: nat)
    requires NonIncreasing(t) && n <= |t|
    ensures forall e: Entry, k: Entry :: e in t[n..] && k in t[..n] ==> e.score <= k.score
  {
    forall e: Entry, k: Entry | e in t[n..] && k in t[..n]
      ensures e.score <= k.score
    {
      var a :| 0 <= a < |t[n..]| && t[n..][a] == e;
      var b :| 0 <= b < n && t[..n][b] == k;
      assert t[b] == k && t[n + a] == e;
    }
  }

  /** The kept entries are the best ones: every entry that was cut scores no
      more than any kept entry, and with fewer than five entries before, nothing
      is cut and the new entry is kept. */
  lemma SaveKeepsBest(stored: seq<Entry>, score: int, now: int)
    requires !IsRecentDuplicate(stored, score, now)
    ensures var r := SaveHighScore(stored, score, now);
      && (forall e: Entry, k: Entry :: e in multiset(stored + [Entry(score, now)]) - multiset(r.scores) && k in r.scores ==>
            e.score <= k.score)
      && (|stored| < MaxScores ==> multiset(r.scores) == multiset(stored) + multiset{Entry(score, now)})
  {
    var all := stored + [Entry(score, now)];
    var sorted := SortDesc(all);
    SortDescFacts(all);
    var top := SaveHighScore(stored, score, now).scores;
    assert top == sorted[..|top|];
    CutMultiset(sorted, |top|);
    SortedCut(sorted, |top|);
    forall e: Entry | e in multiset(all) - multiset(top)
      ensures e in sorted[|top|..]
    {
    }
  }

  /** Saving the same score twice, the second time less than a minute after a
      first save that was written, leaves the table as the first save left it:
      either the first entry is still there and suppresses the second, or it
      was cut because five entries score at least as much, and the second
      entry is sorted behind them and cut as well. */
  lemma SaveTwiceSameAsOnce(stored: seq<Entry>, score: int, now1: int, now2: int)
    requires SaveHighScore(stored, score, now1).written
    requires now2 - now1 < DuplicateWindow
    ensures var once := SaveHighScore(stored, score, now1).scores;
      SaveHighScore(once, score, now2).scores == once
  {
    var once := SaveHighScore(stored, score, now1).scores;
    var first := Entry(score, now1);
    if first in once {
      var i :| 0 <= i < |once| && once[i] == first;
      assert IsRecent(once[i], score, now2);
    } else if !IsRecentDuplicate(once, score, now2) {
      var all := stored + [first];
      SortDescFacts(all);
      SaveKeepsBest(stored, score, now1);
      assert first in multiset(all) - multiset(once) by {
        assert all[|all| - 1] == first;
        assert first in multiset(all);
        assert multiset(once)[first] == 0;
      }
      assert |once| == MaxScores;
      forall i | 0 <= i < |once|
        ensures once[i].score >= score
      {
        assert once[i] in once;
      }
      var second := Entry(score, now2);
      SortDescSorted(once);
      assert once + [second] == (once + [second])[..|once|] + [second];
      assert (once + [second])[..|once|] == once;
      InsertLast(once, second);
      assert SortDesc(once + [second]) == once + [second];
    }
  }

  /** A first save below five higher scores is written but cut at once; the
      second save of the same score is then written again, to the same table. */
  lemma CutEntryExample()
    ensures var stored := [Entry(50, 0), Entry(40, 0), Entry(30, 0), Entry(20, 0), Entry(10, 0)];
      var once := SaveHighScore(stored, 5, 1000);
      && once.written && once.scores == stored
      && SaveHighScore(once.scores, 5, 2000).written
      && SaveHighScore(once.scores, 5, 2000).scores == stored
  {
    var stored := [Entry(50, 0), Entry(40, 0), Entry(30, 0), Entry(20, 0), Entry(10, 0)];
    assert !IsRecentDuplicate(stored, 5, 1000) && !IsRecentDuplicate(stored, 5, 2000);
    SortDescSorted(stored);
    AppendLowest(stored, Entry(5, 1000));
    AppendLowest(stored, Entry(5, 2000));
  }

  /** Appending an entry scoring no more than any entry of a sorted list of five
      leaves the top five as they were. */
  lemma AppendLowest(s: seq<Entry>, x: Entry)
    requires |s| == MaxScores && NonIncreasing(s) && SortDesc(s) == s
    requires forall i :: 0 <= i < |s| ==> s[i].score >= x.score
    ensures Take(SortDesc(s + [x]), MaxScores) == s
  {
    assert (s + [x])[..|s|] == s;
    InsertLast(s, x);
  }
}
