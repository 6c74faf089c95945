/** The high-score ledger of js/ui.js: reading the stored list with its
    fallback to an empty list, and saving a finished race into the top ten
    by score. The browser's storage is a parameter and the saved list is
    returned rather than written. */
module HighScores {
  /** How many entries the ledger keeps. */
  const Capacity: nat := 10

  /** One ledger entry: `{score, time, position, date, name}`. */
  datatype ScoreEntry = ScoreEntry(score: int, time: real, position: int, date: string, name: string)

  /** What storage holds under the ledger's key: nothing, text that does
      not parse, or a parsed list. */
  datatype Storage = Missing | Unparsable | Stored(entries: seq<ScoreEntry>)

  /** UI.getHighScores. */
  function GetHighScores(storage: Storage): (r: seq<ScoreEntry>)
    ensures storage.Missing? || storage.Unparsable? ==> r == []
    ensures storage.Stored? ==> r == storage.entries
  {
    match storage
    case Missing => []
    case Unparsable => []
    case Stored(entries) => entries
  }

  /** Ordered by non-increasing score, as the comparator `b.score - a.score`
      orders. */
  predicate Sorted(s: seq<ScoreEntry>)
  {
    forall i, j :: 0 <= i < j < |s| ==> s[i].score >= s[j].score
  }

  /** How many entries score at least `v`. */
  function CountAtLeast(s: seq<ScoreEntry>, v: int): (n: nat)
    ensures n <= |s|
  {
    if |s| == 0 then 0
    else CountAtLeast(s[..|s| - 1], v) + (if s[|s| - 1].score >= v then 1 else 0)
  }

  lemma {:induction false} CountAppend(a: seq<ScoreEntry>, b: seq<ScoreEntry>, v: int)
    ensures CountAtLeast(a + b, v) == CountAtLeast(a, v) + CountAtLeast(b, v)
  {
    if |b| > 0 {
      CountAppend(a, b[..|b| - 1], v);
      assert (a + b)[..|a + b| - 1] == a + b[..|b| - 1];
    } else {
      assert a + b == a;
    }
  }

  /** In a sorted list the entries scoring at least `v` are a prefix. */
  lemma {:induction false} SortedCount(s: seq<ScoreEntry>, v: int)
    requires Sorted(s)
    ensures forall i :: 0 <= i < CountAtLeast(s, v) ==> s[i].score >= v
    ensures forall i :: CountAtLeast(s, v) <= i < |s| ==> s[i].score < v
  {
    if |s| > 0 {
      var t := s[..|s| - 1];
      assert Sorted(t);
      SortedCount(t, v);
    }
  }

  /** Insert `e` after every entry scoring at least as much: the step of a
      stable sort that takes the entries in order. */
  function InsertStable(s: seq<ScoreEntry>, e: ScoreEntry): seq<ScoreEntry>
  {
    var k := CountAtLeast(s, e.score);
    s[..k] + [e] + s[k..]
  }

  /** Inserting into a sorted list keeps it sorted and adds exactly `e`,
      right after the entries scoring at least as much. */
  lemma InsertStableFacts(s: seq<ScoreEntry>, e: ScoreEntry)
    requires Sorted(s)
    ensures Sorted(InsertStable(s, e))
    ensures |InsertStable(s, e)| == |s| + 1
    ensures multiset(InsertStable(s, e)) == multiset(s) + multiset{e}
    ensures var k := CountAtLeast(s, e.score);
            var r := InsertStable(s, e);
            r[k] == e && r[..k] == s[..k] && r[k + 1..] == s[k..]
  {
    var k := CountAtLeast(s, e.score);
    var r := InsertStable(s, e);
    SortedCount(s, e.score);
    InsertedSorted(s, e, k, r);
    assert s == s[..k] + s[k..];
    assert r[k + 1..] == s[k..];
  }

  lemma InsertedSorted(s: seq<ScoreEntry>, e: ScoreEntry, k: nat, r: seq<ScoreEntry>)
    requires Sorted(s) && k <= |s|
    requires forall i :: 0 <= i < k ==> s[i].score >= e.score
    requires forall i :: k <= i < |s| ==> s[i].score < e.score
    requires r == s[..k] + [e] + s[k..]
    ensures Sorted(r)
  {
    forall i, j | 0 <= i < j < |r|
      ensures r[i].score >= r[j].score
    {
      if j < k {
        assert r[i] == s[i] && r[j] == s[j];
      } else if j == k {
        assert r[i] == s[i];
      } else if i < k {
        assert r[i] == s[i] && r[j] == s[j - 1];
      } else if i == k {
        assert r[j] == s[j - 1];
      } else {
        assert r[i] == s[i - 1] && r[j] == s[j - 1];
      }
    }
  }

  /** Array.prototype.sort with the comparator `b.score - a.score`: a
      stable sort by non-increasing score, built by inserting the entries
      in order. */
  function SortByScore(s: seq<ScoreEntry>): seq<ScoreEntry>
  {
    if |s| == 0 then [] else InsertStable(SortByScore(s[..|s| - 1]), s[|s| - 1])
  }

  /** The sort orders the list by non-increasing score and is a
      permutation of it. */
  lemma {:induction false} SortFacts(s: seq<ScoreEntry>)
    ensures Sorted(SortByScore(s))
    ensures |SortByScore(s)| == |s|
    ensures multiset(SortByScore(s)) == multiset(s)
  {
    if |s| > 0 {
      var t := s[..|s| - 1];
      SortFacts(t);
      InsertStableFacts(SortByScore(t), s[|s| - 1]);
      assert s == t + [s[|s| - 1]];
    }
  }

  /** Sorting keeps how many entries score at least `v`. */
  lemma {:induction false} SortKeepsCount(s: seq<ScoreEntry>, v: int)
    ensures CountAtLeast(SortByScore(s), v) == CountAtLeast(s, v)
  {
    if |s| > 0 {
      var t := s[..|s| - 1];
      var e := s[|s| - 1];
      SortKeepsCount(t, v);
      var st := SortByScore(t);
      var k := CountAtLeast(st, e.score);
      var r := InsertStable(st, e);
      assert r == st[..k] + [e] + st[k..];
      assert st == st[..k] + st[k..];
      CountAppend(st[..k], st[k..], v);
      CountAppend(st[..k] + [e], st[k..], v);
      CountAppend(st[..k], [e], v);
      assert [e][..0] == [];
    }
  }

  /** Cutting a sorted list after `n` entries drops nothing that scores
      more than a kept entry. */
  lemma TopDominates(r: seq<ScoreEntry>, n: nat)
    requires Sorted(r) && n <= |r|
    ensures forall d :: d in multiset(r) - multiset(r[..n]) ==>
              forall i :: 0 <= i < n ==> d.score <= r[i].score
  {
    assert r == r[..n] + r[n..];
    assert multiset(r) == multiset(r[..n]) + multiset(r[n..]);
    forall d | d in multiset(r) - multiset(r[..n])
      ensures forall i :: 0 <= i < n ==> d.score <= r[i].score
    {
      assert d in r[n..];
      var j :| n <= j < |r| && r[j] == d;
    }
  }

  /** The entry UI.saveHighScore pushes. */
  function NewEntry(score: int, time: real, position: int, date: string): ScoreEntry
  {
    ScoreEntry(score, time, position, date, "Player")
  }

  /** The first ten entries of the sorted list, or all of them when there
      are fewer. */
  function Top(r: seq<ScoreEntry>): seq<ScoreEntry>
  {
    r[..if |r| < Capacity then |r| else Capacity]
  }

  /** The top of a sorted list is sorted, is part of the list, and
      nothing cut off scores more than anything kept. */
  lemma TopFacts(r: seq<ScoreEntry>)
    requires Sorted(r)
    ensures Sorted(Top(r))
    ensures multiset(Top(r)) <= multiset(r)
    ensures forall d :: d in multiset(r) - multiset(Top(r)) ==>
              forall i :: 0 <= i < |Top(r)| ==> d.score <= Top(r)[i].score
  {
    var t := Top(r);
    assert r == t + r[|t|..];
    assert multiset(r) == multiset(t) + multiset(r[|t|..]);
    TopDominates(r, |t|);
  }

  /** Where the pushed entry lands: a stable sort puts it right after the
      old entries scoring at least as much, so it stays in the top ten
      exactly when fewer than ten of them do. */
  lemma NewEntryPlace(before: seq<ScoreEntry>, entry: ScoreEntry)
    ensures CountAtLeast(before, entry.score) < Capacity ==> entry in Top(SortByScore(before + [entry]))
    ensures CountAtLeast(before, entry.score) >= Capacity ==>
              Top(SortByScore(before + [entry])) == Top(SortByScore(before))
  {
    SortAppend(before, entry);
    SortFacts(before);
    SortKeepsCount(before, entry.score);
    PlaceInTop(SortByScore(before), entry);
  }

  /** Sorting a list with one entry pushed at the end inserts that entry
      into the sorted list. */
  lemma SortAppend(before: seq<ScoreEntry>, entry: ScoreEntry)
    ensures SortByScore(before + [entry]) == InsertStable(SortByScore(before), entry)
  {
    var all := before + [entry];
    assert all[..|all| - 1] == before;
  }

  lemma PlaceInTop(sorted: seq<ScoreEntry>, entry: ScoreEntry)
    requires Sorted(sorted)
    ensures CountAtLeast(sorted, entry.score) < Capacity ==> entry in Top(InsertStable(sorted, entry))
    ensures CountAtLeast(sorted, entry.score) >= Capacity ==>
              Top(InsertStable(sorted, entry)) == sorted[..Capacity]
  {
    var k := CountAtLeast(sorted, entry.score);
    var r := InsertStable(sorted, entry);
    InsertStableFacts(sorted, entry);
    var t := Top(r);
    if k < Capacity {
      assert t[k] == entry;
    } else {
      assert t == r[..Capacity];
      assert r[..k] == sorted[..k];
      assert r[..Capacity] == r[..k][..Capacity];
    }
  }

  /** The list UI.saveHighScore stores. */
  function Ledger(storage: Storage, score: int, time: real, position: int, date: string): seq<ScoreEntry>
  {
    Top(SortByScore(GetHighScores(storage) + [NewEntry(score, time, position, date)]))
  }

  /** What the saved list is: as long as the old list plus one, up to ten;
      sorted; drawn from the old list and the new entry, with nothing left
      out scoring more than anything kept; holding the new entry exactly
      when fewer than ten old entries score at least as much, and otherwise
      the ten best old entries. */
  lemma LedgerFacts(storage: Storage, score: int, time: real, position: int, date: string)
    ensures Sorted(Ledger(storage, score, time, position, date))
    ensures var saved := Ledger(storage, score, time, position, date);
            var old_ := GetHighScores(storage);
            |saved| == if |old_| + 1 < Capacity then |old_| + 1 else Capacity
    ensures var saved := Ledger(storage, score, time, position, date);
            multiset(saved) <= multiset(GetHighScores(storage) + [NewEntry(score, time, position, date)])
    ensures var saved := Ledger(storage, score, time, position, date);
            forall d :: d in multiset(GetHighScores(storage) + [NewEntry(score, time, position, date)]) - multiset(saved) ==>
              forall i :: 0 <= i < |saved| ==> d.score <= saved[i].score
    ensures CountAtLeast(GetHighScores(storage), score) < Capacity ==>
              NewEntry(score, time, position, date) in Ledger(storage, score, time, position, date)
    ensures CountAtLeast(GetHighScores(storage), score) >= Capacity ==>
              Ledger(storage, score, time, position, date) == Top(SortByScore(GetHighScores(storage)))
  {
    var before := GetHighScores(storage);
    var entry := NewEntry(score, time, position, date);
    SortFacts(before + [entry]);
    TopFacts(SortByScore(before + [entry]));
    NewEntryPlace(before, entry);
  }

  /** UI.saveHighScore: read the list, push the new entry, sort it by
      score, and keep the first ten; the list to store is returned. */
  method SaveHighScore(storage: Storage, score: int, time: real, position: int, date: string)
    returns (saved: seq<ScoreEntry>)
    ensures saved == Ledger(storage, score, time, position, date)
  {
    var scores := GetHighScores(storage);
    scores := scores + [NewEntry(score, time, position, date)];
    scores := SortByScore(scores);
    saved := Top(scores);
  }
}
