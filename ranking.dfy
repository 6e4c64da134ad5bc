/** Python's stable `sorted(levels.items(), key=lambda x: x[1])`, with and without
    `reverse=True`, over (topic, level) pairs, and the "first entry of the sorted list
    that passes a test" search built on it.

    Python's sort is stable also with `reverse=True` (equal keys keep their original
    order), so the descending sort is the ascending sort by the negated level. Both
    are modelled by one insertion sort that puts an element before the first one
    whose key is not smaller, which keeps equal keys in input order. */
module Ranking {
  import opened Common

  type Item = (string, real)

  /** The sort key: the level, negated for `reverse=True`. */
  function Key(x: Item, desc: bool): real
  {
    if desc then -x.1 else x.1
  }

  ghost predicate Sorted(s: seq<Item>, desc: bool)
  {
    forall i, j :: 0 <= i < j < |s| ==> Key(s[i], desc) <= Key(s[j], desc)
  }

  function Insert(x: Item, s: seq<Item>, desc: bool): (r: seq<Item>)
    ensures |r| == |s| + 1
    ensures multiset(r) == multiset(s) + multiset{x}
  {
    if s == [] then [x]
    else if Key(x, desc) <= Key(s[0], desc) then [x] + s
    else
      assert s == [s[0]] + s[1..];
      [s[0]] + Insert(x, s[1..], desc)
  }

  /** The stable sort. */
  function Sort(s: seq<Item>, desc: bool): (r: seq<Item>)
    ensures |r| == |s|
    ensures multiset(r) == multiset(s)
  {
    if s == [] then []
    else
      assert s == [s[0]] + s[1..];
      Insert(s[0], Sort(s[1..], desc), desc)
  }

  lemma {:induction false} InsertSorted(x: Item, s: seq<Item>, desc: bool)
    requires Sorted(s, desc)
    ensures Sorted(Insert(x, s, desc), desc)
  {
    if s != [] && Key(x, desc) > Key(s[0], desc) {
      InsertSorted(x, s[1..], desc);
      var r := Insert(x, s, desc);
      forall i, j | 0 <= i < j < |r| ensures Key(r[i], desc) <= Key(r[j], desc) {
        if i == 0 {
          assert r[j] in multiset(s[1..]) + multiset{x};
          assert r[j] in s[1..] || r[j] == x;
        }
      }
    }
  }

  /** The sort returns its input ordered by key, losing and adding nothing. */
  lemma {:induction false} SortSorted(s: seq<Item>, desc: bool)
    ensures Sorted(Sort(s, desc), desc)
    ensures multiset(Sort(s, desc)) == multiset(s)
  {
    if s != [] {
      SortSorted(s[1..], desc);
      InsertSorted(s[0], Sort(s[1..], desc), desc);
    }
  }

  /** The test of `select_next_topic`'s scan: `not previous_topics or topic != previous_topics[-1]`. */
  predicate Eligible(x: Item, last: Option<string>)
  {
    last.None? || x.0 != last.value
  }

  /** The first element of `s` that passes the test, scanning front to back. */
  function FirstEligible(s: seq<Item>, last: Option<string>): (r: Option<Item>)
    ensures r.Some? ==> r.value in s && Eligible(r.value, last)
    ensures r.None? <==> forall i :: 0 <= i < |s| ==> !Eligible(s[i], last)
  {
    if s == [] then None
    else if Eligible(s[0], last) then Some(s[0])
    else
      var r := FirstEligible(s[1..], last);
      assert forall i :: 1 <= i < |s| ==> s[i] == s[1..][i - 1];
      r
  }

  /** The reference definition, with no sort: the eligible element of smallest key,
      and among several of that key the one that comes first in `s`. */
  ghost predicate IsFirstLowest(s: seq<Item>, k: int, last: Option<string>, desc: bool)
  {
    && 0 <= k < |s|
    && Eligible(s[k], last)
    && (forall j :: 0 <= j < |s| && Eligible(s[j], last) ==> Key(s[k], desc) <= Key(s[j], desc))
    && (forall j :: 0 <= j < k && Eligible(s[j], last) ==> Key(s[k], desc) < Key(s[j], desc))
  }

  /** Inserting `x` into a sorted list: the first eligible element of the result is
      `x` when `x` is eligible and its key is at most that of the old first eligible
      element, and the old first eligible element otherwise. */
  lemma {:induction false} FirstEligibleInsert(x: Item, s: seq<Item>, last: Option<string>, desc: bool)
    requires Sorted(s, desc)
    ensures !Eligible(x, last) ==> FirstEligible(Insert(x, s, desc), last) == FirstEligible(s, last)
    ensures Eligible(x, last) && FirstEligible(s, last).None? ==> FirstEligible(Insert(x, s, desc), last) == Some(x)
    ensures Eligible(x, last) && FirstEligible(s, last).Some? ==>
      FirstEligible(Insert(x, s, desc), last) ==
        if Key(x, desc) <= Key(FirstEligible(s, last).value, desc) then Some(x) else FirstEligible(s, last)
  {
    if s == [] {
    } else if Key(x, desc) <= Key(s[0], desc) {
      assert Insert(x, s, desc) == [x] + s;
      assert ([x] + s)[1..] == s;
      var f := FirstEligible(s, last);
      if f.Some? {
        var i :| 0 <= i < |s| && s[i] == f.value;
        if i > 0 {
          assert Key(s[0], desc) <= Key(s[i], desc);
        }
      }
    } else {
      FirstEligibleInsert(x, s[1..], last, desc);
      var r := Insert(x, s, desc);
      assert r == [s[0]] + Insert(x, s[1..], desc);
      assert r[1..] == Insert(x, s[1..], desc);
      if !Eligible(s[0], last) {
        assert FirstEligible(s, last) == FirstEligible(s[1..], last);
      }
    }
  }

  /** One step of the reference definition: the first-lowest element of `[x] + rest`,
      given that of `rest`. */
  lemma FirstLowestCons(x: Item, rest: seq<Item>, k: int, last: Option<string>, desc: bool)
    requires IsFirstLowest(rest, k, last, desc)
    ensures Eligible(x, last) && Key(x, desc) <= Key(rest[k], desc) ==> IsFirstLowest([x] + rest, 0, last, desc)
    ensures !(Eligible(x, last) && Key(x, desc) <= Key(rest[k], desc)) ==> IsFirstLowest([x] + rest, k + 1, last, desc)
  {
    var s := [x] + rest;
    assert forall j :: 1 <= j < |s| ==> s[j] == rest[j - 1];
  }

  lemma FirstLowestConsNone(x: Item, rest: seq<Item>, last: Option<string>, desc: bool)
    requires Eligible(x, last)
    requires forall i :: 0 <= i < |rest| ==> !Eligible(rest[i], last)
    ensures IsFirstLowest([x] + rest, 0, last, desc)
  {
    var s := [x] + rest;
    assert forall j :: 1 <= j < |s| ==> s[j] == rest[j - 1];
  }

  /** Sorting does not change whether some element is eligible. */
  lemma NoneEligibleOfSort(s: seq<Item>, last: Option<string>, desc: bool)
    ensures FirstEligible(Sort(s, desc), last).None? <==> (forall i :: 0 <= i < |s| ==> !Eligible(s[i], last))
  {
    var t := Sort(s, desc);
    var r := FirstEligible(t, last);
    if r.None? {
      forall i | 0 <= i < |s| ensures !Eligible(s[i], last) {
        assert s[i] in multiset(t);
      }
    } else {
      assert r.value in multiset(s);
    }
  }

  /** Scanning the sorted list for the first eligible element finds the element the
      reference definition names. */
  lemma {:induction false} FirstEligibleOfSort(s: seq<Item>, last: Option<string>, desc: bool)
    ensures FirstEligible(Sort(s, desc), last).Some? ==>
      exists k :: IsFirstLowest(s, k, last, desc) && s[k] == FirstEligible(Sort(s, desc), last).value
  {
    if s != [] {
      var x, rest := s[0], s[1..];
      assert s == [x] + rest;
      var r := FirstEligible(Sort(s, desc), last);
      var f := FirstEligible(Sort(rest, desc), last);
      assert Sort(s, desc) == Insert(x, Sort(rest, desc), desc);
      SortSorted(rest, desc);
      FirstEligibleInsert(x, Sort(rest, desc), last, desc);
      if f.Some? {
        FirstEligibleOfSort(rest, last, desc);
        var k :| IsFirstLowest(rest, k, last, desc) && rest[k] == f.value;
        FirstLowestCons(x, rest, k, last, desc);
        if Eligible(x, last) && Key(x, desc) <= Key(f.value, desc) {
          assert r == Some(x) && IsFirstLowest(s, 0, last, desc);
        } else {
          assert r == f && s[k + 1] == f.value && IsFirstLowest(s, k + 1, last, desc);
        }
      } else if Eligible(x, last) {
        NoneEligibleOfSort(rest, last, desc);
        FirstLowestConsNone(x, rest, last, desc);
        assert r == Some(x) && IsFirstLowest(s, 0, last, desc);
      }
    }
  }

  /** The reference definition names at most one element. */
  lemma FirstLowestUnique(s: seq<Item>, k1: int, k2: int, last: Option<string>, desc: bool)
    requires IsFirstLowest(s, k1, last, desc) && IsFirstLowest(s, k2, last, desc)
    ensures k1 == k2
  {
  }
}
