/**
 * `list.sort((a, b) => b.amount - a.amount)`: JavaScript's stable sort by
 * descending amount, written as an insertion sort. A stable sort is fixed by
 * three facts, each proved below: the result is ordered by descending amount,
 * it is a permutation of the input, and among equal amounts it keeps the
 * input's order.
 */
module Sorting {
  import opened Ledger

  predicate SortedDesc(s: seq<Party>) {
    forall i, j :: 0 <= i < j < |s| ==> s[i].amount >= s[j].amount
  }

  /**
   * Inserts `x` into a list sorted by descending amount, after every entry
   * whose amount is at least `x.amount`.
   */
  function Insert(s: seq<Party>, x: Party): (r: seq<Party>)
    ensures |r| == |s| + 1
  {
    if s == [] || s[|s| - 1].amount >= x.amount then s + [x]
    else Insert(s[..|s| - 1], x) + [s[|s| - 1]]
  }

  /** Inserting adds `x` and loses nothing. */
  lemma {:induction false} InsertPermutes(s: seq<Party>, x: Party)
    ensures multiset(Insert(s, x)) == multiset(s) + multiset{x}
  {
    if s != [] && s[|s| - 1].amount < x.amount {
      var init, last := s[..|s| - 1], s[|s| - 1];
      assert s == init + [last];
      InsertPermutes(init, x);
    }
  }

  lemma {:induction false} InsertSorted(s: seq<Party>, x: Party)
    requires SortedDesc(s)
    ensures SortedDesc(Insert(s, x))
  {
    if s == [] || s[|s| - 1].amount >= x.amount {
      SortedSnoc(s, x);
    } else {
      var init, last := s[..|s| - 1], s[|s| - 1];
      assert s == init + [last];
      InsertSorted(init, x);
      var a := Insert(init, x);
      InsertPermutes(init, x);
      forall p | p in a
        ensures p.amount >= last.amount
      {
        assert p in multiset(a);
        if p != x {
          assert p in multiset(init);
        }
      }
      SortedSnoc(a, last);
    }
  }

  lemma SortedSnoc(a: seq<Party>, x: Party)
    requires SortedDesc(a)
    requires forall p :: p in a ==> p.amount >= x.amount
    ensures SortedDesc(a + [x])
  {
    forall i, j | 0 <= i < j < |a| + 1
      ensures (a + [x])[i].amount >= (a + [x])[j].amount
    {
      if j == |a| {
        assert (a + [x])[i] in a;
      }
    }
  }

  function SortDesc(s: seq<Party>): (r: seq<Party>)
    ensures |r| == |s|
    ensures multiset(r) == multiset(s)
    ensures SortedDesc(r)
  {
    if s == [] then []
    else
      var init, last := s[..|s| - 1], s[|s| - 1];
      assert s == init + [last];
      InsertSorted(SortDesc(init), last);
      InsertPermutes(SortDesc(init), last);
      Insert(SortDesc(init), last)
  }

  /** A list already in descending order is left as it is. */
  lemma {:induction false} SortedUnchanged(s: seq<Party>)
    requires SortedDesc(s)
    ensures SortDesc(s) == s
  {
    if s != [] {
      var init, last := s[..|s| - 1], s[|s| - 1];
      assert s == init + [last];
      assert SortedDesc(init);
      SortedUnchanged(init);
      if init != [] {
        assert init[|init| - 1].amount >= last.amount;
      }
      InsertAfter(init, last);
    }
  }

  /** The entries whose amount is exactly `v`, in order. */
  function WithAmount(s: seq<Party>, v: real): (r: seq<Party>)
    ensures forall p :: p in r ==> p in s && p.amount == v
  {
    if s == [] then []
    else WithAmount(s[..|s| - 1], v) + (if s[|s| - 1].amount == v then [s[|s| - 1]] else [])
  }

  lemma WithAmountAppend(s: seq<Party>, x: Party, v: real)
    ensures WithAmount(s + [x], v) == WithAmount(s, v) + (if x.amount == v then [x] else [])
  {
    assert (s + [x])[..|s|] == s;
  }

  lemma {:induction false} InsertStable(s: seq<Party>, x: Party, v: real)
    ensures WithAmount(Insert(s, x), v) == WithAmount(s, v) + (if x.amount == v then [x] else [])
  {
    if s == [] || s[|s| - 1].amount >= x.amount {
      WithAmountAppend(s, x, v);
    } else {
      var init, last := s[..|s| - 1], s[|s| - 1];
      assert s == init + [last];
      var a := Insert(init, x);
      assert Insert(s, x) == a + [last];
      InsertStable(init, x, v);
      WithAmountAppend(a, last, v);
      WithAmountAppend(init, last, v);
      var w := WithAmount(init, v);
      if x.amount == v {
        assert WithAmount(a, v) == w + [x];
        assert WithAmount(a + [last], v) == w + [x];
        assert WithAmount(s, v) == w;
      } else {
        assert WithAmount(a, v) == w;
      }
    }
  }

  /** Stability: for every amount, the entries carrying it come out in their input order. */
  lemma {:induction false} SortStable(s: seq<Party>, v: real)
    ensures WithAmount(SortDesc(s), v) == WithAmount(s, v)
  {
    if s != [] {
      var init, last := s[..|s| - 1], s[|s| - 1];
      assert s == init + [last];
      SortStable(init, v);
      InsertStable(SortDesc(init), last, v);
      WithAmountAppend(init, last, v);
    }
  }

  /** The first entry carrying `v` is the first of `WithAmount(s, v)`. */
  lemma {:induction false} FirstWithAmount(s: seq<Party>, v: real, i: nat)
    requires i < |s| && s[i].amount == v
    requires forall j :: 0 <= j < i ==> s[j].amount != v
    ensures WithAmount(s, v) != [] && WithAmount(s, v)[0] == s[i]
  {
    var init, last := s[..|s| - 1], s[|s| - 1];
    assert s == init + [last];
    WithAmountAppend(init, last, v);
    if i < |s| - 1 {
      FirstWithAmount(init, v, i);
    } else {
      NoneWithAmount(init, v);
    }
  }

  lemma {:induction false} NoneWithAmount(s: seq<Party>, v: real)
    requires forall j :: 0 <= j < |s| ==> s[j].amount != v
    ensures WithAmount(s, v) == []
  {
    if s != [] {
      var init, last := s[..|s| - 1], s[|s| - 1];
      assert s == init + [last];
      NoneWithAmount(init, v);
      WithAmountAppend(init, last, v);
    }
  }

  /** The first index of `s` whose amount is `v`. */
  function FirstIndex(s: seq<Party>, v: real): (i: nat)
    requires exists p :: p in s && p.amount == v
    ensures i < |s| && s[i].amount == v
    ensures forall j :: 0 <= j < i ==> s[j].amount != v
  {
    if s[0].amount == v then 0
    else
      assert exists p :: p in s[1..] && p.amount == v;
      1 + FirstIndex(s[1..], v)
  }

  /**
   * The head of the sorted list is the earliest entry of `s` among those with
   * the largest amount: sorting picks the maximum and breaks ties by input order.
   */
  lemma SortHead(s: seq<Party>)
    requires |s| > 0
    ensures exists i :: FirstLargest(s, i) && SortDesc(s)[0] == s[i]
  {
    var r := SortDesc(s);
    var v := r[0].amount;
    SortHeadIsMaximal(s);
    var i := FirstIndex(s, v);
    SortHeadFirst(s, i);
    assert FirstLargest(s, i);
  }

  /** `s[i]` has the largest amount of `s`, and no earlier entry has that amount. */
  predicate FirstLargest(s: seq<Party>, i: int) {
    && 0 <= i < |s|
    && (forall j :: 0 <= j < |s| ==> s[j].amount <= s[i].amount)
    && (forall j :: 0 <= j < i ==> s[j].amount < s[i].amount)
  }

  /** Among entries with the head's amount, sorting puts the earliest one first. */
  lemma SortHeadFirst(s: seq<Party>, i: nat)
    requires i < |s| && s[i].amount == SortDesc(s)[0].amount
    requires forall j :: 0 <= j < i ==> s[j].amount != s[i].amount
    ensures SortDesc(s)[0] == s[i]
  {
    var r := SortDesc(s);
    var v := r[0].amount;
    FirstWithAmount(r, v, 0);
    FirstWithAmount(s, v, i);
    SortStable(s, v);
  }

  /** The head of the sorted list is an entry of `s` with the largest amount. */
  lemma SortHeadIsMaximal(s: seq<Party>)
    requires |s| > 0
    ensures SortDesc(s)[0] in s
    ensures forall j :: 0 <= j < |s| ==> s[j].amount <= SortDesc(s)[0].amount
  {
    var r := SortDesc(s);
    assert r[0] in multiset(s);
    forall j | 0 <= j < |s|
      ensures s[j].amount <= r[0].amount
    {
      assert s[j] in multiset(r);
      var k :| 0 <= k < |r| && r[k] == s[j];
      assert k == 0 || r[0].amount >= r[k].amount;
    }
  }

  /** The total of the amounts of the entries whose name satisfies `who`. */
  function Sum(s: seq<Party>, who: string -> bool): real {
    if s == [] then 0.0 else (if who(s[0].name) then s[0].amount else 0.0) + Sum(s[1..], who)
  }

  lemma {:induction false} SumConcat(a: seq<Party>, b: seq<Party>, who: string -> bool)
    ensures Sum(a + b, who) == Sum(a, who) + Sum(b, who)
  {
    if a != [] {
      assert (a + b)[1..] == a[1..] + b;
      SumConcat(a[1..], b, who);
    } else {
      assert a + b == b;
    }
  }

  lemma {:induction false} InsertSum(s: seq<Party>, x: Party, who: string -> bool)
    ensures Sum(Insert(s, x), who) == Sum(s, who) + Sum([x], who)
  {
    if s == [] || s[|s| - 1].amount >= x.amount {
      SumConcat(s, [x], who);
    } else {
      var init, last := s[..|s| - 1], s[|s| - 1];
      assert s == init + [last];
      InsertSum(init, x, who);
      SumConcat(Insert(init, x), [last], who);
      SumConcat(init, [last], who);
    }
  }

  /** Sorting moves entries around but changes no total. */
  lemma {:induction false} SortSum(s: seq<Party>, who: string -> bool)
    ensures Sum(SortDesc(s), who) == Sum(s, who)
  {
    if s != [] {
      var init, last := s[..|s| - 1], s[|s| - 1];
      assert s == init + [last];
      SortSum(init, who);
      InsertSum(SortDesc(init), last, who);
      SumConcat(init, [last], who);
    }
  }

  /** Two entries in ascending order swap places. */
  lemma SortTwo(x: Party, y: Party)
    requires x.amount < y.amount
    ensures SortDesc([x, y]) == [y, x]
  {
    assert [x, y] == [x] + [y];
    SortSnoc([x], y);
    SortOne(x);
    InsertSwap(x, y);
  }

  lemma InsertSwap(x: Party, y: Party)
    requires x.amount < y.amount
    ensures Insert([x], y) == [y, x]
  {
    assert [x] == [] + [x];
    InsertBefore([], x, y);
    InsertAfter([], y);
    assert [] + [y] + [x] == [y, x];
  }

  lemma SortOne(x: Party)
    ensures SortDesc([x]) == [x]
  {
    SortSnoc([], x);
    assert [] + [x] == [x];
    InsertAfter([], x);
  }

  /** An entry between the two of a sorted pair goes between them. */
  lemma InsertMiddle(x: Party, y: Party, z: Party)
    requires x.amount >= z.amount > y.amount
    ensures Insert([x, y], z) == [x, z, y]
  {
    calc {
      Insert([x, y], z);
    == { assert [x, y] == [x] + [y]; }
      Insert([x] + [y], z);
    == { InsertBefore([x], y, z); }
      Insert([x], z) + [y];
    == { InsertAfter([x], z); }
      [x] + [z] + [y];
    }
  }



  /** One step of the insertion sort: the last entry is inserted into the sorted rest. */
  lemma SortSnoc(s: seq<Party>, x: Party)
    ensures SortDesc(s + [x]) == Insert(SortDesc(s), x)
  {
    assert (s + [x])[..|s|] == s;
  }

  /** An entry no larger than the last one goes at the end. */
  lemma InsertAfter(s: seq<Party>, x: Party)
    requires s == [] || s[|s| - 1].amount >= x.amount
    ensures Insert(s, x) == s + [x]
  { }

  /** An entry larger than the last one goes before it. */
  lemma InsertBefore(init: seq<Party>, last: Party, x: Party)
    requires last.amount < x.amount
    ensures Insert(init + [last], x) == Insert(init, x) + [last]
  {
    assert (init + [last])[..|init|] == init;
  }
}
