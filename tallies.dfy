/**
 * Python's `collections.Counter` over strings: counts kept in a dict whose
 * keys are in order of first appearance, and `most_common(1)`, which (being a
 * `max` over the items) returns the first key of maximal count.
 */
module Tallies {
  import opened Dicts

  /** Number of occurrences of `x` in `xs`. */
  function Count(xs: seq<string>, x: string): nat {
    if xs == [] then 0
    else Count(xs[..|xs| - 1], x) + (if xs[|xs| - 1] == x then 1 else 0)
  }

  lemma {:induction false} CountPositive(xs: seq<string>, x: string)
    ensures Count(xs, x) > 0 <==> x in xs
  {
    if xs != [] {
      CountPositive(xs[..|xs| - 1], x);
      assert xs == xs[..|xs| - 1] + [xs[|xs| - 1]];
    }
  }

  lemma CountAppend(xs: seq<string>, y: string, x: string)
    ensures Count(xs + [y], x) == Count(xs, x) + (if y == x then 1 else 0)
  {
    assert (xs + [y])[..|xs|] == xs;
  }

  lemma {:induction false} CountAtMost(xs: seq<string>, x: string)
    ensures Count(xs, x) <= |xs|
  {
    if xs != [] {
      CountAtMost(xs[..|xs| - 1], x);
    }
  }

  /** Occurrences of two different values together are at most the length. */
  lemma {:induction false} CountBothAtMost(xs: seq<string>, a: string, b: string)
    requires a != b
    ensures Count(xs, a) + Count(xs, b) <= |xs|
  {
    if xs != [] {
      CountBothAtMost(xs[..|xs| - 1], a, b);
    }
  }

  /** The distinct elements of `xs`, in order of first appearance. */
  function Dedup(xs: seq<string>): seq<string> {
    if xs == [] then []
    else
      var prev := Dedup(xs[..|xs| - 1]);
      var x := xs[|xs| - 1];
      if x in prev then prev else prev + [x]
  }

  /** Every element appears in `Dedup(xs)` exactly once, and nothing else. */
  lemma {:induction false} DedupFacts(xs: seq<string>)
    ensures forall x :: x in Dedup(xs) <==> x in xs
    ensures forall i, j :: 0 <= i < j < |Dedup(xs)| ==> Dedup(xs)[i] != Dedup(xs)[j]
    ensures |Dedup(xs)| <= |xs| && (|xs| > 0 ==> |Dedup(xs)| > 0)
  {
    if xs != [] {
      var init := xs[..|xs| - 1];
      DedupFacts(init);
      assert xs == init + [xs[|xs| - 1]];
    }
  }

  lemma DedupLast(xs: seq<string>)
    requires xs != []
    ensures var prev, x := Dedup(xs[..|xs| - 1]), xs[|xs| - 1];
      Dedup(xs) == if x in prev then prev else prev + [x]
  {
  }

  /** Sum of the counts of a tally. */
  function TotalCount(d: Dict<nat>): nat {
    if d == [] then 0 else TotalCount(d[..|d| - 1]) + d[|d| - 1].1
  }

  lemma {:induction false} TotalCountUpdate(d: Dict<nat>, i: nat, item: (string, nat))
    requires i < |d|
    ensures TotalCount(d[i := item]) == TotalCount(d) - d[i].1 + item.1
    decreases |d|
  {
    var n := |d|;
    if i == n - 1 {
      assert d[i := item][..n - 1] == d[..n - 1];
    } else {
      assert d[i := item][..n - 1] == d[..n - 1][i := item];
      TotalCountUpdate(d[..n - 1], i, item);
    }
  }

  lemma TotalCountAppend(d: Dict<nat>, item: (string, nat))
    ensures TotalCount(d + [item]) == TotalCount(d) + item.1
  {
    assert (d + [item])[..|d|] == d;
  }

  /** Adding one to the count of `x` raises the total by one. */
  lemma TotalCountIncrement(d: Dict<nat>, x: string)
    ensures TotalCount(Set(d, x, Get(d, x, 0) + 1)) == TotalCount(d) + 1
  {
    if x in Keys(d) {
      var i := IndexOf(d, x);
      var c := d[i].1;
      assert Get(d, x, 0) == c;
      SetPresent(d, x, c + 1);
      TotalCountUpdate(d, i, (x, c + 1));
    } else {
      assert Get(d, x, 0) == 0;
      SetAbsent(d, x, 1);
      TotalCountAppend(d, (x, 1));
    }
  }

  /** `Counter(xs)`, built one element at a time as the Python loops do. */
  function Tally(xs: seq<string>): Dict<nat> {
    if xs == [] then []
    else
      var prev := Tally(xs[..|xs| - 1]);
      var x := xs[|xs| - 1];
      Set(prev, x, Get(prev, x, 0) + 1)
  }

  /** The tally has one key per distinct element, in order of first appearance. */
  lemma {:induction false} TallyKeys(xs: seq<string>)
    ensures Keys(Tally(xs)) == Dedup(xs)
  {
    if xs != [] {
      var init := xs[..|xs| - 1];
      var x := xs[|xs| - 1];
      var prev := Tally(init);
      var d := Dedup(init);
      calc {
        Keys(Tally(xs));
        Keys(Set(prev, x, Get(prev, x, 0) + 1));
        { SetKeys(prev, x, Get(prev, x, 0) + 1); }
        if x in Keys(prev) then Keys(prev) else Keys(prev) + [x];
        { TallyKeys(init); }
        if x in d then d else d + [x];
        { DedupLast(xs); }
        Dedup(xs);
      }
    }
  }

  lemma {:induction false} TallyDistinct(xs: seq<string>)
    ensures Distinct(Tally(xs))
  {
    if xs != [] {
      var prev := Tally(xs[..|xs| - 1]);
      var x := xs[|xs| - 1];
      TallyDistinct(xs[..|xs| - 1]);
      SetDistinct(prev, x, Get(prev, x, 0) + 1);
    }
  }

  /** Each key holds its number of occurrences; absent keys read as 0. */
  lemma {:induction false} TallyGet(xs: seq<string>, y: string)
    ensures Get(Tally(xs), y, 0) == Count(xs, y)
  {
    if xs != [] {
      var init := xs[..|xs| - 1];
      var x := xs[|xs| - 1];
      var prev := Tally(init);
      TallyGet(init, y);
      GetSet(prev, x, Get(prev, x, 0) + 1, y, 0);
    }
  }

  /** The counts add up to the length. */
  lemma {:induction false} TallyTotal(xs: seq<string>)
    ensures TotalCount(Tally(xs)) == |xs|
  {
    if xs != [] {
      var prev := Tally(xs[..|xs| - 1]);
      var x := xs[|xs| - 1];
      TallyTotal(xs[..|xs| - 1]);
      calc {
        TotalCount(Tally(xs));
        TotalCount(Set(prev, x, Get(prev, x, 0) + 1));
        { TotalCountIncrement(prev, x); }
        TotalCount(prev) + 1;
      }
    }
  }

  lemma TallyCounts(xs: seq<string>)
    ensures Distinct(Tally(xs))
    ensures Keys(Tally(xs)) == Dedup(xs)
    ensures forall x :: Get(Tally(xs), x, 0) == Count(xs, x)
    ensures TotalCount(Tally(xs)) == |xs|
  {
    TallyKeys(xs);
    TallyDistinct(xs);
    TallyTotal(xs);
    forall x ensures Get(Tally(xs), x, 0) == Count(xs, x) {
      TallyGet(xs, x);
    }
  }

  /** Position of the item `max(d.items(), key=count)` returns: the first of maximal count. */
  function MostCommonIndex(d: Dict<nat>): (i: nat)
    requires |d| > 0
    ensures i < |d|
    ensures forall j :: 0 <= j < |d| ==> d[j].1 <= d[i].1
    ensures forall j :: 0 <= j < i ==> d[j].1 < d[i].1
    decreases |d|
  {
    if |d| == 1 then 0
    else
      var k := MostCommonIndex(d[..|d| - 1]);
      if d[|d| - 1].1 > d[k].1 then |d| - 1 else k
  }

  /**
   * `Counter(xs).most_common(1)[0][0]`: an element of maximal count; every
   * element that first appears before it occurs strictly fewer times.
   */
  function MostCommon(xs: seq<string>): (m: string)
    requires |xs| > 0
    ensures m in xs
    ensures forall x :: Count(xs, x) <= Count(xs, m)
    ensures forall j :: 0 <= j < |Dedup(xs)| && Dedup(xs)[j] == m ==>
              forall i :: 0 <= i < j ==> Count(xs, Dedup(xs)[i]) < Count(xs, m)
  {
    var t := Tally(xs);
    TallyCounts(xs);
    DedupFacts(xs);
    assert xs[0] in Dedup(xs);
    var k := MostCommonIndex(t);
    var m := t[k].0;
    assert Keys(t)[k] == m;
    forall x ensures Count(xs, x) <= Count(xs, m) {
      LookupAt(t, k);
      if x in Keys(t) {
        var i := IndexOf(t, x);
      }
    }
    forall j, i | 0 <= j < |Dedup(xs)| && Dedup(xs)[j] == m && 0 <= i < j
      ensures Count(xs, Dedup(xs)[i]) < Count(xs, m)
    {
      assert Keys(t)[j] == m;
      assert j == k;
      LookupAt(t, k);
      LookupAt(t, i);
    }
    m
  }
}
