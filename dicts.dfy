/**
 * Python dicts with string keys, as the list of their items in insertion
 * order. Assigning to a key that is present keeps its position; a new key is
 * appended at the end, as Python does.
 */
module Dicts {

  type Dict<V> = seq<(string, V)>

  function Keys<V>(d: Dict<V>): (ks: seq<string>)
    ensures |ks| == |d|
    ensures forall i :: 0 <= i < |d| ==> ks[i] == d[i].0
  {
    if d == [] then [] else Keys(d[..|d| - 1]) + [d[|d| - 1].0]
  }

  /** No key occurs twice: the shape every dict built by `Set` keeps. */
  predicate Distinct<V>(d: Dict<V>) {
    forall i, j :: 0 <= i < j < |d| ==> d[i].0 != d[j].0
  }

  /** Position of the first item whose key is `k`. */
  function IndexOf<V>(d: Dict<V>, k: string): (i: nat)
    requires k in Keys(d)
    ensures i < |d| && d[i].0 == k
    ensures forall j :: 0 <= j < i ==> d[j].0 != k
    decreases |d|
  {
    if d[0].0 == k then 0
    else
      assert k in Keys(d[1..]) by {
        var j :| 0 <= j < |d| && Keys(d)[j] == k;
        assert Keys(d[1..])[j - 1] == k;
      }
      1 + IndexOf(d[1..], k)
  }

  /** The first position holding `k` is the one `IndexOf` finds. */
  lemma IndexOfIs<V>(d: Dict<V>, k: string, i: nat)
    requires i < |d| && d[i].0 == k
    requires forall j :: 0 <= j < i ==> d[j].0 != k
    ensures k in Keys(d) && IndexOf(d, k) == i
  {
    assert Keys(d)[i] == k;
    var m := IndexOf(d, k);
    assert !(m < i) && !(i < m);
  }

  /** The last key of a dict without repeated keys is not among the earlier ones. */
  lemma DistinctLast<V>(d: Dict<V>)
    requires Distinct(d) && d != []
    ensures Distinct(d[..|d| - 1])
    ensures d[|d| - 1].0 !in Keys(d[..|d| - 1])
  {
    var init := d[..|d| - 1];
    forall j | 0 <= j < |init| ensures Keys(init)[j] != d[|d| - 1].0 {
      assert init[j] == d[j];
    }
  }

  /** Dropping the last item keeps the lookups of the other keys. */
  lemma LookupPrefix<V>(d: Dict<V>, k: string)
    requires d != [] && k in Keys(d[..|d| - 1])
    ensures k in Keys(d) && Lookup(d, k) == Lookup(d[..|d| - 1], k)
  {
    var init := d[..|d| - 1];
    var i := IndexOf(init, k);
    assert Keys(d)[i] == k;
    IndexOfIs(d, k, i);
  }

  /** `d[k]` for a key that is present. */
  function Lookup<V>(d: Dict<V>, k: string): V
    requires k in Keys(d)
  {
    d[IndexOf(d, k)].1
  }

  /** `d.get(k, default)`. */
  function Get<V>(d: Dict<V>, k: string, default: V): V {
    if k in Keys(d) then Lookup(d, k) else default
  }

  lemma LookupAt<V>(d: Dict<V>, i: nat)
    requires Distinct(d) && i < |d|
    ensures d[i].0 in Keys(d) && Lookup(d, d[i].0) == d[i].1
  {
    assert Keys(d)[i] == d[i].0;
  }

  /** `d[k] = v`: replaces the value in place when `k` is present, else appends. */
  function Set<V>(d: Dict<V>, k: string, v: V): Dict<V> {
    if d == [] then [(k, v)]
    else if d[0].0 == k then [(k, v)] + d[1..]
    else [d[0]] + Set(d[1..], k, v)
  }

  lemma KeysTail<V>(d: Dict<V>)
    requires d != []
    ensures Keys(d) == [d[0].0] + Keys(d[1..])
  {
  }

  /** For a key that is present the assignment overwrites its first item. */
  lemma {:induction false} SetPresent<V>(d: Dict<V>, k: string, v: V)
    requires k in Keys(d)
    ensures Set(d, k, v) == d[IndexOf(d, k) := (k, v)]
    decreases |d|
  {
    if d[0].0 == k {
      assert d[0 := (k, v)] == [(k, v)] + d[1..];
    } else {
      var t := d[1..];
      assert k in Keys(t) by {
        KeysTail(d);
      }
      SetPresent(t, k, v);
      UpdateAfterHead(d, IndexOf(t, k), (k, v));
    }
  }

  lemma UpdateAfterHead<V>(d: Dict<V>, i: nat, item: (string, V))
    requires i + 1 < |d|
    ensures d[i + 1 := item] == [d[0]] + d[1..][i := item]
  {
  }

  /** A new key is appended at the end. */
  lemma {:induction false} SetAbsent<V>(d: Dict<V>, k: string, v: V)
    requires k !in Keys(d)
    ensures Set(d, k, v) == d + [(k, v)]
  {
    if d != [] {
      var t := d[1..];
      KeysTail(d);
      assert k !in Keys(t);
      SetAbsent(t, k, v);
      assert d + [(k, v)] == [d[0]] + (t + [(k, v)]);
    }
  }

  lemma SetShape<V>(d: Dict<V>, k: string, v: V)
    ensures Set(d, k, v) == if k in Keys(d) then d[IndexOf(d, k) := (k, v)] else d + [(k, v)]
  {
    if k in Keys(d) {
      SetPresent(d, k, v);
    } else {
      SetAbsent(d, k, v);
    }
  }

  /** `d[k] = v` adds `k` to the keys if it was missing, at the end. */
  lemma SetKeys<V>(d: Dict<V>, k: string, v: V)
    ensures Keys(Set(d, k, v)) == if k in Keys(d) then Keys(d) else Keys(d) + [k]
  {
    SetShape(d, k, v);
  }

  /** After `d[k] = v`, `d[k]` is `v`. */
  lemma SetLookup<V>(d: Dict<V>, k: string, v: V)
    ensures k in Keys(Set(d, k, v)) && Lookup(Set(d, k, v), k) == v
  {
    SetShape(d, k, v);
    var r := Set(d, k, v);
    if k in Keys(d) {
      IndexOfIs(r, k, IndexOf(d, k));
    } else {
      IndexOfIs(r, k, |d|);
    }
  }

  /** `d[k] = v` leaves the value of every other key alone. */
  lemma SetLookupOther<V>(d: Dict<V>, k: string, v: V, k': string)
    requires k' in Keys(d) && k' != k
    ensures k' in Keys(Set(d, k, v)) && Lookup(Set(d, k, v), k') == Lookup(d, k')
  {
    SetShape(d, k, v);
    var r := Set(d, k, v);
    var i := IndexOf(d, k');
    assert r[i] == d[i];
    IndexOfIs(r, k', i);
  }

  /** `d[k] = v` repeats no key. */
  lemma SetDistinct<V>(d: Dict<V>, k: string, v: V)
    requires Distinct(d)
    ensures Distinct(Set(d, k, v))
  {
    SetShape(d, k, v);
    SetKeys(d, k, v);
    var r := Set(d, k, v);
    forall i, j | 0 <= i < j < |r| ensures r[i].0 != r[j].0 {
      if k !in Keys(d) && j == |d| {
        assert r[i].0 == Keys(d)[i];
      }
    }
  }

  /** All of the above at once. */
  lemma SetFacts<V>(d: Dict<V>, k: string, v: V)
    ensures Keys(Set(d, k, v)) == if k in Keys(d) then Keys(d) else Keys(d) + [k]
    ensures k in Keys(Set(d, k, v)) && Lookup(Set(d, k, v), k) == v
    ensures forall k' :: k' in Keys(d) && k' != k ==> k' in Keys(Set(d, k, v)) && Lookup(Set(d, k, v), k') == Lookup(d, k')
    ensures Distinct(d) ==> Distinct(Set(d, k, v))
  {
    SetKeys(d, k, v);
    SetLookup(d, k, v);
    forall k' | k' in Keys(d) && k' != k
      ensures k' in Keys(Set(d, k, v)) && Lookup(Set(d, k, v), k') == Lookup(d, k')
    {
      SetLookupOther(d, k, v, k');
    }
    if Distinct(d) {
      SetDistinct(d, k, v);
    }
  }

  lemma GetSet<V>(d: Dict<V>, k: string, v: V, k': string, default: V)
    ensures Get(Set(d, k, v), k', default) == if k' == k then v else Get(d, k', default)
  {
    if k' == k {
      SetLookup(d, k, v);
    } else if k' in Keys(d) {
      SetLookupOther(d, k, v, k');
    } else {
      SetKeys(d, k, v);
      assert k' !in Keys(Set(d, k, v));
    }
  }

  /** Assigning twice to the same key leaves the dict as the second assignment alone would. */
  lemma SetTwice<V>(d: Dict<V>, k: string, v: V, w: V)
    ensures Set(Set(d, k, v), k, w) == Set(d, k, w)
  {
    var once := Set(d, k, v);
    if k in Keys(d) {
      var i := IndexOf(d, k);
      assert once == d[i := (k, v)] by {
        SetPresent(d, k, v);
      }
      assert Set(once, k, w) == once[i := (k, w)] by {
        IndexOfIs(once, k, i);
        SetPresent(once, k, w);
      }
      assert Set(d, k, w) == d[i := (k, w)] by {
        SetPresent(d, k, w);
      }
      assert once[i := (k, w)] == d[i := (k, w)];
    } else {
      assert once == d + [(k, v)] by {
        SetAbsent(d, k, v);
      }
      assert Set(once, k, w) == once[|d| := (k, w)] by {
        forall j | 0 <= j < |d| ensures once[j].0 != k {
          assert Keys(d)[j] == d[j].0;
        }
        IndexOfIs(once, k, |d|);
        SetPresent(once, k, w);
      }
      assert Set(d, k, w) == d + [(k, w)] by {
        SetAbsent(d, k, w);
      }
      assert once[|d| := (k, w)] == d + [(k, w)];
    }
  }

  /** `sum(d.values())` for a dict of numbers. */
  function Total(d: Dict<real>): real {
    if d == [] then 0.0 else Total(d[..|d| - 1]) + d[|d| - 1].1
  }

  lemma {:induction false} TotalUpdate(d: Dict<real>, i: nat, item: (string, real))
    requires i < |d|
    ensures Total(d[i := item]) == Total(d) - d[i].1 + item.1
    decreases |d|
  {
    var n := |d|;
    if i == n - 1 {
      assert d[i := item][..n - 1] == d[..n - 1];
    } else {
      assert d[i := item][..n - 1] == d[..n - 1][i := item];
      TotalUpdate(d[..n - 1], i, item);
    }
  }

  /** Assigning `v` to `k` changes the total by `v` minus the old value (0 if absent). */
  lemma TotalSet(d: Dict<real>, k: string, v: real)
    ensures Total(Set(d, k, v)) == Total(d) - Get(d, k, 0.0) + v
  {
    SetShape(d, k, v);
    if k in Keys(d) {
      TotalUpdate(d, IndexOf(d, k), (k, v));
    } else {
      assert (d + [(k, v)])[..|d|] == d;
    }
  }

  lemma SetKeysCover<V>(d: Dict<V>, k: string, v: V)
    ensures forall k' :: k' in Keys(Set(d, k, v)) <==> k' in Keys(d) || k' == k
  {
    SetKeys(d, k, v);
  }

  /** `d[k] = d.get(k, 0) + x`. */
  function Credit(d: Dict<real>, k: string, x: real): Dict<real> {
    Set(d, k, Get(d, k, 0.0) + x)
  }

  /**
   * Crediting `x` to `k` moves the balance of `k` by `x` (from 0 when it had
   * none), leaves every other balance alone, adds no key but `k`, and moves
   * the total by `x`.
   */
  lemma CreditEffect(d: Dict<real>, k: string, x: real)
    ensures var r := Credit(d, k, x);
            && k in Keys(r) && Lookup(r, k) == Get(d, k, 0.0) + x
            && (forall k' :: k' in Keys(d) && k' != k ==> k' in Keys(r) && Lookup(r, k') == Lookup(d, k'))
            && (forall k' :: k' in Keys(r) <==> k' in Keys(d) || k' == k)
            && Total(r) == Total(d) + x
            && (Distinct(d) ==> Distinct(r))
  {
    var v := Get(d, k, 0.0) + x;
    var r := Set(d, k, v);
    assert Credit(d, k, x) == r;
    assert k in Keys(r) && Lookup(r, k) == v by {
      SetLookup(d, k, v);
    }
    assert forall k' :: k' in Keys(d) && k' != k ==> k' in Keys(r) && Lookup(r, k') == Lookup(d, k') by {
      forall k' | k' in Keys(d) && k' != k ensures k' in Keys(r) && Lookup(r, k') == Lookup(d, k') {
        SetLookupOther(d, k, v, k');
      }
    }
    assert forall k' :: k' in Keys(r) <==> k' in Keys(d) || k' == k by {
      SetKeysCover(d, k, v);
    }
    assert Total(r) == Total(d) + x by {
      TotalSet(d, k, v);
    }
    assert Distinct(d) ==> Distinct(r) by {
      if Distinct(d) {
        SetDistinct(d, k, v);
      }
    }
  }

  /** Crediting a key repeats no key. */
  lemma CreditDistinct(d: Dict<real>, k: string, x: real)
    requires Distinct(d)
    ensures Distinct(Credit(d, k, x))
  {
    var v := Get(d, k, 0.0) + x;
    assert Credit(d, k, x) == Set(d, k, v);
    SetDistinct(d, k, v);
  }
}
