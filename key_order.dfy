/**
 * Ascending key order.  The item engine's containers are `std::map`s, whose
 * iterators visit keys in ascending order; the model lists a map's keys by
 * filtering the range of its key type in ascending order.
 */
module KeyOrder {

  predicate Increasing(s: seq<int>)
  {
    forall i, j | 0 <= i < j < |s| :: s[i] < s[j]
  }

  /** The members of `ks` in `[lo, hi)`, in ascending order (`KeysInIncreasing`). */
  function KeysIn(ks: set<int>, lo: int, hi: int): (r: seq<int>)
    ensures forall x :: x in r <==> x in ks && lo <= x < hi
    decreases hi - lo
  {
    if lo >= hi then []
    else
      var rest := KeysIn(ks, lo + 1, hi);
      if lo in ks then [lo] + rest else rest
  }

  /** The listed keys are strictly ascending. */
  lemma {:induction false} KeysInIncreasing(ks: set<int>, lo: int, hi: int)
    ensures Increasing(KeysIn(ks, lo, hi))
    decreases hi - lo
  {
    if lo < hi {
      KeysInIncreasing(ks, lo + 1, hi);
      var rest := KeysIn(ks, lo + 1, hi);
      forall j | 0 <= j < |rest| ensures lo < rest[j] {
        assert rest[j] in rest;
      }
    }
  }

  /** Keys of a map indexed by `int16`, in ascending order. */
  function Int16Keys(ks: set<int>): (r: seq<int>)
    ensures forall x :: x in r <==> x in ks && -0x8000 <= x < 0x8000
  {
    KeysIn(ks, -0x8000, 0x8000)
  }

  /** Keys of a map indexed by `uint8`, in ascending order. */
  function Uint8Keys(ks: set<int>): (r: seq<int>)
    ensures forall x :: x in r <==> x in ks && 0 <= x < 0x100
  {
    KeysIn(ks, 0, 0x100)
  }

  /** Two ascending sequences with the same members are equal. */
  lemma {:induction false} IncreasingUnique(a: seq<int>, b: seq<int>)
    requires Increasing(a) && Increasing(b)
    requires forall x :: x in a <==> x in b
    ensures a == b
    decreases |a|
  {
    assert |a| > 0 ==> |b| > 0 by { if |a| > 0 { assert a[0] in a; } }
    assert |b| > 0 ==> |a| > 0 by { if |b| > 0 { assert b[0] in b; } }
    if |a| > 0 {
      assert a[0] in a && b[0] in b;
      assert a[0] in b && b[0] in a;
      assert a[0] == b[0];
      forall x ensures x in a[1..] <==> x in b[1..] {
        if x in a[1..] {
          assert x in b && x != b[0];
        }
        if x in b[1..] {
          assert x in a && x != a[0];
        }
      }
      IncreasingUnique(a[1..], b[1..]);
      assert a == [a[0]] + a[1..];
      assert b == [b[0]] + b[1..];
    }
  }

  /** A single key is listed alone. */
  lemma SingleKey(k: int, lo: int, hi: int)
    requires lo <= k < hi
    ensures KeysIn({k}, lo, hi) == [k]
  {
    KeysInIncreasing({k}, lo, hi);
    IncreasingUnique(KeysIn({k}, lo, hi), [k]);
  }

  /** No keys, nothing listed. */
  lemma {:induction false} NoKeys(lo: int, hi: int)
    ensures KeysIn({}, lo, hi) == []
    decreases hi - lo
  {
    if lo < hi {
      NoKeys(lo + 1, hi);
    }
  }
}
