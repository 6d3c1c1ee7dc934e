/**
 * The global item-instance serial counter (`NextItemInstSerialNumber` and
 * `GetNextItemInstSerialNumber`).  The counter starts at 1 and is advanced
 * before each number is handed out, wrapping from `INT_MAX` back to 1.
 */
module SerialNumbers {
  import opened Constants

  /** The counter value after one advance. */
  function NextSerial(n: int32): (r: int32)
    ensures n >= 0 ==> 1 <= r
  {
    if n >= INT_MAX then 1 else n + 1
  }

  /** The counter value after `k` advances from `n`. */
  function Advance(n: int32, k: nat): int32
  {
    if k == 0 then n else NextSerial(Advance(n, k - 1))
  }

  /** Starting from 1, the `k`-th number handed out is `k + 1`, up to `INT_MAX`. */
  lemma {:induction false} AdvanceFromStart(k: nat)
    requires k < INT_MAX as int
    ensures Advance(1, k) as int == k + 1
  {
    if k > 0 {
      AdvanceFromStart(k - 1);
    }
  }

  /** The first number handed out is 2, and after `INT_MAX` the counter wraps to 1. */
  lemma FirstAndWrap()
    ensures Advance(1, 1) == 2
    ensures NextSerial(INT_MAX) == 1
  {
  }

  /** The numbers handed out before the wrap are pairwise distinct. */
  lemma DistinctBeforeWrap(j: nat, k: nat)
    requires 1 <= j < k < INT_MAX as int
    ensures Advance(1, j) != Advance(1, k)
  {
    AdvanceFromStart(j);
    AdvanceFromStart(k);
  }

  /** The counter itself. */
  class SerialCounter {
    var next: int32

    constructor ()
      ensures next == 1
    {
      next := 1;
    }

    /** `GetNextItemInstSerialNumber`: advance, then hand out the new value. */
    method GetNext() returns (s: int32)
      modifies this
      ensures next == NextSerial(old(next))
      ensures s == next
    {
      if next >= INT_MAX {
        next := 1;
      } else {
        next := next + 1;
      }
      s := next;
    }
  }
}
