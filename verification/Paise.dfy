/** Checked integer money, shared by the arithmetic enclave and everything that settles through it. */
module Paise {

  /** An enclave result; Drift is ArithmeticDriftException. */
  datatype Checked<+T> = Ok(value: T) | Drift

  const MAX_PAISE: int := 0x7FFF_FFFF_FFFF_FFFF

  /** What `validate_integer_paise` accepts with its default bounds. */
  predicate IsPaise(amount: int) {
    0 <= amount <= MAX_PAISE
  }

  lemma PaiseRange(amount: int)
    ensures IsPaise(amount) <==> 0 <= amount <= 9223372036854775807
  {
  }

  predicate AllPaise(amounts: seq<int>) {
    forall i :: 0 <= i < |amounts| ==> IsPaise(amounts[i])
  }

  /** Sum of the first k elements. */
  function SumTo(a: seq<int>, k: nat): int
    requires k <= |a|
  {
    if k == 0 then 0 else SumTo(a, k - 1) + a[k - 1]
  }

  function Sum(a: seq<int>): int {
    SumTo(a, |a|)
  }

  lemma {:induction false} SumToPrefix(a: seq<int>, b: seq<int>, k: nat)
    requires k <= |a| && k <= |b| && a[..k] == b[..k]
    ensures SumTo(a, k) == SumTo(b, k)
  {
    if k > 0 {
      assert a[..k - 1] == a[..k][..k - 1] && b[..k - 1] == b[..k][..k - 1];
      assert a[k - 1] == a[..k][k - 1] && b[k - 1] == b[..k][k - 1];
      SumToPrefix(a, b, k - 1);
    }
  }

  lemma SumAppend(a: seq<int>, x: int)
    ensures Sum(a + [x]) == Sum(a) + x
  {
    SumToPrefix(a + [x], a, |a|);
  }

  /** Changing one element changes the sum by the difference. */
  lemma {:induction false} SumToUpdate(a: seq<int>, i: nat, x: int, k: nat)
    requires i < |a| && k <= |a|
    ensures SumTo(a[i := x], k) == SumTo(a, k) + (if i < k then x - a[i] else 0)
  {
    if k > 0 {
      SumToUpdate(a, i, x, k - 1);
    }
  }

  lemma {:induction false} SumToMonotone(a: seq<int>, k: nat)
    requires k <= |a| && forall i :: 0 <= i < |a| ==> a[i] >= 0
    ensures SumTo(a, k) >= 0
    ensures forall i :: 0 <= i < k ==> a[i] <= SumTo(a, k)
  {
    if k > 0 {
      SumToMonotone(a, k - 1);
    }
  }
}
