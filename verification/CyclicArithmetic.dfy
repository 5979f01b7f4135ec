/** Places on a ring of `n`: the remainder, defined by going round so that proofs stay linear. */
module CyclicArithmetic {

  function Place(k: nat, n: nat): (p: nat)
    requires n > 0
    ensures p < n
  {
    if k < n then k else Place(k - n, n)
  }

  /** `Place` is the remainder. */
  lemma {:induction false} PlaceIsRemainder(k: nat, n: nat)
    requires n > 0
    ensures Place(k, n) == k % n
  {
    if k >= n {
      PlaceIsRemainder(k - n, n);
      RemainderAfterATurn(k, n);
    } else {
      assert k / n == 0 && k % n == k;
    }
  }

  lemma RemainderAfterATurn(k: nat, n: nat)
    requires n > 0 && k >= n
    ensures k % n == (k - n) % n
  {
    var d := k / n - (k - n) / n - 1;
    assert d * n == (k - n) % n - k % n;
    NoMultipleBetween(d, n);
  }

  lemma NoMultipleBetween(d: int, n: int)
    requires 0 < n && 0 - n < d * n < n
    ensures d == 0
  {}

  lemma {:induction false} PlaceSucc(k: nat, n: nat)
    requires n > 0
    ensures Place(k + 1, n) == if Place(k, n) + 1 == n then 0 else Place(k, n) + 1
  {
    if k >= n { PlaceSucc(k - n, n); }
  }

  lemma {:induction false} PlaceOfTurn(k: nat, n: nat)
    requires n > 0
    ensures Place(k + n, n) == Place(k, n)
  {}

  /** Two counts on the same place, less than a turn apart, are the same count. */
  lemma {:induction false} SamePlace(a: nat, b: nat, n: nat)
    requires n > 0 && a <= b < a + n && Place(a, n) == Place(b, n)
    ensures a == b
  {
    if a >= n { SamePlace(a - n, b - n, n); }
  }

  /** Every place is less than a turn ahead of any count. */
  function Ahead(k: nat, p: nat, n: nat): (j: nat)
    requires p < n
    ensures j < n && Place(k + j, n) == p
    decreases k
  {
    if k < n then
      if p >= k then p - k else p + n - k
    else
      var j := Ahead(k - n, p, n);
      assert Place(k + j, n) == Place(k - n + j, n);
      j
  }
}
