/** Values shared by every model: optional values, results, and Go's 64-bit integers. */
module Prelude {

  datatype Option<+T> = None | Some(value: T)

  datatype Result<+T, +E> = Ok(value: T) | Err(error: E)

  const TWO_63: int := 0x8000_0000_0000_0000
  const TWO_64: int := 0x1_0000_0000_0000_0000

  /** The value an `int64` holds after an operation whose exact result is `x`. */
  function Wrap64(x: int): (w: int)
    ensures -TWO_63 <= w < TWO_63
    ensures w == x <==> -TWO_63 <= x < TWO_63
    ensures (x - w) % TWO_64 == 0
  {
    (x + TWO_63) % TWO_64 - TWO_63
  }

  predicate Passes(P: nat -> bool, i: nat) {
    P(i) ==> P(i + 1)
  }

  /** What holds at first and passes on at each step holds always. */
  lemma {:induction false} Always(P: nat -> bool, k: nat)
    requires P(0) && forall i: nat :: Passes(P, i)
    ensures P(k)
  {
    if k > 0 {
      Always(P, k - 1);
      assert Passes(P, k - 1);
    }
  }
}
