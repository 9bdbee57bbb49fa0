/** 64-bit two's complement integers. */
module Words {

  const TWO_63: int := 0x8000_0000_0000_0000

  /** The value x wraps around to. */
  function Wrap(x: int): int { (x + TWO_63) % (2 * TWO_63) - TWO_63 }

  lemma WrapSame(x: int)
    ensures -TWO_63 <= Wrap(x) < TWO_63
    ensures Wrap(x) == x <==> -TWO_63 <= x < TWO_63
    ensures x >= 0 ==> Wrap(x) <= x
    ensures (Wrap(x) - x) % (2 * TWO_63) == 0
  {
    assert x >= TWO_63 ==> (x + TWO_63) % (2 * TWO_63) < x + TWO_63;
  }
}
