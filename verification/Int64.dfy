/** The machine's 64-bit signed arithmetic, which wraps. */
module Int64 {

  const Max64: int := 0x7fff_ffff_ffff_ffff

  type int64 = x: int | -Max64 - 1 <= x <= Max64

  function Wrap(x: int): int64 { (x + Max64 + 1) % (2 * Max64 + 2) - Max64 - 1 }

  function Add(x: int64, y: int64): int64 { Wrap(x + y) }

  function Sub(x: int64, y: int64): int64 { Wrap(x - y) }

  const Modulus: int := 2 * Max64 + 2

  lemma WrapDiffers(x: int) returns (q: int)
    ensures Wrap(x) == x - q * Modulus
  {
    q := (x + Max64 + 1) / Modulus;
  }

  lemma WrapUnique(x: int, y: int64, q: int)
    requires x == y + q * Modulus
    ensures Wrap(x) == y
  {
    var r := WrapDiffers(x);
    assert Wrap(x) - y == (q - r) * Modulus;
  }

  lemma WrapInRange(x: int)
    ensures Wrap(x) == x <==> -Max64 - 1 <= x <= Max64
  {
  }

  lemma WrapAdds(x: int, y: int)
    ensures Wrap(Wrap(x) + y) == Wrap(x + y)
  {
    var q := WrapDiffers(x);
    var r := WrapDiffers(x + y);
    WrapUnique(Wrap(x) + y, Wrap(x + y), r - q);
  }

  /** The sign test `x - y < 0`, read as `x < y`, is wrong exactly where the difference does not fit. */
  lemma SignOfDifference(x: int64, y: int64)
    ensures Sub(x, y) >= 0 <==> 0 <= x - y <= Max64 || x - y < -Max64 - 1
  {
    if x - y > Max64 { WrapUnique(x - y, x - y - Modulus, 1); }
    else if x - y < -Max64 - 1 { WrapUnique(x - y, x - y + Modulus, -1); }
    else { WrapUnique(x - y, x - y, 0); }
  }
}
