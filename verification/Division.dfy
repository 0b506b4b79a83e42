/** Facts about whole division. */
module Division {

  lemma DivStep(d: int, f: int)
    requires 0 < f <= d
    ensures (d - f) / f == d / f - 1 && d / f >= 1
  {
    DivUnique(d - f, f, d / f - 1, d % f);
  }

  lemma DivUnique(d: int, f: int, q: int, r: int)
    requires f > 0 && d == q * f + r && 0 <= r < f
    ensures d / f == q
  {
    MulGrows(d / f - q, f);
    assert (d / f - q) * f == r - d % f;
  }

  lemma MulGrows(a: int, f: int)
    requires f > 0
    ensures a >= 1 ==> a * f >= f
    ensures a <= -1 ==> a * f <= -f
  {
  }
}
