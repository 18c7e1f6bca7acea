/** Arithmetic of Go's int64: results wrap around. */
module Int64 {
  const TWO64 := 0x1_0000_0000_0000_0000
  const TWO63 := 0x8000_0000_0000_0000

  /** The value of an int64 after overflow. */
  function Wrap64(x: int): (r: int)
    ensures -TWO63 <= r < TWO63
    ensures -TWO63 <= x < TWO63 ==> r == x
  {
    if -TWO63 <= x < TWO63 then x else (x + TWO63) % TWO64 - TWO63
  }

  /** Adding to a wrapped total is adding and then wrapping. */
  lemma WrapAdd(a: int, b: int)
    ensures Wrap64(Wrap64(a) + b) == Wrap64(a + b)
  {
    var q := (a - Wrap64(a)) / TWO64;
    WrapMultiple(a);
    assert a == Wrap64(a) + q * TWO64;
    WrapShift(Wrap64(a) + b, q);
  }

  /** Multiplying a wrapped factor is multiplying and then wrapping. */
  lemma WrapTimes(k: int, a: int)
    ensures Wrap64(k * Wrap64(a)) == Wrap64(k * a)
  {
    var r, q := Wrap64(a), (a - Wrap64(a)) / TWO64;
    WrapMultiple(a);
    assert a == r + q * TWO64;
    assert k * a == k * r + k * q * TWO64;
    WrapShift(k * r, k * q);
  }

  /** Sums of numbers that wrap alike wrap alike. */
  lemma WrapCongruent(a: int, b: int, c: int, d: int)
    requires Wrap64(a) == Wrap64(c) && Wrap64(b) == Wrap64(d)
    ensures Wrap64(a + b) == Wrap64(c + d)
  {
    WrapAdd(a, b);
    WrapAdd(c, b);
    WrapAdd(b, c);
    WrapAdd(d, c);
  }

  lemma WrapMultiple(a: int)
    ensures (a - Wrap64(a)) % TWO64 == 0
  {
    if !(-TWO63 <= a < TWO63) {
      var m := (a + TWO63) / TWO64;
      assert a + TWO63 == m * TWO64 + (a + TWO63) % TWO64;
      assert a - Wrap64(a) == m * TWO64;
      ModOfMultiple(m);
    }
  }

  lemma ModOfMultiple(m: int)
    ensures (m * TWO64) % TWO64 == 0
  {}

  /** Wrapping does not see multiples of 2^64. */
  lemma WrapShift(x: int, q: int)
    ensures Wrap64(x + q * TWO64) == Wrap64(x)
  {
    WrapMultiple(x);
    WrapMultiple(x + q * TWO64);
    var r, s := Wrap64(x), Wrap64(x + q * TWO64);
    var u, v := (x - r) / TWO64, (x + q * TWO64 - s) / TWO64;
    assert x == r + u * TWO64 && x + q * TWO64 == s + v * TWO64;
    assert r - s == (v - u - q) * TWO64;
    assert -TWO64 < r - s < TWO64;
  }
}
