/** Go's int64: two's-complement values whose arithmetic wraps around modulo 2^64. */
module GoInt {

  const Modulus: int := 0x1_0000_0000_0000_0000
  const MinInt64: int := -0x8000_0000_0000_0000
  const MaxInt64: int := 0x7FFF_FFFF_FFFF_FFFF

  type int64 = x: int | -0x8000_0000_0000_0000 <= x < 0x8000_0000_0000_0000

  /** k whole turns of 2^64. */
  function Turns(k: int): int {
    k * 0x1_0000_0000_0000_0000
  }

  /** x and y differ by whole turns of 2^64. */
  ghost predicate Congruent(x: int, y: int) {
    exists k :: x - y == Turns(k)
  }

  /** Two int64 values that differ by whole turns of 2^64 are equal. */
  lemma CongruentUnique(r: int64, s: int64)
    requires Congruent(r, s)
    ensures r == s
  {
    var k :| r - s == Turns(k);
  }

  /** Some int64 differs from x by whole turns of 2^64. */
  lemma CongruentExists(x: int)
    ensures exists r: int64 :: Congruent(x, r)
  {
    var w: int64 := (x - MinInt64) % Modulus + MinInt64;
    assert x - w == Turns((x - MinInt64) / Modulus);
    assert Congruent(x, w);
  }

  /** The int64 that Go's wrapping arithmetic yields for the mathematical value x: the one
      int64 that differs from x by whole turns of 2^64. */
  ghost function Wrap(x: int): (r: int64)
    ensures MinInt64 <= x <= MaxInt64 ==> r == x
  {
    CongruentExists(x);
    var r: int64 :| Congruent(x, r);
    if MinInt64 <= x <= MaxInt64 then
      assert x - x == Turns(0);
      CongruentUnique(r, x);
      r
    else r
  }

  /** Wrap is the only int64 congruent to x. */
  lemma WrapUnique(x: int, r: int64)
    requires Congruent(x, r)
    ensures Wrap(x) == r
  {
    var j :| x - r == Turns(j);
    var k :| x - Wrap(x) == Turns(k);
    assert Wrap(x) - r == Turns(j - k);
    CongruentUnique(Wrap(x), r);
  }

  /** Adding an already wrapped value is the same as adding the exact one: Go's `+=` on
      int64 accumulates the wrapped sum of the exact values. */
  lemma WrapAdd(a: int, b: int)
    ensures Wrap(Wrap(a) + b) == Wrap(a + b)
  {
    var j :| a - Wrap(a) == Turns(j);
    var k :| a + b - Wrap(a + b) == Turns(k);
    assert Wrap(a) + b - Wrap(a + b) == Turns(k - j);
    WrapUnique(Wrap(a) + b, Wrap(a + b));
  }

  /** Adding two wrapped values wraps to the wrapped exact sum. */
  lemma WrapAddWrapped(a: int, b: int)
    ensures Wrap(Wrap(a) + Wrap(b)) == Wrap(a + b)
  {
    WrapAdd(a, Wrap(b));
    WrapAdd(b, a);
  }

  /** Go's int64 `a + b`. */
  method Add(a: int64, b: int64) returns (r: int64)
    ensures r == Wrap(a + b)
  {
    r := (a + b - MinInt64) % Modulus + MinInt64;
    assert a + b - r == Turns((a + b - MinInt64) / Modulus);
    WrapUnique(a + b, r);
  }

  /** Go's int64 `a - b`. */
  method Sub(a: int64, b: int64) returns (r: int64)
    ensures r == Wrap(a - b)
  {
    r := (a - b - MinInt64) % Modulus + MinInt64;
    assert a - b - r == Turns((a - b - MinInt64) / Modulus);
    WrapUnique(a - b, r);
  }
}
