/** Two's-complement 32-bit arithmetic, as the test-vector code gets it from C++:
    `seed + i` with an `unsigned int i` is computed modulo 2^32 and stored back
    into an `int`, and so is `i * (-1000)`. */
module Int32 {
  const TwoTo31: int := 0x8000_0000
  const TwoTo32: int := 0x1_0000_0000

  /** The values of a C `int`. */
  type int32 = x: int | -0x8000_0000 <= x < 0x8000_0000

  /** The values of a C `unsigned int`. */
  type uint32 = x: nat | x < 0x1_0000_0000

  /** `x` and `y` are equal modulo 2^32. */
  predicate Congruent(x: int, y: int) {
    (x - y) % TwoTo32 == 0
  }

  /** The `int` that an arithmetic result `x` becomes when it is computed in
      32 bits: the unique value of the `int` range congruent to `x`. */
  function Wrap(x: int): (r: int32)
    ensures Congruent(r, x)
    ensures -TwoTo31 <= x < TwoTo31 ==> r == x
  {
    var r := (x + TwoTo31) % TwoTo32 - TwoTo31;
    assert r - x == -TwoTo32 * ((x + TwoTo31) / TwoTo32);
    r
  }

  /** 32-bit addition, as an adder with 32-bit lanes computes it. */
  function Add(a: int32, b: int32): (r: int32)
    ensures Congruent(r, a + b)
    ensures -TwoTo31 <= a + b < TwoTo31 ==> r == a + b
  {
    Wrap(a + b)
  }

  /** Congruent arguments wrap to the same `int`. */
  lemma WrapCongruent(x: int, y: int)
    requires Congruent(x, y)
    ensures Wrap(x) == Wrap(y)
  {
    var k := (x - y) / TwoTo32;
    assert x == y + k * TwoTo32;
    var rx, ry := Wrap(x), Wrap(y);
    assert Congruent(rx, ry) by {
      assert rx - ry == (rx - x) + (x - y) + (y - ry);
      CongruentSum(rx - x, x - y, y - ry);
    }
    assert -TwoTo32 < rx - ry < TwoTo32;
    ZeroModInRange(rx - ry);
  }

  lemma CongruentSum(a: int, b: int, c: int)
    requires a % TwoTo32 == 0 && b % TwoTo32 == 0 && c % TwoTo32 == 0
    ensures (a + b + c) % TwoTo32 == 0
  {
    var qa, qb, qc := a / TwoTo32, b / TwoTo32, c / TwoTo32;
    assert a + b + c == (qa + qb + qc) * TwoTo32;
  }

  lemma ZeroModInRange(d: int)
    requires -TwoTo32 < d < TwoTo32
    requires d % TwoTo32 == 0
    ensures d == 0
  {
  }

  /** Wrapping an operand first does not change a wrapped sum: the adder
      computes the same lane value whatever multiple of 2^32 the operands were
      computed with. */
  lemma {:induction false} WrapSum(a: int, b: int)
    ensures Wrap(Wrap(a) + Wrap(b)) == Wrap(a + b)
  {
    var wa, wb := Wrap(a), Wrap(b);
    assert Congruent(wa + wb, a + b) by {
      assert (wa + wb) - (a + b) == (wa - a) + (wb - b) + 0;
      CongruentSum(wa - a, wb - b, 0);
    }
    WrapCongruent(wa + wb, a + b);
  }
}
