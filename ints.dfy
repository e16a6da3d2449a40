/** Fixed-width integers of the game core.
    Positions, sizes and velocities are Rust `i16`, animation frames are `u8`.
    Arithmetic on `i16` is modelled with two's-complement wrap-around
    (the behaviour of a release build, where overflow checks are off). */
module Ints {

  const I16_MIN: int := -0x8000
  const I16_MAX: int := 0x7FFF
  const I16_MODULUS: int := 0x1_0000

  type I16 = x: int | I16_MIN <= x <= I16_MAX
  type U8 = x: int | 0 <= x <= 0xFF

  predicate InI16(v: int) { I16_MIN <= v <= I16_MAX }

  /** The `i16` value an unbounded integer result wraps to. */
  function Wrap16(v: int): I16 {
    (v + 0x8000) % I16_MODULUS - 0x8000
  }

  /** The wrapped value is congruent to `v` modulo 2^16. */
  lemma WrapCongruent(v: int)
    ensures (v - Wrap16(v)) % I16_MODULUS == 0
  {
  }

  /** An `i16` congruent to `v` modulo 2^16 is the wrapped value of `v`. */
  lemma WrapUnique(v: int, r: int)
    requires InI16(r)
    requires (v - r) % I16_MODULUS == 0
    ensures r == Wrap16(v)
  {
    var w := Wrap16(v);
    var q1 := (v - r) / I16_MODULUS;
    var q2 := (v - w) / I16_MODULUS;
    assert v - r == I16_MODULUS * q1;
    assert v - w == I16_MODULUS * q2;
    assert r - w == I16_MODULUS * (q2 - q1);
    assert q2 - q1 == 0;
  }

  /** Wrapping an intermediate result does not change a wrapped sum. */
  lemma WrapAddLeft(a: int, b: int)
    ensures Wrap16(Wrap16(a) + b) == Wrap16(a + b)
  {
    var w := Wrap16(a + b);
    var qa := (a - Wrap16(a)) / I16_MODULUS;
    var qs := (a + b - w) / I16_MODULUS;
    assert a - Wrap16(a) == I16_MODULUS * qa;
    assert a + b - w == I16_MODULUS * qs;
    assert Wrap16(a) + b - w == I16_MODULUS * (qs - qa);
    assert (Wrap16(a) + b - w) % I16_MODULUS == 0;
    WrapUnique(Wrap16(a) + b, w);
  }

  lemma WrapAddRight(a: int, b: int)
    ensures Wrap16(a + Wrap16(b)) == Wrap16(a + b)
  {
    WrapAddLeft(b, a);
  }

  lemma WrapAddBoth(a: int, b: int)
    ensures Wrap16(Wrap16(a) + Wrap16(b)) == Wrap16(a + b)
  {
    WrapAddLeft(a, Wrap16(b));
    WrapAddRight(a, b);
  }

  /** Wrapping both operands does not change a wrapped difference. */
  lemma WrapSubBoth(a: int, b: int)
    ensures Wrap16(Wrap16(a) - Wrap16(b)) == Wrap16(a - b)
  {
    var w := Wrap16(a - b);
    var qa := (a - Wrap16(a)) / I16_MODULUS;
    var qb := (b - Wrap16(b)) / I16_MODULUS;
    var qs := (a - b - w) / I16_MODULUS;
    assert a - Wrap16(a) == I16_MODULUS * qa;
    assert b - Wrap16(b) == I16_MODULUS * qb;
    assert a - b - w == I16_MODULUS * qs;
    assert Wrap16(a) - Wrap16(b) - w == I16_MODULUS * (qs - qa + qb);
    WrapUnique(Wrap16(a) - Wrap16(b), w);
  }

  /** Wrapped addition of `d` and then of `-d` is the identity on `i16`. */
  lemma WrapAddInverse(x: I16, d: int)
    ensures Wrap16(Wrap16(x + d) + Wrap16(-d)) == x
  {
    WrapAddLeft(x + d, Wrap16(-d));
    WrapAddRight(x + d, -d);
  }

  /** Moving two values by the same distance keeps their wrapped difference. */
  lemma WrapShiftDiff(a: int, b: int, d: int, a2: int, b2: int)
    requires a2 == Wrap16(a + d) && b2 == Wrap16(b + d)
    ensures Wrap16(a2 - b2) == Wrap16(a - b)
  {
    WrapSubBoth(a + d, b + d);
    assert a + d - (b + d) == a - b;
  }

  /** Two wrapped additions commute. */
  lemma WrapAddCommute(x: int, a: int, b: int)
    ensures Wrap16(Wrap16(x + a) + b) == Wrap16(Wrap16(x + b) + a)
  {
    WrapAddLeft(x + a, b);
    WrapAddLeft(x + b, a);
    assert x + a + b == x + b + a;
  }

  /** With an offset `o`, a middle span `[x + o, x + o + (w - 2o))` ends at `x + w - o`. */
  lemma WrapInnerSpan(x: int, w: int, o: int, innerRight: int, outerLeft: int)
    requires innerRight == Wrap16(Wrap16(x + o) + Wrap16(w - o * 2))
    requires outerLeft == Wrap16(Wrap16(x + w) - o)
    ensures innerRight == outerLeft
  {
    WrapAddBoth(x + o, w - o * 2);
    WrapAddLeft(x + w, -o);
    assert x + o + (w - o * 2) == x + w + -o;
  }

  /** Stepping back by `o` and forward by `o` returns to the wrapped start. */
  lemma WrapBackAndForth(v: int, o: int, there: int, here: int)
    requires there == Wrap16(Wrap16(Wrap16(v) - o) + o)
    requires here == Wrap16(v)
    ensures there == here
  {
    WrapAddLeft(v, -o);
    WrapAddLeft(v - o, o);
    assert v - o + o == v;
  }

  /** Moving the start of a span `[x, x + w)` in by `a` and shrinking its width by `b`
      moves its end in by `c = b - a`. */
  lemma WrapInsetEnd(x: int, w: int, a: int, b: int, c: int, insetEnd: int, end: int)
    requires c == b - a
    requires insetEnd == Wrap16(Wrap16(x + a) + Wrap16(w - b))
    requires end == Wrap16(x + w)
    ensures insetEnd == Wrap16(end - c)
  {
    WrapAddBoth(x + a, w - b);
    WrapAddLeft(x + w, -c);
    assert x + a + (w - b) == x + w + -c;
  }

  datatype Option<T> = None | Some(value: T)
}
