/**
 The JavaScript number operations the analysis relies on, over exact reals.
 Doubles become rationals, so only the operations' mathematical definitions are kept:
 `%` is the remainder of ECMA-262 (Number::remainder), whose quotient is rounded toward zero.
 */
module JsNumber {

  function Abs(x: real): real
  {
    if x < 0.0 then -x else x
  }

  /** True when `x` is a whole number. */
  predicate IsInteger(x: real)
  {
    x.Floor as real == x
  }

  /** True when `x` is twice a whole number. */
  predicate IsEvenInteger(x: real)
  {
    IsInteger(x / 2.0)
  }

  /** Rounds toward zero. */
  function Trunc(x: real): (t: int)
    ensures Abs(t as real) <= Abs(x) < Abs(t as real) + 1.0
    ensures x >= 0.0 ==> t >= 0
    ensures x <= 0.0 ==> t <= 0
  {
    if x >= 0.0 then x.Floor else -((-x).Floor)
  }

  /** Truncation leaves exactly the whole numbers unchanged. */
  lemma TruncFixesIntegers(y: real)
    ensures Trunc(y) as real == y <==> IsInteger(y)
  {
    if IsInteger(y) {
      var k := y.Floor;
      assert y == k as real;
      if y < 0.0 {
        assert (-y).Floor == -k;
      }
    }
  }

  /**
   `x % 2`: the result has the sign of `x`, is smaller than 2 in magnitude, and differs
   from `x` by a whole multiple of 2. The analysis never takes a remainder by anything else.
   */
  function RemainderTwo(x: real): (rem: real)
    ensures Abs(rem) < 2.0
    ensures x >= 0.0 ==> rem >= 0.0
    ensures x <= 0.0 ==> rem <= 0.0
    ensures IsEvenInteger(x - rem)
  {
    var t := Trunc(x / 2.0);
    assert (x - (x - 2.0 * t as real)) / 2.0 == t as real;
    x - 2.0 * t as real
  }

  /** The source's `x % 2 === 0` holds exactly for the even whole numbers. */
  lemma RemainderTwoZeroIff(x: real)
    ensures RemainderTwo(x) == 0.0 <==> IsEvenInteger(x)
  {
    TruncFixesIntegers(x / 2.0);
  }

  /** Doubling a value gives an even whole number exactly when the value is a whole number. */
  lemma DoubleIsEvenIff(x: real)
    ensures IsEvenInteger(2.0 * x) <==> IsInteger(x)
  {
  }

  /** An even whole number is a whole number. */
  lemma EvenIsInteger(x: real)
    ensures IsEvenInteger(x) ==> IsInteger(x)
  {
    if IsEvenInteger(x) {
      var k := (x / 2.0).Floor;
      assert x == (2 * k) as real;
    }
  }
}
