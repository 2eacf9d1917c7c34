/** Scalar helpers of the math library (util.c, util.h) and the C math routines it calls. */
module Util {

  /** 2.0f * (float) M_PI, the single-precision value the library uses for a full turn. */
  const TwoPi: real := 6.283185482025146484375

  /** The factor of DEG_TO_RAD. */
  const DegToRad: real := 0.017453293

  /** sqrtf, sinf and cosf. The model does not define square roots or trigonometry, so every
      kernel operation that calls them takes the three routines as a parameter. */
  datatype Libm = Libm(sqrt: real -> real, sin: real -> real, cos: real -> real)

  /** x moved by k whole turns */
  function Turned(x: real, k: int): real {
    x + k as real * TwoPi
  }

  /** x with maxValue subtracted k times */
  function Reduced(x: real, maxValue: real, k: nat): real {
    x - k as real * maxValue
  }

  /** clampRadians: a nonnegative angle is reduced by whole turns while it exceeds a full turn
      (strictly, so a full turn itself is kept); a negative angle is raised by whole turns until it
      is no longer negative. */
  method ClampRadians(radianValue: real) returns (r: real)
    ensures 0.0 <= radianValue ==> 0.0 <= r <= TwoPi
    ensures radianValue < 0.0 ==> 0.0 <= r < TwoPi
    ensures 0.0 <= radianValue <= TwoPi ==> r == radianValue
    ensures exists k: int :: r == Turned(radianValue, k)
  {
    r := radianValue;
    ghost var k: int := 0;
    if r >= 0.0 {
      while r > TwoPi
        invariant 0.0 <= r
        invariant r == Turned(radianValue, k)
        invariant radianValue <= TwoPi ==> k == 0
        decreases (r / TwoPi).Floor
      {
        r := r - TwoPi;
        k := k - 1;
      }
    } else {
      while r < 0.0
        invariant r < TwoPi
        invariant r == Turned(radianValue, k)
        decreases -((r / TwoPi).Floor)
      {
        r := r + TwoPi;
        k := k + 1;
      }
    }
  }

  lemma MulMonotone(a: real, b: real, c: real)
    requires a <= b && 0.0 < c
    ensures a * c <= b * c
  {}

  lemma MulStrict(a: real, b: real, c: real)
    requires a < b && 0.0 < c
    ensures a * c < b * c
  {}

  /** the number of whole times 0 < maxValue fits into value */
  lemma WholeTimes(value: real, maxValue: real) returns (n: int)
    requires 0.0 < maxValue
    ensures n as real * maxValue <= value
    ensures value < (n + 1) as real * maxValue
  {
    n := (value / maxValue).Floor;
    var hi := (n + 1) as real;
    ScaledBounds(value / maxValue, n as real, hi, maxValue);
    assert value / maxValue * maxValue == value;
    assert value < hi * maxValue;
  }

  lemma ScaledBounds(q: real, lo: real, hi: real, c: real)
    requires 0.0 < c && lo <= q < hi
    ensures lo * c <= q * c < hi * c
  {
    MulMonotone(lo, q, c);
    MulStrict(q, hi, c);
  }

  /** clampValue: subtracts maxValue while the value is at least maxValue. The loop runs forever
      when maxValue <= 0 and value >= maxValue, so those inputs are excluded. */
  method ClampValue(value: real, maxValue: real) returns (r: real)
    requires value < maxValue || 0.0 < maxValue
    ensures value < maxValue ==> r == value
    ensures 0.0 < maxValue ==> r < maxValue
    ensures maxValue <= value ==> 0.0 <= r
    ensures exists k: nat :: r == Reduced(value, maxValue, k)
  {
    r := value;
    ghost var k: nat := 0;
    if value < maxValue {
      assert r == Reduced(value, maxValue, 0);
      return;
    }
    ghost var n := WholeTimes(value, maxValue);
    while r >= maxValue
      invariant r == Reduced(value, maxValue, k)
      invariant 0.0 <= r
      invariant k <= n
      decreases n - k
    {
      if k == n {
        assert false;
      }
      r := r - maxValue;
      k := k + 1;
    }
  }
}
