/**
 The JavaScript `Math` functions the photo simulator relies on: `Math.round`,
 `Math.max` and `Math.min`, stated over exact (unbounded) numbers.

 The clamps come in an `int` and a `real` version because Dafny has no ordered
 type covering both: the chin height is clamped as an integer pixel count, the
 shoulder line and torso height as unrounded reals. The integer `Min` models
 no call in the component; it only serves to state closed forms.
 */
module JsMath {

  /** `Math.round`: the integer nearest to `x`, ties going towards +infinity. */
  function Round(x: real): (r: int)
    ensures r as real - 0.5 <= x < r as real + 0.5
  {
    (x + 0.5).Floor
  }

  /** The half-open window of `Round`'s contract pins the result down uniquely. */
  lemma RoundUnique(x: real, n: int)
    requires n as real - 0.5 <= x < n as real + 0.5
    ensures Round(x) == n
  {
  }

  /** Rounding an integral value gives that integer back. */
  lemma RoundIntegral(n: int)
    ensures Round(n as real) == n
  {
    RoundUnique(n as real, n);
  }

  /** Rounding never reverses the order of its arguments. */
  lemma RoundMonotone(x: real, y: real)
    requires x <= y
    ensures Round(x) <= Round(y)
  {
  }

  /**
   Rounding `num / 100` for an integer `num` is integer floor division of
   `num + 50` by 100: the integer form of `Math.round` on a value with two
   decimal places.
   */
  lemma RoundHundredths(num: int)
    ensures Round(num as real / 100.0) == (num + 50) / 100
  {
    var n := (num + 50) / 100;
    assert 100 * n <= num + 50 < 100 * n + 100;
    assert (100 * n) as real == 100.0 * n as real;
    RoundUnique(num as real / 100.0, n);
  }

  function Max(a: int, b: int): (r: int)
    ensures r >= a && r >= b
    ensures r == a || r == b
  {
    if a >= b then a else b
  }

  function Min(a: int, b: int): (r: int)
    ensures r <= a && r <= b
    ensures r == a || r == b
  {
    if a <= b then a else b
  }

  function MaxReal(a: real, b: real): (r: real)
    ensures r >= a && r >= b
    ensures r == a || r == b
  {
    if a >= b then a else b
  }

  function MinReal(a: real, b: real): (r: real)
    ensures r <= a && r <= b
    ensures r == a || r == b
  {
    if a <= b then a else b
  }
}
