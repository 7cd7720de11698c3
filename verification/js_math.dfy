/** The JavaScript numeric built-ins the core relies on, on exact reals. */
module JsMath {

  /** `Math.round`: rounds half up, i.e. floor(x + 0.5). */
  function Round(x: real): (n: int)
    ensures x - 0.5 < n as real <= x + 0.5
  {
    (x + 0.5).Floor
  }

  /** `parseFloat(x.toFixed(1))`: x to the nearest tenth, abstracted as exact decimal rounding. */
  function RoundTo1(x: real): (r: real)
    ensures (r * 10.0).Floor as real == r * 10.0
    ensures x - 0.05 < r <= x + 0.05
    ensures x >= 0.0 ==> r >= 0.0
  {
    Round(x * 10.0) as real / 10.0
  }

  /** The one-decimal rounding is the only whole number of tenths in (x - 0.05, x + 0.05]. */
  lemma RoundTo1Unique(x: real, r: real)
    requires (r * 10.0).Floor as real == r * 10.0
    requires x - 0.05 < r <= x + 0.05
    ensures r == RoundTo1(x)
  {
    var n := (r * 10.0).Floor;
    var m := Round(x * 10.0);
    assert x * 10.0 - 0.5 < n as real <= x * 10.0 + 0.5;
    assert x * 10.0 - 0.5 < m as real <= x * 10.0 + 0.5;
    assert n == m;
  }

  /** `Math.abs`. */
  function Abs(x: real): (r: real)
    ensures r >= 0.0 && (r == x || r == -x)
  {
    if x < 0.0 then -x else x
  }

  /** `Math.min` on two reals. */
  function MinReal(a: real, b: real): (r: real)
    ensures r <= a && r <= b && (r == a || r == b)
  {
    if a <= b then a else b
  }

  /** `Math.min(hi, Math.max(lo, x))` on integers: clamp into [lo, hi]. */
  function Clamp(lo: int, hi: int, x: int): (r: int)
    requires lo <= hi
    ensures lo <= r <= hi
    ensures lo <= x <= hi ==> r == x
    ensures x < lo ==> r == lo
    ensures x > hi ==> r == hi
  {
    if x < lo then lo else if x > hi then hi else x
  }
}
