/** Small shared vocabulary: optional values, the range of Math.random(),
    real-number helpers and decimal rendering of naturals. */
module Common {

  /** A value that may be absent (`null`/`undefined` in the source). */
  datatype Option<+T> = None | Some(value: T)

  /** A value drawn by Math.random(): a real in [0, 1). */
  type Unit = r: real | 0.0 <= r < 1.0

  function Abs(x: real): (r: real)
    ensures 0.0 <= r && (r == x || r == -x)
  {
    if x < 0.0 then -x else x
  }

  function Max(a: real, b: real): (r: real)
    ensures a <= r && b <= r && (r == a || r == b)
  {
    if a < b then b else a
  }

  function Min(a: real, b: real): (r: real)
    ensures r <= a && r <= b && (r == a || r == b)
  {
    if a < b then a else b
  }

  /** `Math.floor(r * n)` for a random `r`: always a valid index into a list of length `n`. */
  function FloorIndex(r: Unit, n: nat): (k: nat)
    requires n > 0
    ensures k < n
  {
    var f := (r * n as real).Floor;
    assert r * n as real < n as real by {
      assert (1.0 - r) * n as real > 0.0;
    }
    f
  }

  function DigitChar(d: nat): (c: char)
    requires d < 10
    ensures '0' <= c <= '9'
  {
    "0123456789"[d]
  }

  /** Decimal rendering of a natural, as a template literal prints it. */
  function NatToString(n: nat): (s: string)
    ensures |s| >= 1
    ensures forall i :: 0 <= i < |s| ==> '0' <= s[i] <= '9'
  {
    if n < 10 then [DigitChar(n)] else NatToString(n / 10) + [DigitChar(n % 10)]
  }
}
