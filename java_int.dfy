/** Java's 32-bit int arithmetic, written out where the source relies on it. */
module JavaInt {

  const IntMin: int := -0x8000_0000
  const IntMax: int := 0x7FFF_FFFF

  /** Truncation toward zero, as a Java `(int)` cast of a double does before clamping. */
  function TruncateTowardZero(d: real): (r: int)
    ensures d >= 0.0 ==> r as real <= d < r as real + 1.0
    ensures d < 0.0 ==> r as real - 1.0 < d <= r as real
  {
    if d >= 0.0 then d.Floor else -((-d).Floor)
  }

  /** The Java cast `(int) d` of a double: truncation, clamped to the int range. */
  function DoubleToInt(d: real): (r: int)
    ensures IntMin <= r <= IntMax
    ensures IntMin as real <= d < IntMax as real + 1.0 ==> r == TruncateTowardZero(d)
    ensures d >= IntMax as real ==> r == IntMax
    ensures d <= IntMin as real ==> r == IntMin
  {
    var t := TruncateTowardZero(d);
    if t < IntMin then IntMin else if t > IntMax then IntMax else t
  }

  /** Two's-complement wrap-around of an int product or sum. */
  function Wrap32(n: int): (r: int)
    ensures IntMin <= r <= IntMax
    ensures (n - r) % 0x1_0000_0000 == 0
    ensures IntMin <= n <= IntMax ==> r == n
  {
    var m := (n - IntMin) % 0x1_0000_0000;
    m + IntMin
  }
}
