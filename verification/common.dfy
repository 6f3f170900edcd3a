/** Shared vocabulary of the input pipeline: the gesture event record of
    ButtonManager.h, the names the navigators compare against, and the
    fixed-width C/Arduino arithmetic the widgets rely on. */
module Common {

  datatype Option<T> = None | Some(value: T)

  /** ButtonAction: the classification of one gesture. */
  datatype Action = NoAction | ShortClick | LongPress | DoubleClick

  /** A GPIO pin number (uint8_t). */
  type Pin = p: int | 0 <= p < 0x100

  /** ButtonEvent: which button (by configured name and pin) did what. */
  datatype Event = Event(buttonName: string, buttonPin: Pin, action: Action)

  /** The event that `update` starts from and `getAction` leaves behind. */
  const NoEvent: Event := Event("", 0, NoAction)

  const UP: string := "UP"
  const DOWN: string := "DOWN"
  const LEFT: string := "LEFT"
  const RIGHT: string := "RIGHT"
  const CENTER: string := "CENTER"

  predicate IsShort(e: Event, name: string) {
    e.action == ShortClick && e.buttonName == name
  }

  predicate IsDouble(e: Event, name: string) {
    e.action == DoubleClick && e.buttonName == name
  }

  const TWO_32: int := 0x1_0000_0000
  const TWO_16: int := 0x1_0000

  /** A value of millis(): an `unsigned long`, 32 bits wide on the target. */
  type Millis = t: int | 0 <= t < 0x1_0000_0000

  /** `now - since` computed on `unsigned long`: wraps around modulo 2^32. */
  function Elapsed(now: Millis, since: Millis): (d: Millis)
    ensures since <= now ==> d == now - since
    ensures now < since ==> d == now - since + TWO_32
  {
    (now - since) % TWO_32
  }

  /** Conversion to `uint16_t`. */
  function U16(x: int): (r: nat)
    ensures r < TWO_16
    ensures 0 <= x < TWO_16 ==> r == x
  {
    x % TWO_16
  }

  /** C/C++ integer division, truncating toward zero (b > 0). */
  function TruncDiv(a: int, b: int): (q: int)
    requires b > 0
    ensures a >= 0 ==> q == a / b
    ensures a < 0 ==> q == -((-a) / b)
  {
    if a >= 0 then a / b else -((-a) / b)
  }

  /** C/C++ remainder: takes the sign of the dividend (b > 0). */
  function CRem(a: int, b: int): (r: int)
    requires b > 0
    ensures a == TruncDiv(a, b) * b + r
    ensures a >= 0 ==> 0 <= r < b
    ensures a < 0 ==> -b < r <= 0
  {
    a - TruncDiv(a, b) * b
  }

  /** Arduino `constrain(x, low, high)`. */
  function Constrain(x: int, low: int, high: int): (r: int)
    requires low <= high
    ensures low <= r <= high
    ensures low <= x <= high ==> r == x
    ensures x < low ==> r == low
    ensures x > high ==> r == high
  {
    if x < low then low else if x > high then high else x
  }

  function Min(a: int, b: int): int { if a <= b then a else b }
  function Max(a: int, b: int): int { if a >= b then a else b }

  /** `len > width` where `len` is an unsigned string length and `width` a
      signed int converted to unsigned for the comparison: a negative width
      never compares as smaller (lengths are taken below 2^31). */
  predicate LongerThan(len: nat, width: int) {
    width >= 0 && len > width
  }

  /** Arduino `String::substring(left, right)`: the bounds are swapped when
      out of order, the right bound is clipped to the length, and a left bound
      at or past the end gives the empty string. Bounds are `unsigned int`. */
  function Substring<T>(s: seq<T>, left: int, right: int): (r: seq<T>)
    ensures 0 <= left <= right <= |s| && right < TWO_32 ==> r == s[left..right]
    ensures 0 <= left <= |s| <= right < TWO_32 ==> r == s[left..]
    ensures |r| <= |s|
  {
    var l0 := left % TWO_32;
    var r0 := right % TWO_32;
    var l := Min(l0, r0);
    var r := Max(l0, r0);
    if l >= |s| then [] else s[l..Min(r, |s|)]
  }

  /** `n` spaces. */
  function Spaces(n: nat): (r: string)
    ensures |r| == n
    ensures forall i :: 0 <= i < n ==> r[i] == ' '
  {
    seq(n, _ => ' ')
  }

  /** `s` with spaces appended until it is at least `n` long. */
  function PadTo(s: string, n: nat): (r: string)
    ensures |r| == Max(|s|, n)
    ensures r[..|s|] == s
    ensures forall i :: |s| <= i < |r| ==> r[i] == ' '
  {
    if |s| >= n then s else s + Spaces(n - |s|)
  }
}
