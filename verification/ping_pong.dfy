/** The ping-pong auto-scroll shared by the list and checkbox widgets
    (src/form/ListElement.h and src/form/CheckBoxElement.h): an offset
    moves one character per step and bounces between 0 and the largest
    offset at which the visible window still ends inside the text. */
module PingPong {

  /** scrollOffset and scrollDirection (+1 right, -1 left). */
  datatype Scroll = Scroll(offset: int, direction: int)

  /** The state after setEditing, construction, or a reset in draw. */
  const Start: Scroll := Scroll(0, 1)

  /** One scroll step with the largest offset `maxOffset` (the text length
      minus the visible width): advance, then clamp at an end and reverse. */
  function Step(s: Scroll, maxOffset: nat): (r: Scroll)
    ensures 0 <= r.offset <= maxOffset
    ensures s.offset + s.direction > maxOffset ==> r == Scroll(maxOffset, -1)
    ensures s.offset + s.direction < 0 ==> r == Scroll(0, 1)
    ensures 0 <= s.offset + s.direction <= maxOffset ==> r == Scroll(s.offset + s.direction, s.direction)
  {
    var o := s.offset + s.direction;
    if o > maxOffset then Scroll(maxOffset, -1)
    else if o < 0 then Scroll(0, 1)
    else Scroll(o, s.direction)
  }

  /** `n` consecutive steps. */
  function Iterate(s: Scroll, maxOffset: nat, n: nat): Scroll
    decreases n
  {
    if n == 0 then s else Iterate(Step(s, maxOffset), maxOffset, n - 1)
  }

  /** Every state reached after at least one step lies in [0, maxOffset]. */
  lemma {:induction false} IterateInRange(s: Scroll, maxOffset: nat, n: nat)
    requires n >= 1 || 0 <= s.offset <= maxOffset
    ensures 0 <= Iterate(s, maxOffset, n).offset <= maxOffset
    decreases n
  {
    if n > 0 {
      IterateInRange(Step(s, maxOffset), maxOffset, n - 1);
    }
  }

  lemma {:induction false} Rightward(k: nat, m: nat, rest: nat)
    requires k <= m
    ensures Iterate(Scroll(k, 1), m, (m - k) + rest) == Iterate(Scroll(m, 1), m, rest)
    decreases m - k
  {
    if k < m {
      assert Step(Scroll(k, 1), m) == Scroll(k + 1, 1);
      Rightward(k + 1, m, rest);
    }
  }

  lemma {:induction false} Leftward(k: nat, m: nat, rest: nat)
    requires k <= m
    ensures Iterate(Scroll(k, -1), m, k + rest) == Iterate(Scroll(0, -1), m, rest)
  {
    if k > 0 {
      assert Step(Scroll(k, -1), m) == Scroll(k - 1, -1);
      Leftward(k - 1, m, rest);
    }
  }

  /** A full cycle: from the start, the offset reaches maxOffset after
      maxOffset steps, and after 2 * maxOffset + 2 steps the scroll is back
      at the start, having bounced once at each end. */
  lemma FullCycle(m: nat)
    requires m >= 1
    ensures Iterate(Start, m, m) == Scroll(m, 1)
    ensures Iterate(Start, m, 2 * m + 2) == Start
  {
    Rightward(0, m, 0);
    Rightward(0, m, m + 2);
    assert Step(Scroll(m, 1), m) == Scroll(m, -1);
    assert Iterate(Scroll(m, 1), m, m + 2) == Iterate(Scroll(m, -1), m, m + 1);
    Leftward(m, m, 1);
    assert Step(Scroll(0, -1), m) == Start;
  }
}
