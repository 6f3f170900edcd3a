/** The checkbox of src/form/CheckBoxElement.h: UP checks, DOWN clears and
    CENTER toggles while editing; a label too long for the row scrolls
    ping-pong while the element is selected and is cut otherwise. */
module CheckBox {
  import opened Common
  import PingPong

  /** getHeight. */
  const ELEMENT_HEIGHT: int := 14
  const SCROLL_INTERVAL: int := 200

  /** Label characters that fit right of the box (4 px inset, 10 px box,
      3 px margin). */
  function MaxVisibleChars(elementWidth: int): int
  {
    TruncDiv(elementWidth - (4 + 10 + 3), 6)
  }

  class CheckBoxElement {
    const labelText: string
    var isChecked: bool
    var isEditing: bool
    var isSelected: bool
    var lastScrollTime: Millis
    var scrollOffset: int
    var scrollDirection: int

    ghost predicate Valid()
      reads this
    {
      0 <= scrollOffset && (scrollDirection == 1 || scrollDirection == -1)
    }

    /** The events handleInput consumes: while editing, a short UP, DOWN or
        CENTER, or a double CENTER. */
    predicate Consumes(e: Event)
      reads this
    {
      isEditing &&
      (IsShort(e, UP) || IsShort(e, DOWN) || IsShort(e, CENTER) || IsDouble(e, CENTER))
    }

    constructor(labelText: string, defaultState: bool)
      ensures Valid()
      ensures this.labelText == labelText && isChecked == defaultState
      ensures !isEditing && !isSelected && lastScrollTime == 0
      ensures PingPong.Scroll(scrollOffset, scrollDirection) == PingPong.Start
    {
      this.labelText := labelText;
      isChecked := defaultState;
      isEditing := false;
      isSelected := false;
      lastScrollTime := 0;
      scrollOffset := 0;
      scrollDirection := 1;
    }

    /** The scroll step of draw, from scroll `s0` last stepped at `time0`,
        when `maxVisibleChars` label characters fit: while selected with a
        label too long, a ping-pong step every 200 ms (the bounds are tested
        in the other order than the list widget's, to the same effect);
        otherwise a reset to the left. */
    predicate ScrollStepped(s0: PingPong.Scroll, time0: Millis, maxVisibleChars: int, now: Millis)
      reads this
    {
      var s := PingPong.Scroll(scrollOffset, scrollDirection);
      if isSelected && LongerThan(|labelText|, maxVisibleChars) then
        if Elapsed(now, time0) > SCROLL_INTERVAL then
          s == PingPong.Step(s0, |labelText| - maxVisibleChars) &&
          0 <= scrollOffset <= |labelText| - maxVisibleChars && lastScrollTime == now
        else s == s0 && lastScrollTime == time0
      else s == PingPong.Start && lastScrollTime == time0
    }

    /** The state-changing part of draw, and the label text drawn: after
        the scroll step, a selected label too long shows the window at the
        offset; any other is cut to fit. */
    method Draw(elementWidth: int, now: Millis) returns (shown: string)
      requires Valid()
      modifies this`scrollOffset, this`scrollDirection, this`lastScrollTime
      ensures Valid()
      ensures ScrollStepped(PingPong.Scroll(old(scrollOffset), old(scrollDirection)), old(lastScrollTime), MaxVisibleChars(elementWidth), now)
      ensures var mv := MaxVisibleChars(elementWidth);
        shown == if isSelected && LongerThan(|labelText|, mv) then Substring(labelText, scrollOffset, scrollOffset + mv)
          else if LongerThan(|labelText|, mv) then Substring(labelText, 0, mv)
          else labelText
      ensures var mv := MaxVisibleChars(elementWidth);
        !isSelected && LongerThan(|labelText|, mv) && |labelText| < TWO_32 ==>
          shown == labelText[..mv] && |shown| == mv
      ensures var mv := MaxVisibleChars(elementWidth);
        isSelected && LongerThan(|labelText|, mv) && scrollOffset <= |labelText| - mv && |labelText| < TWO_32 ==>
          shown == labelText[scrollOffset..scrollOffset + mv] && |shown| == mv
    {
      var maxVisibleChars := MaxVisibleChars(elementWidth);
      shown := labelText;
      if isSelected && LongerThan(|labelText|, maxVisibleChars) {
        if Elapsed(now, lastScrollTime) > SCROLL_INTERVAL {
          scrollOffset := scrollOffset + scrollDirection;
          if scrollOffset < 0 {
            scrollOffset := 0;
            scrollDirection := 1;
          } else if scrollOffset > |labelText| - maxVisibleChars {
            scrollOffset := |labelText| - maxVisibleChars;
            scrollDirection := -1;
          }
          lastScrollTime := now;
        }
        shown := Substring(labelText, scrollOffset, scrollOffset + maxVisibleChars);
      } else {
        scrollOffset := 0;
        scrollDirection := 1;
        if LongerThan(|labelText|, maxVisibleChars) {
          shown := Substring(labelText, 0, maxVisibleChars);
        }
      }
    }

    /** setEditing changes the editing flag and nothing else. */
    method SetEditing(editing: bool)
      modifies this`isEditing
      ensures isEditing == editing
    {
      isEditing := editing;
    }

    method SetSelected(select: bool)
      modifies this`isSelected
      ensures isSelected == select
    {
      isSelected := select;
    }

    /** handleInput: returns whether the event was consumed. */
    method HandleInput(e: Event) returns (handled: bool)
      requires Valid()
      modifies this`isChecked, this`isEditing
      ensures Valid()
      ensures handled == old(Consumes(e))
      ensures !handled ==> isChecked == old(isChecked) && isEditing == old(isEditing)
      ensures handled && IsShort(e, UP) ==> isChecked && isEditing
      ensures handled && IsShort(e, DOWN) ==> !isChecked && isEditing
      ensures handled && IsShort(e, CENTER) ==> isChecked == !old(isChecked) && isEditing
      ensures handled && IsDouble(e, CENTER) ==> isChecked == old(isChecked) && !isEditing
    {
      if !isEditing {
        return false;
      }
      handled := false;
      if e.action == ShortClick {
        if e.buttonName == UP {
          isChecked := true;
          handled := true;
        } else if e.buttonName == DOWN {
          isChecked := false;
          handled := true;
        } else if e.buttonName == CENTER {
          isChecked := !isChecked;
          handled := true;
        }
      } else if e.action == DoubleClick && e.buttonName == CENTER {
        SetEditing(false);
        handled := true;
      }
    }
  }
}
