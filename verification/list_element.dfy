/** The option selector of src/form/ListElement.h: LEFT/RIGHT step through
    a fixed list of options while editing, the selected option scrolls
    ping-pong when it does not fit, and edge markers show when the
    selection is at either end. */
module ListWidget {
  import opened Common
  import PingPong

  /** getHeight. */
  const ELEMENT_HEIGHT: int := 22
  const SCROLL_INTERVAL: int := 200

  /** Characters of the value that fit between the two markers. */
  function MaxVisibleChars(elementWidth: int): int
  {
    TruncDiv(elementWidth - 2 * 4 - 2 * 6, 6)
  }

  /** The markers drawn left and right of the value: while editing, '|'
      replaces '<' at the first option and '>' at the last one. */
  function Markers(editing: bool, selectedIndex: int, size: int): (r: (string, string))
    ensures !editing ==> r == ("<", ">")
    ensures editing ==> (r.0 == "|" <==> selectedIndex == 0)
    ensures editing ==> (r.1 == "|" <==> selectedIndex == size - 1)
    ensures r.0 in {"<", "|"} && r.1 in {">", "|"}
  {
    if editing then
      var atStart := selectedIndex == 0;
      var atEnd := selectedIndex == size - 1;
      if atStart && atEnd then ("|", "|")
      else if atStart then ("|", ">")
      else if atEnd then ("<", "|")
      else ("<", ">")
    else ("<", ">")
  }

  class ListElement {
    const labelText: string
    const options: seq<string>
    var selectedIndex: int
    var isEditing: bool
    var isSelected: bool
    var scrollOffset: int
    var scrollDirection: int
    var lastScrollTime: Millis

    ghost predicate Valid()
      reads this
    {
      (if options == [] then selectedIndex == 0 else 0 <= selectedIndex < |options|) &&
      0 <= scrollOffset && (scrollDirection == 1 || scrollDirection == -1)
    }

    /** The events handleInput consumes. */
    predicate Consumes(e: Event)
      reads this
    {
      isEditing &&
      ((IsShort(e, LEFT) && selectedIndex > 0) ||
       (IsShort(e, RIGHT) && selectedIndex < |options| - 1) ||
       IsDouble(e, CENTER))
    }

    /** The constructor keeps the default index only when it names an
        option. */
    constructor(labelText: string, options: seq<string>, defaultIndex: int)
      ensures Valid()
      ensures this.labelText == labelText && this.options == options
      ensures 0 <= defaultIndex < |options| ==> selectedIndex == defaultIndex
      ensures !(0 <= defaultIndex < |options|) ==> selectedIndex == 0
      ensures !isEditing && !isSelected
      ensures PingPong.Scroll(scrollOffset, scrollDirection) == PingPong.Start && lastScrollTime == 0
    {
      this.labelText := labelText;
      this.options := options;
      selectedIndex := defaultIndex;
      isEditing := false;
      isSelected := false;
      scrollOffset := 0;
      scrollDirection := 1;
      lastScrollTime := 0;
      new;
      if selectedIndex < 0 || selectedIndex >= |options| {
        selectedIndex := 0;
      }
    }

    /** getSelectedValue. */
    function SelectedValue(): (v: string)
      reads this
      requires Valid()
      ensures options == [] ==> v == ""
      ensures options != [] ==> v == options[selectedIndex] && v in options
    {
      if options == [] then "" else options[selectedIndex]
    }

    /** The scroll step of draw, from scroll `s0` last stepped at `time0`,
        for a value `valueLength` long of which `maxVisibleChars` fit: a
        ping-pong step every 200 ms while the value is too long and the
        element is selected or edited, a reset to the left otherwise. */
    predicate ScrollStepped(s0: PingPong.Scroll, time0: Millis, valueLength: nat, maxVisibleChars: int, now: Millis)
      reads this
    {
      var s := PingPong.Scroll(scrollOffset, scrollDirection);
      if (isSelected || isEditing) && LongerThan(valueLength, maxVisibleChars) then
        if Elapsed(now, time0) > SCROLL_INTERVAL then
          s == PingPong.Step(s0, valueLength - maxVisibleChars) &&
          0 <= scrollOffset <= valueLength - maxVisibleChars && lastScrollTime == now
        else s == s0 && lastScrollTime == time0
      else s == PingPong.Start && lastScrollTime == time0
    }

    method ScrollStep(valueLength: nat, maxVisibleChars: int, now: Millis)
      requires Valid()
      modifies this`scrollOffset, this`scrollDirection, this`lastScrollTime
      ensures Valid()
      ensures ScrollStepped(PingPong.Scroll(old(scrollOffset), old(scrollDirection)), old(lastScrollTime), valueLength, maxVisibleChars, now)
    {
      if (isSelected || isEditing) && LongerThan(valueLength, maxVisibleChars) {
        if Elapsed(now, lastScrollTime) > SCROLL_INTERVAL {
          scrollOffset := scrollOffset + scrollDirection;
          if scrollOffset > valueLength - maxVisibleChars {
            scrollOffset := valueLength - maxVisibleChars;
            scrollDirection := -1;
          } else if scrollOffset < 0 {
            scrollOffset := 0;
            scrollDirection := 1;
          }
          lastScrollTime := now;
        }
      } else {
        scrollOffset := 0;
        scrollDirection := 1;
      }
    }

    /** The state-changing part of draw: the scroll step, then the text
        drawn: the markers and the visible slice of the selected value. */
    method Draw(elementWidth: int, now: Millis) returns (left: string, shown: string, right: string)
      requires Valid()
      modifies this`scrollOffset, this`scrollDirection, this`lastScrollTime
      ensures Valid()
      ensures ScrollStepped(PingPong.Scroll(old(scrollOffset), old(scrollDirection)), old(lastScrollTime), |SelectedValue()|, MaxVisibleChars(elementWidth), now)
      ensures var v := SelectedValue(); var mv := MaxVisibleChars(elementWidth);
        shown == (if LongerThan(|v|, mv) then Substring(v, scrollOffset, scrollOffset + mv) else v)
      ensures var v := SelectedValue(); var mv := MaxVisibleChars(elementWidth);
        LongerThan(|v|, mv) && scrollOffset <= |v| - mv && |v| < TWO_32 ==>
          shown == v[scrollOffset..scrollOffset + mv] && |shown| == mv
      ensures (left, right) == Markers(isEditing, selectedIndex, |options|)
    {
      var maxVisibleChars := MaxVisibleChars(elementWidth);
      var value := SelectedValue();
      ScrollStep(|value|, maxVisibleChars, now);
      shown := value;
      if LongerThan(|value|, maxVisibleChars) {
        shown := Substring(value, scrollOffset, scrollOffset + maxVisibleChars);
      }
      var markers := Markers(isEditing, selectedIndex, |options|);
      left, right := markers.0, markers.1;
    }

    /** setEditing: whichever the value, the scroll restarts from the left
        and its clock from `now`. */
    method SetEditing(editing: bool, now: Millis)
      requires Valid()
      modifies this`isEditing, this`scrollOffset, this`scrollDirection, this`lastScrollTime
      ensures Valid()
      ensures isEditing == editing && lastScrollTime == now
      ensures PingPong.Scroll(scrollOffset, scrollDirection) == PingPong.Start
    {
      isEditing := editing;
      lastScrollTime := now;
      scrollOffset := 0;
      scrollDirection := 1;
    }

    method SetSelected(select: bool)
      modifies this`isSelected
      ensures isSelected == select
    {
      isSelected := select;
    }

    /** handleInput: returns whether the event was consumed. */
    method HandleInput(e: Event, now: Millis) returns (handled: bool)
      requires Valid()
      modifies this
      ensures Valid()
      ensures handled == old(Consumes(e))
      ensures !handled ==> unchanged(this)
      ensures isSelected == old(isSelected)
      ensures handled && IsShort(e, LEFT) ==>
        selectedIndex == old(selectedIndex) - 1 && 0 <= selectedIndex && unchanged(this`isEditing, this`scrollOffset, this`scrollDirection, this`lastScrollTime)
      ensures handled && IsShort(e, RIGHT) ==>
        selectedIndex == old(selectedIndex) + 1 && selectedIndex < |options| && unchanged(this`isEditing, this`scrollOffset, this`scrollDirection, this`lastScrollTime)
      ensures handled && IsDouble(e, CENTER) ==>
        !isEditing && selectedIndex == old(selectedIndex) && lastScrollTime == now &&
        PingPong.Scroll(scrollOffset, scrollDirection) == PingPong.Start
    {
      if !isEditing {
        return false;
      }
      handled := false;
      if e.action == ShortClick {
        if e.buttonName == LEFT {
          if selectedIndex > 0 {
            selectedIndex := selectedIndex - 1;
            handled := true;
          }
        } else if e.buttonName == RIGHT {
          if selectedIndex < |options| - 1 {
            selectedIndex := selectedIndex + 1;
            handled := true;
          }
        }
      } else if e.action == DoubleClick {
        if e.buttonName == CENTER {
          SetEditing(false, now);
          handled := true;
        }
      }
    }
  }
}
