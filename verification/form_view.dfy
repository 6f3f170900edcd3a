/** The form navigator of src/form/FormView.cpp: a vertical list of
    widgets with one focused element. Events go first to an element that is
    being edited; what it does not consume moves the focus (UP/DOWN) or
    starts editing (CENTER). Drawing picks a viewport that ends at the
    focused element and reaches back as far as the height allows. */
module Form {
  import opened Common
  import TextInput
  import ListWidget
  import CheckBox
  import ButtonWidget
  import PingPong

  /** Vertical gap between two elements, in pixels. */
  const SPACING: int := 5

  /** The four kinds of form element. */
  datatype Element =
    | TextInputE(t: TextInput.TextInputElement)
    | CheckBoxE(c: CheckBox.CheckBoxElement)
    | ListE(l: ListWidget.ListElement)
    | ButtonE(b: ButtonWidget.ButtonElement)

  /** The widget object an element refers to. */
  function Obj(e: Element): object
  {
    match e
    case TextInputE(t) => t
    case CheckBoxE(c) => c
    case ListE(l) => l
    case ButtonE(b) => b
  }

  ghost predicate ElemValid(e: Element)
    reads Obj(e)
  {
    match e
    case TextInputE(t) => t.Valid()
    case CheckBoxE(c) => c.Valid()
    case ListE(l) => l.Valid()
    case ButtonE(_) => true
  }

  /** getHeight of each kind: a constant. */
  function Height(e: Element): (h: int)
    ensures h > 0
  {
    match e
    case TextInputE(_) => TextInput.HEIGHT
    case CheckBoxE(_) => CheckBox.ELEMENT_HEIGHT
    case ListE(_) => ListWidget.ELEMENT_HEIGHT
    case ButtonE(_) => ButtonWidget.ELEMENT_HEIGHT
  }

  /** canEdit: every kind but the button. */
  predicate CanEdit(e: Element)
  {
    match e
    case ButtonE(b) => b.CanEdit()
    case _ => true
  }

  /** getEditing. */
  predicate Editing(e: Element)
    reads Obj(e)
  {
    match e
    case TextInputE(t) => t.isEditing
    case CheckBoxE(c) => c.isEditing
    case ListE(l) => l.isEditing
    case ButtonE(b) => b.GetEditing()
  }

  predicate Selected(e: Element)
    reads Obj(e)
  {
    match e
    case TextInputE(t) => t.isSelected
    case CheckBoxE(c) => c.isSelected
    case ListE(l) => l.isSelected
    case ButtonE(b) => b.isSelected
  }

  /** The value handleInput of the element returns for `ev` in its current
      state. */
  predicate Consumes(e: Element, ev: Event)
    reads Obj(e)
  {
    match e
    case TextInputE(t) => t.Consumes(ev)
    case CheckBoxE(c) => c.Consumes(ev)
    case ListE(l) => l.Consumes(ev)
    case ButtonE(b) => b.HandleInput(ev).0
  }

  /** The label the button callback receives when `ev` reaches element `e`
      through handleInput. */
  function Callback(e: Element, ev: Event): Option<string>
  {
    if e.ButtonE? then e.b.HandleInput(ev).1 else None
  }

  /** An editing element is always an editable one. */
  lemma EditingIsEditable(e: Element)
    ensures Editing(e) ==> CanEdit(e)
  {
  }

  /** handleInput of the element, whatever its kind. */
  method HandleElementInput(e: Element, ev: Event, now: Millis) returns (handled: bool, called: Option<string>)
    requires ElemValid(e)
    modifies Obj(e)
    ensures ElemValid(e)
    ensures handled == old(Consumes(e, ev))
    ensures called == Callback(e, ev)
    ensures !handled || e.ButtonE? ==> unchanged(Obj(e))
    ensures handled ==> InputTaken(old(StateOf(e)), StateOf(e), ev, now)
    ensures Selected(e) == old(Selected(e))
  {
    called := None;
    match e
    case TextInputE(t) =>
      handled := t.HandleInput(ev);
    case CheckBoxE(c) =>
      handled := c.HandleInput(ev);
    case ListE(l) =>
      handled := l.HandleInput(ev, now);
    case ButtonE(b) =>
      var r := b.HandleInput(ev);
      handled, called := r.0, r.1;
  }

  /** setEditing of the element, whatever its kind. */
  method SetElementEditing(e: Element, editing: bool, now: Millis)
    requires ElemValid(e)
    modifies Obj(e)
    ensures ElemValid(e)
    ensures CanEdit(e) ==> Editing(e) == editing
    ensures !CanEdit(e) ==> unchanged(Obj(e))
    ensures StateOf(e) == EditingSet(old(StateOf(e)), editing, now)
    ensures Selected(e) == old(Selected(e))
  {
    match e
    case TextInputE(t) => t.SetEditing(editing);
    case CheckBoxE(c) => c.SetEditing(editing);
    case ListE(l) => l.SetEditing(editing, now);
    case ButtonE(b) => b.SetEditing(editing);
  }

  /** The state of an element's widget apart from its selected flag. */
  datatype WidgetState =
    | TextInputS(value: seq<TextInput.Byte>, cursorPos: int, visibleStart: int, editing: bool, charSet: TextInput.CharSet)
    | CheckBoxS(checked: bool, editing: bool, scroll: PingPong.Scroll, lastScrollTime: Millis)
    | ListS(selectedIndex: int, editing: bool, scroll: PingPong.Scroll, lastScrollTime: Millis)
    | ButtonS

  ghost function StateOf(e: Element): WidgetState
    reads Obj(e)
  {
    match e
    case TextInputE(t) => TextInputS(t.value, t.cursorPos, t.visibleStart, t.isEditing, t.charSet)
    case CheckBoxE(c) => CheckBoxS(c.isChecked, c.isEditing, PingPong.Scroll(c.scrollOffset, c.scrollDirection), c.lastScrollTime)
    case ListE(l) => ListS(l.selectedIndex, l.isEditing, PingPong.Scroll(l.scrollOffset, l.scrollDirection), l.lastScrollTime)
    case ButtonE(_) => ButtonS
  }

  /** What draw does to an element whose widget was in state `before`: a
      text input moves its window to the cursor, a checkbox or a list takes
      its scroll step, and nothing else but the selected flag changes. */
  ghost predicate DrawnFrom(before: WidgetState, e: Element, elementWidth: int, now: Millis)
    reads Obj(e)
  {
    match e
    case TextInputE(t) =>
      before.TextInputS? &&
      before.value == t.value && before.cursorPos == t.cursorPos &&
      before.editing == t.isEditing && before.charSet == t.charSet &&
      t.visibleStart == TextInput.AdjustStart(before.visibleStart, t.cursorPos, TextInput.MaxVisibleChars(elementWidth))
    case CheckBoxE(c) =>
      before.CheckBoxS? && before.checked == c.isChecked && before.editing == c.isEditing &&
      c.ScrollStepped(before.scroll, before.lastScrollTime, CheckBox.MaxVisibleChars(elementWidth), now)
    case ListE(l) =>
      before.ListS? && before.selectedIndex == l.selectedIndex && before.editing == l.isEditing && l.Valid() &&
      l.ScrollStepped(before.scroll, before.lastScrollTime, |l.SelectedValue()|, ListWidget.MaxVisibleChars(elementWidth), now)
    case ButtonE(_) => before.ButtonS?
  }

  /** What setEditing does to a widget in state `s`. A text input that
      starts editing gets an 'a' appended when the cursor is past the end,
      and lower case. A list restarts its scroll, and its scroll clock
      from `now`. A checkbox changes only the flag, and a button nothing. */
  function EditingSet(s: WidgetState, editing: bool, now: Millis): (r: WidgetState)
    ensures s.ButtonS? ==> r == s
    ensures !s.ButtonS? ==> !r.ButtonS? && r.editing == editing
    ensures s.TextInputS? && editing && 0 <= s.cursorPos <= |s.value| ==>
      r.TextInputS? && r.cursorPos < |r.value| && r.charSet == TextInput.Lower
    ensures s.TextInputS? && !editing ==>
      r == TextInputS(s.value, s.cursorPos, s.visibleStart, false, s.charSet)
    ensures s.ListS? ==> r.ListS? && r.scroll == PingPong.Start && r.lastScrollTime == now
  {
    match s
    case TextInputS(value, cursorPos, visibleStart, _, charSet) =>
      if editing then
        TextInputS(if cursorPos >= |value| then value + ['a'] else value, cursorPos, visibleStart, true, TextInput.Lower)
      else TextInputS(value, cursorPos, visibleStart, false, charSet)
    case CheckBoxS(checked, _, scroll, lastScrollTime) => CheckBoxS(checked, editing, scroll, lastScrollTime)
    case ListS(selectedIndex, _, _, _) => ListS(selectedIndex, editing, PingPong.Start, now)
    case ButtonS => s
  }

  /** What handleInput does to a widget in state `before` when it consumes
      `ev`, `after` being its new state. A text input moves its cursor on
      LEFT/RIGHT, cycles the character on UP/DOWN, switches set on a double
      UP/DOWN, deletes or inserts on a double LEFT/RIGHT and leaves edit
      mode on CENTER. A checkbox checks, clears or toggles, and leaves edit
      mode on a double CENTER. A list steps its selection, and restarts its
      scroll on leaving edit mode. A button keeps its state. */
  predicate InputTaken(before: WidgetState, after: WidgetState, ev: Event, now: Millis)
  {
    match before
    case TextInputS(value, cursorPos, visibleStart, _, charSet) =>
      after.TextInputS? && after.visibleStart == visibleStart && 0 <= cursorPos <= |value| &&
      (var p := TextInput.Padded(value, cursorPos);
       (IsShort(ev, LEFT) ==>
          after.editing && after.value == value && after.cursorPos == Max(cursorPos - 1, 0) &&
          after.charSet == TextInput.CharSetAt(value, after.cursorPos, charSet)) &&
       (IsShort(ev, RIGHT) ==>
          after.editing && after.value == value && after.cursorPos == Min(cursorPos + 1, |value|) &&
          after.charSet == TextInput.CharSetAt(value, after.cursorPos, charSet)) &&
       (IsShort(ev, CENTER) || IsDouble(ev, CENTER) ==>
          !after.editing && after.value == value && after.cursorPos == cursorPos && after.charSet == charSet) &&
       (IsShort(ev, UP) ==>
          after.editing && after.cursorPos == cursorPos && after.charSet == charSet &&
          after.value == p[cursorPos := TextInput.CycleForward(p[cursorPos], charSet)]) &&
       (IsShort(ev, DOWN) ==>
          after.editing && after.cursorPos == cursorPos && after.charSet == charSet &&
          after.value == p[cursorPos := TextInput.CycleBackward(p[cursorPos], charSet)]) &&
       (IsDouble(ev, UP) ==>
          after.editing && after.cursorPos == cursorPos && after.charSet == TextInput.NextSet(charSet) &&
          after.value == p[cursorPos := TextInput.FirstChar(after.charSet)]) &&
       (IsDouble(ev, DOWN) ==>
          after.editing && after.cursorPos == cursorPos && after.charSet == TextInput.PrevSet(charSet) &&
          after.value == p[cursorPos := TextInput.FirstChar(after.charSet)]) &&
       (IsDouble(ev, LEFT) ==>
          after.editing && after.cursorPos == cursorPos && after.charSet == charSet &&
          after.value == if cursorPos < |value| then value[..cursorPos] + value[cursorPos + 1..] else value) &&
       (IsDouble(ev, RIGHT) ==>
          after.editing && after.cursorPos == cursorPos + 1 && after.charSet == charSet &&
          after.value == value[..cursorPos] + [' '] + value[cursorPos..]))
    case CheckBoxS(checked, _, scroll, lastScrollTime) =>
      after.CheckBoxS? && after.scroll == scroll && after.lastScrollTime == lastScrollTime &&
      (IsShort(ev, UP) ==> after.checked && after.editing) &&
      (IsShort(ev, DOWN) ==> !after.checked && after.editing) &&
      (IsShort(ev, CENTER) ==> after.checked == !checked && after.editing) &&
      (IsDouble(ev, CENTER) ==> after.checked == checked && !after.editing)
    case ListS(selectedIndex, editing, scroll, lastScrollTime) =>
      after.ListS? &&
      (IsShort(ev, LEFT) ==>
         after.selectedIndex == selectedIndex - 1 && after.editing == editing &&
         after.scroll == scroll && after.lastScrollTime == lastScrollTime) &&
      (IsShort(ev, RIGHT) ==>
         after.selectedIndex == selectedIndex + 1 && after.editing == editing &&
         after.scroll == scroll && after.lastScrollTime == lastScrollTime) &&
      (IsDouble(ev, CENTER) ==>
         after == ListS(selectedIndex, false, PingPong.Start, now))
    case ButtonS => after == before
  }

  method SetElementSelected(e: Element, select: bool)
    requires ElemValid(e)
    modifies Obj(e)
    ensures ElemValid(e)
    ensures Selected(e) == select
    ensures Editing(e) == old(Editing(e))
    ensures StateOf(e) == old(StateOf(e))
  {
    match e
    case TextInputE(t) => t.SetSelected(select);
    case CheckBoxE(c) => c.SetSelected(select);
    case ListE(l) => l.SetSelected(select);
    case ButtonE(b) => b.SetSelected(select);
  }

  /** draw of the element, for its effect on the element's own state
      (window and scroll positions). */
  method DrawElement(e: Element, elementWidth: int, now: Millis)
    requires ElemValid(e)
    modifies Obj(e)
    ensures ElemValid(e)
    ensures Selected(e) == old(Selected(e)) && Editing(e) == old(Editing(e))
    ensures DrawnFrom(old(StateOf(e)), e, elementWidth, now)
    ensures e.ButtonE? ==> unchanged(Obj(e))
  {
    match e
    case TextInputE(t) =>
      var shown := t.Draw(elementWidth);
    case CheckBoxE(c) =>
      var shown := c.Draw(elementWidth, now);
    case ListE(l) =>
      var left, shown, right := l.Draw(elementWidth, now);
    case ButtonE(_) =>
  }

  /** The focus after a navigation event on a form of `n` elements: short
      UP and DOWN move by one without wrapping around. */
  function NavTarget(cur: nat, n: nat, ev: Event): (r: nat)
    requires cur < n
    ensures r < n
    ensures IsShort(ev, UP) && cur > 0 ==> r == cur - 1
    ensures IsShort(ev, DOWN) && cur < n - 1 ==> r == cur + 1
    ensures !(IsShort(ev, UP) && cur > 0) && !(IsShort(ev, DOWN) && cur < n - 1) ==> r == cur
  {
    if ev.action == ShortClick && ev.buttonName == UP && cur > 0 then cur - 1
    else if ev.action == ShortClick && ev.buttonName == DOWN && cur < n - 1 then cur + 1
    else cur
  }

  /** The height taken by elements s .. i-1, each followed by the spacing:
      the y offset of element i when drawing starts at element s. */
  function Stack(elems: seq<Element>, s: nat, i: nat): int
    requires s <= i <= |elems|
    decreases i - s
  {
    if s == i then 0 else Height(elems[s]) + SPACING + Stack(elems, s + 1, i)
  }

  /** Elements s .. i, spaced, fit in `visibleHeight`. */
  predicate Fits(elems: seq<Element>, s: nat, i: nat, visibleHeight: int)
    requires s <= i < |elems|
  {
    Stack(elems, s, i) + Height(elems[i]) <= visibleHeight
  }

  lemma {:induction false} StackAppend(elems: seq<Element>, s: nat, i: nat)
    requires s <= i < |elems|
    ensures Stack(elems, s, i + 1) == Stack(elems, s, i) + Height(elems[i]) + SPACING
    decreases i - s
  {
    if s < i {
      StackAppend(elems, s + 1, i);
    }
  }

  /** Fitting is monotone: if elements s .. j fit, so does every shorter
      run s .. i. */
  lemma {:induction false} FitsShorter(elems: seq<Element>, s: nat, i: nat, j: nat, visibleHeight: int)
    requires s <= i <= j < |elems|
    requires Fits(elems, s, j, visibleHeight)
    ensures Fits(elems, s, i, visibleHeight)
    decreases j - i
  {
    if i < j {
      StackAppend(elems, s, i);
      FitsShorter(elems, s, i + 1, j, visibleHeight);
    }
  }

  /** The first element of the viewport: starting at the focused element,
      take the previous one while it still fits. */
  method ViewportStart(elems: seq<Element>, cur: nat, visibleHeight: int) returns (start: nat)
    requires cur < |elems|
    ensures start <= cur
    ensures start < cur ==> Fits(elems, start, cur, visibleHeight)
    ensures start > 0 ==> !Fits(elems, start - 1, cur, visibleHeight)
  {
    start := cur;
    var totalHeight := Height(elems[cur]);
    while start > 0
      invariant start <= cur
      invariant totalHeight == Stack(elems, start, cur) + Height(elems[cur])
      invariant start < cur ==> Fits(elems, start, cur, visibleHeight)
    {
      var h := Height(elems[start - 1]) + SPACING;
      if totalHeight + h > visibleHeight {
        break;
      }
      totalHeight := totalHeight + h;
      start := start - 1;
    }
  }

  /** The viewport keeps the focused element on screen: if it fits alone,
      the drawn run (from a start chosen by ViewportStart to the first
      element that overflows) includes it. */
  lemma {:induction false} FocusedIsDrawn(elems: seq<Element>, cur: nat, start: nat, end: nat, visibleHeight: int)
    requires cur < |elems| && start <= cur && start <= end <= |elems|
    requires start < cur ==> Fits(elems, start, cur, visibleHeight)
    requires end < |elems| ==> !Fits(elems, start, end, visibleHeight)
    requires Height(elems[cur]) <= visibleHeight
    ensures start <= cur < end
  {
    assert Fits(elems, start, cur, visibleHeight);
    if end <= cur {
      FitsShorter(elems, start, end, cur, visibleHeight);
    }
  }

  class FormView {
    const displayWidth: int
    const displayHeight: int
    var elements: seq<Element>
    var currentElement: nat
    var offsetX: int
    var offsetY: int
    var reduceWidth: int
    var reduceHeight: int

    function Objs(): set<object>
      reads this
    {
      set i | 0 <= i < |elements| :: Obj(elements[i])
    }

    /** The focused element's widget, the only one handleInput touches. */
    function Focused(): set<object>
      reads this
    {
      if currentElement < |elements| then {Obj(elements[currentElement])} else {}
    }

    ghost predicate Valid()
      reads this, Objs()
    {
      (if elements == [] then currentElement == 0 else currentElement < |elements|) &&
      (forall i :: 0 <= i < |elements| ==> ElemValid(elements[i])) &&
      (forall i, j :: 0 <= i < j < |elements| ==> Obj(elements[i]) != Obj(elements[j]))
    }

    constructor(displayWidth: int, displayHeight: int)
      ensures Valid()
      ensures this.displayWidth == displayWidth && this.displayHeight == displayHeight
      ensures elements == [] && currentElement == 0
      ensures offsetX == 0 && offsetY == 0 && reduceWidth == 0 && reduceHeight == 0
    {
      this.displayWidth := displayWidth;
      this.displayHeight := displayHeight;
      elements := [];
      currentElement := 0;
      offsetX, offsetY, reduceWidth, reduceHeight := 0, 0, 0, 0;
    }

    function VisibleWidth(): int
      reads this
    {
      displayWidth - offsetX - reduceWidth
    }

    function VisibleHeight(): int
      reads this
    {
      displayHeight - offsetY - reduceHeight
    }

    method SetOffsetX(x: int)
      modifies this`offsetX
      ensures offsetX == x
    {
      offsetX := x;
    }

    method SetOffsetY(y: int)
      modifies this`offsetY
      ensures offsetY == y
    {
      offsetY := y;
    }

    method ReduceVisibleWidth(pixels: int)
      modifies this`reduceWidth
      ensures reduceWidth == pixels
    {
      reduceWidth := pixels;
    }

    method ReduceVisibleHeight(pixels: int)
      modifies this`reduceHeight
      ensures reduceHeight == pixels
    {
      reduceHeight := pixels;
    }

    /** addElement: a missing element (a null pointer) is ignored; any
        other is appended, keeping the insertion order and the focus. */
    method AddElement(element: Option<Element>)
      requires Valid()
      requires element.Some? ==> ElemValid(element.value) && Obj(element.value) !in Objs()
      modifies this`elements
      ensures Valid()
      ensures element.None? ==> elements == old(elements)
      ensures element.Some? ==> elements == old(elements) + [element.value]
    {
      if element.Some? {
        elements := elements + [element.value];
      }
    }

    /** The part of handleInput after the focused element `e` has seen
        the event (or was not editing): short UP/DOWN move the focus, short
        CENTER starts editing an editable element or forwards the event to
        a button. */
    method Navigate(ev: Event, now: Millis) returns (called: Option<string>)
      requires Valid() && elements != []
      modifies this`currentElement, Focused()
      ensures Valid()
      ensures elements == old(elements)
      ensures var cur := old(currentElement); var e := elements[cur];
        currentElement == NavTarget(cur, |elements|, ev) &&
        (!IsShort(ev, CENTER) ==> unchanged(Obj(e)) && called == None) &&
        (IsShort(ev, CENTER) && CanEdit(e) ==>
           Editing(e) && StateOf(e) == EditingSet(old(StateOf(e)), true, now) && called == None) &&
        (IsShort(ev, CENTER) && !CanEdit(e) ==> unchanged(Obj(e)) && called == Callback(e, ev)) &&
        (old(Editing(e)) ==> Editing(e))
    {
      called := None;
      var e := elements[currentElement];
      if ev.action == ShortClick {
        if ev.buttonName == UP && currentElement > 0 {
          currentElement := currentElement - 1;
        } else if ev.buttonName == DOWN && currentElement < |elements| - 1 {
          currentElement := currentElement + 1;
        } else if ev.buttonName == CENTER {
          if CanEdit(e) {
            SetElementEditing(e, true, now);
          } else {
            var handled, c := HandleElementInput(e, ev, now);
            called := c;
          }
        }
      }
    }

    /** handleInput. The focused element, when editing, sees the event
        first; if it does not consume it, the event navigates. The result
        is the label a button callback received, if one was called. */
    method HandleInput(ev: Event, now: Millis) returns (called: Option<string>)
      requires Valid()
      modifies this`currentElement, Focused()
      ensures Valid()
      ensures elements == old(elements)
      ensures old(elements) == [] ==> currentElement == old(currentElement) && called == None
      ensures old(elements) != [] ==>
        var cur := old(currentElement); var e := elements[cur];
        var consumed := old(Editing(e) && Consumes(e, ev));
        (consumed ==>
           currentElement == cur && called == None && InputTaken(old(StateOf(e)), StateOf(e), ev, now)) &&
        (!consumed ==> currentElement == NavTarget(cur, |elements|, ev)) &&
        (!consumed && !IsShort(ev, CENTER) ==> unchanged(Obj(e)) && called == None) &&
        (!consumed && IsShort(ev, CENTER) && CanEdit(e) ==>
           Editing(e) && StateOf(e) == EditingSet(old(StateOf(e)), true, now) && called == None) &&
        (!consumed && IsShort(ev, CENTER) && !CanEdit(e) ==> unchanged(Obj(e)) && called == Callback(e, ev)) &&
        (old(Editing(e)) && !consumed ==> Editing(e))
    {
      called := None;
      if elements == [] {
        return;
      }
      var e := elements[currentElement];
      if Editing(e) {
        var handled, c := HandleElementInput(e, ev, now);
        if handled {
          return;
        }
      }
      called := Navigate(ev, now);
    }

    /** One step of the drawing loop: mark element i selected or not and
        draw it; no other element changes. */
    method DrawOne(i: nat, select: bool, now: Millis)
      requires Valid() && i < |elements|
      modifies Obj(elements[i])
      ensures Valid()
      ensures Selected(elements[i]) == select
      ensures Editing(elements[i]) == old(Editing(elements[i]))
      ensures DrawnFrom(old(StateOf(elements[i])), elements[i], VisibleWidth(), now)
      ensures forall k :: 0 <= k < |elements| && k != i ==> unchanged(Obj(elements[k]))
    {
      var e := elements[i];
      SetElementSelected(e, select);
      DrawElement(e, VisibleWidth(), now);
    }

    /** Element k once the drawing loop has drawn elements start .. i-1,
        the old state being the one before the loop: a drawn element is
        marked selected exactly when it is the focused one, keeps its
        editing flag and has taken its draw step; any other is untouched. */
    twostate predicate DrawnAt(k: nat, start: nat, i: nat, now: Millis)
      requires old(elements) == elements && k < |elements|
      reads this, Obj(elements[k])
    {
      var e := elements[k];
      if start <= k < i then
        Selected(e) == (k == currentElement) && Editing(e) == old(Editing(e)) &&
        DrawnFrom(old(StateOf(e)), e, VisibleWidth(), now)
      else unchanged(Obj(e))
    }

    /** The forward loop of draw: from `start`, draw elements while they
        fit, marking each selected exactly when it is the focused one;
        elements outside the run are untouched. */
    method DrawRun(start: nat, now: Millis) returns (end: nat)
      requires Valid() && start < |elements|
      modifies Objs()
      ensures Valid()
      ensures start <= end <= |elements|
      ensures forall i :: start <= i < end ==> Fits(elements, start, i, VisibleHeight())
      ensures end < |elements| ==> !Fits(elements, start, end, VisibleHeight())
      ensures forall k :: 0 <= k < |elements| ==> DrawnAt(k, start, end, now)
    {
      var visibleHeight := VisibleHeight();
      var yPos := offsetY;
      var i := start;
      while i < |elements|
        invariant start <= i <= |elements|
        invariant yPos == offsetY + Stack(elements, start, i)
        invariant forall k :: start <= k < i ==> Fits(elements, start, k, visibleHeight)
        invariant Valid()
        invariant forall k :: 0 <= k < |elements| ==> DrawnAt(k, start, i, now)
      {
        var e := elements[i];
        var elemHeight := Height(e);
        if yPos + elemHeight > offsetY + visibleHeight {
          break;
        }
        assert DrawnAt(i, start, i, now);
        ghost var before := StateOf(e);
        assert before == old(StateOf(e));
        DrawOne(i, i == currentElement, now);
        assert DrawnFrom(before, e, VisibleWidth(), now);
        ghost var next := i + 1;
        forall k | 0 <= k < |elements|
          ensures DrawnAt(k, start, next, now)
        {
          if k != i {
            assert DrawnAt(k, start, i, now);
          }
        }
        StackAppend(elements, start, i);
        yPos := yPos + elemHeight + SPACING;
        i := i + 1;
      }
      end := i;
    }

    /** draw, for its effect on the elements' state. It returns the run of
        indices drawn, [start, end): start is ViewportStart's, and the run
        goes forward until the first element that would overflow. Every
        drawn element is marked selected exactly when it is the focused
        one and takes its draw step; the others are untouched. */
    method Draw(now: Millis) returns (start: nat, end: nat)
      requires Valid()
      modifies Objs()
      ensures Valid()
      ensures elements == [] ==> start == 0 && end == 0
      ensures elements != [] ==>
        start <= currentElement && start <= end <= |elements| &&
        (start < currentElement ==> Fits(elements, start, currentElement, VisibleHeight())) &&
        (start > 0 ==> !Fits(elements, start - 1, currentElement, VisibleHeight())) &&
        (forall i :: start <= i < end ==> Fits(elements, start, i, VisibleHeight())) &&
        (end < |elements| ==> !Fits(elements, start, end, VisibleHeight()))
      ensures forall k :: 0 <= k < |elements| ==> DrawnAt(k, start, end, now)
      ensures elements != [] && Height(elements[currentElement]) <= VisibleHeight() ==>
        start <= currentElement < end
    {
      if elements == [] {
        return 0, 0;
      }
      start := ViewportStart(elements, currentElement, VisibleHeight());
      label Viewport:
      end := DrawRun(start, now);
      forall k | 0 <= k < |elements|
        ensures DrawnAt(k, start, end, now)
      {
        assert DrawnAt@Viewport(k, start, end, now);
      }
      if Height(elements[currentElement]) <= VisibleHeight() {
        FocusedIsDrawn(elements, currentElement, start, end, VisibleHeight());
      }
    }
  }
}
