/** The hierarchical menu of src/menu/MenuListView.cpp: a window of rows
    over the current list of items, a selection moved by UP/DOWN, a stack
    of parent lists entered with RIGHT and left with LEFT, activation of
    leaves with CENTER, and a selected label that scrolls back and forth
    with a pause at each end. */
module MenuList {
  import opened Common
  import opened MenuItems

  const CHAR_WIDTH: int := 6
  const LINE_HEIGHT: int := 10
  /** The pause at each end of the selected label's scroll, in ms. */
  const PAUSE_MS: int := 1500
  const PADDING_RIGHT: int := 1

  // ---------------------------------------------------------------------
  // Navigation: the current list and the stack of parents

  /** The navigation part of the view: current list, history (top last),
      selection and first visible row. */
  datatype Nav = Nav(current: seq<MenuItem>, history: seq<seq<MenuItem>>, selectedIndex: int, scrollOffset: int)

  /** enterSubmenu, given the children of the selected item when it has
      any: the current list is pushed and the children shown from the top. */
  function Enter(n: Nav, children: Option<seq<MenuItem>>): (r: Nav)
    ensures children.None? ==> r == n
    ensures children.Some? ==>
      r.current == children.value && r.history == n.history + [n.current] &&
      r.selectedIndex == 0 && r.scrollOffset == 0
  {
    if children.Some? then Nav(children.value, n.history + [n.current], 0, 0) else n
  }

  /** navigateBack: pop the most recent list and show it from the top; a
      no-op with no history. */
  function Back(n: Nav): (r: Nav)
    ensures n.history == [] ==> r == n
    ensures n.history != [] ==>
      r.current == n.history[|n.history| - 1] && r.history == n.history[..|n.history| - 1] &&
      r.selectedIndex == 0 && r.scrollOffset == 0
  {
    if n.history == [] then n
    else Nav(n.history[|n.history| - 1], n.history[..|n.history| - 1], 0, 0)
  }

  /** Entering a submenu and going back restores the list and its history,
      with the selection reset. */
  lemma BackUndoesEnter(n: Nav, children: seq<MenuItem>)
    ensures Back(Enter(n, Some(children))) == Nav(n.current, n.history, 0, 0)
  {
    assert (n.history + [n.current])[..|n.history|] == n.history;
  }

  function BackTimes(n: Nav, k: nat): Nav
    decreases k
  {
    if k == 0 then n else BackTimes(Back(n), k - 1)
  }

  /** Entering the successive submenus `path`. */
  function EnterAll(n: Nav, path: seq<seq<MenuItem>>): Nav
    decreases |path|
  {
    if path == [] then n else EnterAll(Enter(n, Some(path[0])), path[1..])
  }

  lemma {:induction false} EnterAllPushes(n: Nav, path: seq<seq<MenuItem>>)
    requires path != []
    ensures EnterAll(n, path) ==
      Nav(path[|path| - 1], n.history + ([n.current] + path[..|path| - 1]), 0, 0)
    decreases |path|
  {
    if |path| > 1 {
      var n1 := Enter(n, Some(path[0]));
      EnterAllPushes(n1, path[1..]);
      assert [n1.current] + path[1..][..|path[1..]| - 1] == path[..|path| - 1];
      assert n1.history + ([n1.current] + path[1..][..|path[1..]| - 1]) ==
        n.history + ([n.current] + path[..|path| - 1]);
    }
  }

  lemma {:induction false} BackPops(c: seq<MenuItem>, h: seq<seq<MenuItem>>, ms: seq<seq<MenuItem>>, si: int, so: int)
    requires ms != []
    ensures BackTimes(Nav(c, h + ms, si, so), |ms|) == Nav(ms[0], h, 0, 0)
    decreases |ms|
  {
    var n := Nav(c, h + ms, si, so);
    var ms' := ms[..|ms| - 1];
    assert (h + ms)[..|h + ms| - 1] == h + ms';
    if |ms| > 1 {
      BackPops(ms[|ms| - 1], h, ms', 0, 0);
    }
  }

  /** N submenus entered and N backs return to the original list and
      history. */
  lemma RoundTrip(n: Nav, path: seq<seq<MenuItem>>)
    requires path != []
    ensures BackTimes(EnterAll(n, path), |path|) == Nav(n.current, n.history, 0, 0)
  {
    EnterAllPushes(n, path);
    BackPops(path[|path| - 1], n.history, [n.current] + path[..|path| - 1], 0, 0);
  }

  // ---------------------------------------------------------------------
  // Row texts

  /** A label that does not fit in `maxChars` characters, as drawn on a
      row that is not selected: cut and ended with "..". A width below two
      characters makes the cut length negative, which as a size_t keeps
      the whole label. */
  function ClipLabel(text: string, maxChars: int): (r: string)
    ensures !LongerThan(|text|, maxChars) ==> r == text
    ensures LongerThan(|text|, maxChars) && maxChars >= 2 ==>
      |r| == maxChars && r == text[..maxChars - 2] + ".."
    ensures LongerThan(|text|, maxChars) && maxChars < 2 ==> r == text + ".."
  {
    if LongerThan(|text|, maxChars) then
      (if maxChars >= 2 then text[..maxChars - 2] else text) + ".."
    else text
  }

  /** Characters taken by a loop that appends while `width` pixels remain,
      taking `charWidth` pixels each. */
  function CharsFor(width: int, charWidth: int): (k: nat)
    requires charWidth > 0
    ensures width > 0 ==> (k - 1) * charWidth < width <= k * charWidth
    ensures width <= 0 ==> k == 0
  {
    if width <= 0 then 0 else (width + charWidth - 1) / charWidth
  }

  /** The characters of `text` drawn from `start` in `width` pixels. */
  function Slice(text: string, start: nat, width: int): (r: string)
    ensures start <= |text| ==> r == text[start..Min(|text|, start + CharsFor(width, CHAR_WIDTH))]
    ensures start > |text| ==> r == []
    ensures |r| <= CharsFor(width, CHAR_WIDTH)
  {
    if start >= |text| then [] else text[start..Min(|text|, start + CharsFor(width, CHAR_WIDTH))]
  }

  /** The loop of drawMenu that builds the visible part of the selected
      text. */
  method SliceToWidth(text: string, start: nat, width: int) returns (visible: string)
    ensures visible == Slice(text, start, width)
  {
    visible := [];
    var j := start;
    var remainingWidth := width;
    while j < |text| && remainingWidth > 0
      invariant start <= j <= Max(start, |text|)
      invariant remainingWidth == width - (j - start) * CHAR_WIDTH
      invariant j > start ==> (j - start - 1) * CHAR_WIDTH < width
      invariant j <= |text| ==> visible == text[start..j]
      invariant j > |text| ==> visible == []
      decreases |text| - j
    {
      visible := visible + [text[j]];
      remainingWidth := remainingWidth - CHAR_WIDTH;
      j := j + 1;
    }
  }

  // ---------------------------------------------------------------------
  // The selected label's scroll

  /** labelScrollOffset, scrollingRight, isPausing, lastScrollUpdate and
      lastSelectedIndex. scrollingRight means the offset is decreasing. */
  datatype LabelScroll = LabelScroll(offset: int, scrollingRight: bool, isPausing: bool, lastUpdate: Millis, lastSelected: int)

  /** One draw's step of the scroll of a label `overflow` pixels wider than
      its room: a pause ends after 1500 ms; otherwise, every `speed` ms,
      the offset moves by `step` towards the current end, and reaching an
      end starts a pause and reverses the direction. */
  function LabelStep(s: LabelScroll, overflow: int, now: Millis, speed: int, step: int): (r: LabelScroll)
    requires overflow > 0
    ensures r.lastSelected == s.lastSelected
    ensures s.isPausing && Elapsed(now, s.lastUpdate) < PAUSE_MS ==> r == s
    ensures s.isPausing && Elapsed(now, s.lastUpdate) >= PAUSE_MS ==>
      r == s.(isPausing := false, lastUpdate := now)
    ensures !s.isPausing && Elapsed(now, s.lastUpdate) < speed % TWO_32 ==> r == s
    ensures step >= 0 && 0 <= s.offset ==> 0 <= r.offset
    ensures step >= 0 && 0 <= s.offset <= overflow ==> 0 <= r.offset <= overflow
    ensures !s.isPausing && r.isPausing ==>
      (r.offset == 0 && !r.scrollingRight) || (r.offset >= overflow && r.scrollingRight)
    ensures !s.isPausing && !r.isPausing ==> r.scrollingRight == s.scrollingRight
    ensures !s.isPausing && step > 0 && r != s && !r.isPausing ==>
      (if s.scrollingRight then r.offset == s.offset - step else r.offset == s.offset + step)
  {
    if s.isPausing then
      if Elapsed(now, s.lastUpdate) >= PAUSE_MS then s.(isPausing := false, lastUpdate := now) else s
    else if Elapsed(now, s.lastUpdate) >= speed % TWO_32 then
      if s.scrollingRight then
        var o := Max(0, s.offset - step);
        if o == 0 then s.(offset := o, isPausing := true, scrollingRight := false, lastUpdate := now)
        else s.(offset := o, lastUpdate := now)
      else
        var o := Min(overflow, s.offset + step);
        if o >= overflow then s.(offset := o, isPausing := true, scrollingRight := true, lastUpdate := now)
        else s.(offset := o, lastUpdate := now)
    else s
  }

  /** A newly selected row restarts the scroll from the left at `now`. */
  function Reselect(s: LabelScroll, idx: int, now: Millis): (r: LabelScroll)
    ensures idx != s.lastSelected ==> r == LabelScroll(0, false, false, now, idx)
    ensures idx == s.lastSelected ==> r == s
  {
    if idx != s.lastSelected then LabelScroll(0, false, false, now, idx) else s
  }

  /** The label scroll after drawing the selected row `idx`, whose label
      is `labelWidth` pixels wide in `room` pixels. */
  function LabelUpdate(s: LabelScroll, idx: int, labelWidth: int, room: int, now: Millis, speed: int, step: int): LabelScroll
  {
    var s1 := Reselect(s, idx, now);
    if labelWidth > room then LabelStep(s1, labelWidth - room, now, speed, step) else s1
  }

  /** A label that fits never scrolls: its offset is 0 from the moment
      it is selected. */
  lemma FittingLabelStaysPut(s: LabelScroll, idx: int, labelWidth: int, room: int, now: Millis, speed: int, step: int)
    requires idx != s.lastSelected && labelWidth <= room
    ensures LabelUpdate(s, idx, labelWidth, room, now, speed, step).offset == 0
  {
  }

  class MenuListView {
    var currentMenu: seq<MenuItem>
    var menuHistory: seq<seq<MenuItem>>
    var menuListViewWidth: int
    var menuListViewHeight: int
    var offsetX: int
    var offsetY: int
    var scrollOffset: int
    var scrollSpeed: int
    var scrollStep: int
    var selectedPrefix: string
    var selectedIndex: int
    var lastScrollUpdate: Millis
    var labelScrollOffset: int
    var scrollingRight: bool
    var lastSelectedIndex: int
    var isPausing: bool

    ghost predicate Valid()
      reads this
    {
      0 <= scrollOffset <= selectedIndex &&
      (currentMenu != [] ==> selectedIndex < |currentMenu|) &&
      scrollStep >= 0 && labelScrollOffset >= 0
    }

    function NavState(): Nav
      reads this
    {
      Nav(currentMenu, menuHistory, selectedIndex, scrollOffset)
    }

    function Label(): LabelScroll
      reads this
    {
      LabelScroll(labelScrollOffset, scrollingRight, isPausing, lastScrollUpdate, lastSelectedIndex)
    }

    /** Rows of the window: the view height over the line height. */
    function VisibleElements(): int
      reads this`menuListViewHeight
    {
      TruncDiv(menuListViewHeight, LINE_HEIGHT)
    }

    function MaxCharsThatFit(): int
      reads this`menuListViewWidth
    {
      TruncDiv(menuListViewWidth - PADDING_RIGHT, CHAR_WIDTH)
    }

    /** Pixels left for the selected label after the prefix, the scroll
        bar and the padding. */
    function TextAvailableWidth(): int
      reads this`menuListViewWidth, this`selectedPrefix
    {
      menuListViewWidth - |selectedPrefix| * CHAR_WIDTH - CHAR_WIDTH - PADDING_RIGHT
    }

    constructor()
      ensures Valid()
      ensures currentMenu == [] && menuHistory == []
      ensures menuListViewWidth == 128 && menuListViewHeight == 64
      ensures offsetX == 0 && offsetY == 0 && scrollOffset == 0 && selectedIndex == 0
      ensures scrollSpeed == 80 && scrollStep == 1 && selectedPrefix == "> "
      ensures Label() == LabelScroll(0, false, false, 0, -1)
    {
      currentMenu, menuHistory := [], [];
      menuListViewWidth, menuListViewHeight := 128, 64;
      offsetX, offsetY := 0, 0;
      scrollOffset, scrollSpeed, scrollStep := 0, 80, 1;
      selectedPrefix := "> ";
      selectedIndex := 0;
      lastScrollUpdate, labelScrollOffset, scrollingRight := 0, 0, false;
      lastSelectedIndex, isPausing := -1, false;
    }

    /** setMenu: show `menu` from the top and forget the history. */
    method SetMenu(menu: seq<MenuItem>)
      requires Valid()
      modifies this`currentMenu, this`menuHistory, this`selectedIndex, this`scrollOffset
      ensures Valid()
      ensures NavState() == Nav(menu, [], 0, 0) && !CanGoBack()
    {
      currentMenu := menu;
      selectedIndex, scrollOffset := 0, 0;
      while menuHistory != []
        invariant Valid() && currentMenu == menu && selectedIndex == 0 && scrollOffset == 0
        decreases |menuHistory|
      {
        menuHistory := menuHistory[..|menuHistory| - 1];
      }
    }

    /** canGoBack. */
    predicate CanGoBack()
      reads this
    {
      menuHistory != []
    }

    /** moveSelectionUp: at the top nothing happens; otherwise the
        selection moves up and the window follows it. */
    method MoveSelectionUp()
      requires Valid()
      modifies this`selectedIndex, this`scrollOffset
      ensures Valid()
      ensures old(selectedIndex) == 0 ==> selectedIndex == 0 && scrollOffset == old(scrollOffset)
      ensures old(selectedIndex) > 0 ==> selectedIndex == old(selectedIndex) - 1
      ensures scrollOffset == Min(old(scrollOffset), selectedIndex)
      ensures VisibleElements() >= 1 && old(selectedIndex < scrollOffset + VisibleElements()) ==>
        selectedIndex < scrollOffset + VisibleElements()
    {
      if selectedIndex > 0 {
        selectedIndex := selectedIndex - 1;
        if selectedIndex < scrollOffset {
          scrollOffset := scrollOffset - 1;
        }
      }
    }

    /** moveSelectionDown. The bound `size() - 1` is unsigned: on an empty
        menu it is 2^32 - 1, so the selection still moves down. */
    /** Whether moveSelectionDown moves: the selection is below the
        unsigned bound `size() - 1`. */
    predicate CanMoveDown()
      reads this
    {
      selectedIndex < (|currentMenu| - 1) % TWO_32
    }

    method MoveSelectionDown()
      requires Valid()
      modifies this`selectedIndex, this`scrollOffset
      ensures Valid()
      ensures !old(CanMoveDown()) ==> unchanged(this)
      ensures old(CanMoveDown()) ==>
        selectedIndex == old(selectedIndex) + 1 &&
        scrollOffset == if selectedIndex >= old(scrollOffset) + VisibleElements() then old(scrollOffset) + 1
                        else old(scrollOffset)
      ensures 0 < |currentMenu| <= TWO_32 && old(selectedIndex) == |currentMenu| - 1 ==> unchanged(this)
      ensures 0 < |currentMenu| <= TWO_32 && old(selectedIndex) < |currentMenu| - 1 ==>
        selectedIndex == old(selectedIndex) + 1
      ensures currentMenu == [] && old(selectedIndex) < TWO_32 - 1 ==>
        selectedIndex == old(selectedIndex) + 1
      ensures scrollOffset == old(scrollOffset) || scrollOffset == old(scrollOffset) + 1
      ensures VisibleElements() >= 1 && old(selectedIndex < scrollOffset + VisibleElements()) ==>
        selectedIndex < scrollOffset + VisibleElements()
    {
      var visibleElements := VisibleElements();
      assert currentMenu == [] ==> (|currentMenu| - 1) % TWO_32 == TWO_32 - 1;
      if CanMoveDown() {
        selectedIndex := selectedIndex + 1;
        if selectedIndex >= scrollOffset + visibleElements {
          scrollOffset := scrollOffset + 1;
        }
      }
    }

    /** The children of the selected item, when it has some. */
    function SelectedChildren(): Option<seq<MenuItem>>
      reads this, currentMenu
    {
      if 0 <= selectedIndex < |currentMenu| && currentMenu[selectedIndex].HasSubmenu()
      then Some(currentMenu[selectedIndex].submenu)
      else None
    }

    /** enterSubmenu. */
    method EnterSubmenu()
      requires Valid()
      modifies this`currentMenu, this`menuHistory, this`selectedIndex, this`scrollOffset
      ensures Valid()
      ensures NavState() == Enter(old(NavState()), old(SelectedChildren()))
    {
      if 0 <= selectedIndex < |currentMenu| {
        var selected := currentMenu[selectedIndex];
        if selected.HasSubmenu() {
          menuHistory := menuHistory + [currentMenu];
          currentMenu := selected.submenu;
          selectedIndex, scrollOffset := 0, 0;
        }
      }
    }

    /** navigateBack. */
    method NavigateBack()
      requires Valid()
      modifies this`currentMenu, this`menuHistory, this`selectedIndex, this`scrollOffset
      ensures Valid()
      ensures NavState() == Back(old(NavState()))
    {
      if menuHistory != [] {
        currentMenu := menuHistory[|menuHistory| - 1];
        menuHistory := menuHistory[..|menuHistory| - 1];
        selectedIndex, scrollOffset := 0, 0;
      }
    }

    /** activateSelectedItem: the action called, if any. Only a leaf is
        activated. */
    method ActivateSelectedItem() returns (called: Option<ActionId>)
      requires Valid()
      ensures called.Some? <==>
        0 <= selectedIndex < |currentMenu| && !currentMenu[selectedIndex].HasSubmenu() &&
        currentMenu[selectedIndex].action.Some?
      ensures called.Some? ==> called == currentMenu[selectedIndex].action
    {
      called := None;
      if 0 <= selectedIndex < |currentMenu| {
        var selected := currentMenu[selectedIndex];
        if !selected.HasSubmenu() {
          called := selected.Activate();
        }
      }
    }

    /** handleInput: only short clicks act; UP/DOWN move the selection,
        RIGHT enters, LEFT goes back and CENTER activates. */
    method HandleInput(e: Event) returns (called: Option<ActionId>)
      requires Valid()
      modifies this`currentMenu, this`menuHistory, this`selectedIndex, this`scrollOffset
      ensures Valid()
      ensures e.action != ShortClick ==> unchanged(this) && called == None
      ensures IsShort(e, RIGHT) ==> NavState() == Enter(old(NavState()), old(SelectedChildren()))
      ensures IsShort(e, LEFT) ==> NavState() == Back(old(NavState()))
      ensures IsShort(e, UP) || IsShort(e, DOWN) ==>
        currentMenu == old(currentMenu) && menuHistory == old(menuHistory)
      ensures IsShort(e, UP) ==>
        selectedIndex == Max(old(selectedIndex) - 1, 0) && scrollOffset == Min(old(scrollOffset), selectedIndex)
      ensures IsShort(e, DOWN) && !old(CanMoveDown()) ==> unchanged(this)
      ensures IsShort(e, DOWN) && old(CanMoveDown()) ==>
        selectedIndex == old(selectedIndex) + 1 &&
        scrollOffset == if selectedIndex >= old(scrollOffset) + VisibleElements() then old(scrollOffset) + 1
                        else old(scrollOffset)
      ensures IsShort(e, CENTER) ==> unchanged(this)
      ensures IsShort(e, CENTER) ==>
        (called.Some? <==>
          0 <= selectedIndex < |currentMenu| && !currentMenu[selectedIndex].HasSubmenu() &&
          currentMenu[selectedIndex].action.Some?)
      ensures IsShort(e, CENTER) && called.Some? ==> called == currentMenu[selectedIndex].action
      ensures called.Some? ==> IsShort(e, CENTER)
      ensures e.action == ShortClick && e.buttonName !in [UP, DOWN, RIGHT, LEFT, CENTER] ==>
        unchanged(this) && called == None
    {
      called := None;
      if e.buttonName == UP && e.action == ShortClick {
        MoveSelectionUp();
      } else if e.buttonName == DOWN && e.action == ShortClick {
        MoveSelectionDown();
      } else if e.buttonName == RIGHT && e.action == ShortClick {
        EnterSubmenu();
      } else if e.buttonName == LEFT && e.action == ShortClick {
        NavigateBack();
      } else if e.buttonName == CENTER && e.action == ShortClick {
        called := ActivateSelectedItem();
      }
    }

    method SetMenuListViewHeight(height: int)
      modifies this`menuListViewHeight
      ensures menuListViewHeight == height
    {
      menuListViewHeight := height;
    }

    method SetMenuListViewWidth(width: int)
      modifies this`menuListViewWidth
      ensures menuListViewWidth == width
    {
      menuListViewWidth := width;
    }

    method SetScrollSpeed(speed: int)
      modifies this`scrollSpeed
      ensures scrollSpeed == speed
    {
      scrollSpeed := speed;
    }

    /** setScrollStep; a negative step is not modelled. */
    method SetScrollStep(step: int)
      requires step >= 0
      modifies this`scrollStep
      ensures scrollStep == step
    {
      scrollStep := step;
    }

    method SetSelectedPrefix(prefix: string)
      modifies this`selectedPrefix
      ensures selectedPrefix == prefix
    {
      selectedPrefix := prefix;
    }

    method SetOffsetX(x: int)
      modifies this`offsetX
      ensures offsetX == x
    {
      offsetX := x;
    }

    method SetOffsetY(y: int)
      modifies this`offsetY
      ensures offsetY == y
    {
      offsetY := y;
    }

    /** Number of rows drawn: the window height, cut at the end of the list. */
    function RowCount(): (n: nat)
      reads this
      ensures n <= Max(VisibleElements(), 0)
      ensures 0 <= scrollOffset ==> scrollOffset + n <= Max(|currentMenu|, scrollOffset)
    {
      if VisibleElements() <= 0 then 0
      else Max(0, Min(VisibleElements(), |currentMenu| - scrollOffset))
    }

    /** The text of the row showing item `idx`: the selected one with the
        prefix and the scrolled slice of its label, the others clipped. */
    function RowText(idx: nat): string
      reads this`currentMenu, this`selectedIndex, this`selectedPrefix, this`menuListViewWidth, this`labelScrollOffset
      requires idx < |currentMenu|
    {
      if idx == selectedIndex then SelectedRowText(currentMenu[idx].labelText)
      else ClipLabel(currentMenu[idx].labelText, MaxCharsThatFit())
    }

    /** The selected row for label `labelText`: the prefix, then the label
        or, when it is too wide, the slice at the current label scroll. */
    function SelectedRowText(labelText: string): string
      reads this`selectedPrefix, this`menuListViewWidth, this`labelScrollOffset
    {
      selectedPrefix +
      (if |labelText| * CHAR_WIDTH > TextAvailableWidth()
       then Slice(labelText, if labelScrollOffset >= 0 then labelScrollOffset / CHAR_WIDTH else 0, TextAvailableWidth())
       else labelText)
    }

    /** The selected row is in the window. */
    predicate SelectedShown()
      reads this
    {
      VisibleElements() > 0 && scrollOffset <= selectedIndex < scrollOffset + VisibleElements() &&
      selectedIndex < |currentMenu|
    }

    /** The label-scroll part of drawing the selected row `idx`. */
    method UpdateLabelScroll(idx: int, labelWidth: int, room: int, now: Millis)
      requires Valid()
      modifies this`labelScrollOffset, this`scrollingRight, this`isPausing, this`lastScrollUpdate, this`lastSelectedIndex
      ensures Valid()
      ensures Label() == LabelUpdate(old(Label()), idx, labelWidth, room, now, scrollSpeed, scrollStep)
    {
      if idx != lastSelectedIndex {
        labelScrollOffset := 0;
        scrollingRight := false;
        isPausing := false;
        lastScrollUpdate := now;
        lastSelectedIndex := idx;
      }
      if labelWidth > room {
        if isPausing {
          if Elapsed(now, lastScrollUpdate) >= PAUSE_MS {
            isPausing := false;
            lastScrollUpdate := now;
          }
        } else if Elapsed(now, lastScrollUpdate) >= scrollSpeed % TWO_32 {
          if scrollingRight {
            labelScrollOffset := Max(0, labelScrollOffset - scrollStep);
            if labelScrollOffset == 0 {
              isPausing := true;
              scrollingRight := false;
            }
          } else {
            labelScrollOffset := Min(labelWidth - room, labelScrollOffset + scrollStep);
            if labelScrollOffset >= labelWidth - room {
              isPausing := true;
              scrollingRight := true;
            }
          }
          lastScrollUpdate := now;
        }
      }
    }

    /** One row of drawMenu: the text of row `idx`, stepping the label
        scroll first when it is the selected row. */
    method DrawRow(idx: nat, now: Millis) returns (text: string)
      requires Valid() && idx < |currentMenu|
      modifies this`labelScrollOffset, this`scrollingRight, this`isPausing, this`lastScrollUpdate, this`lastSelectedIndex
      ensures Valid()
      ensures Label() == if idx == selectedIndex then
          LabelUpdate(old(Label()), idx, |currentMenu[idx].labelText| * CHAR_WIDTH,
                      TextAvailableWidth(), now, scrollSpeed, scrollStep)
        else old(Label())
      ensures text == RowText(idx)
    {
      var labelText := currentMenu[idx].labelText;
      if idx == selectedIndex {
        var labelPixelWidth := |labelText| * CHAR_WIDTH;
        var textAvailableWidth := TextAvailableWidth();
        UpdateLabelScroll(idx, labelPixelWidth, textAvailableWidth, now);
        if labelPixelWidth > textAvailableWidth {
          var visibleText := SliceToWidth(labelText, labelScrollOffset / CHAR_WIDTH, textAvailableWidth);
          text := selectedPrefix + visibleText;
        } else {
          text := selectedPrefix + labelText;
        }
      } else {
        var maxCharsThatFit := MaxCharsThatFit();
        if LongerThan(|labelText|, maxCharsThatFit) {
          text := (if maxCharsThatFit >= 2 then labelText[..maxCharsThatFit - 2] else labelText) + "..";
        } else {
          text := labelText;
        }
      }
    }

    /** The text and state part of drawMenu: the rows of the window, and
        the selected label's scroll stepped when the selected row is drawn. */
    method DrawMenu(now: Millis) returns (rows: seq<string>)
      requires Valid()
      modifies this`labelScrollOffset, this`scrollingRight, this`isPausing, this`lastScrollUpdate, this`lastSelectedIndex
      ensures Valid()
      ensures Label() == if old(SelectedShown()) then
          LabelUpdate(old(Label()), selectedIndex, |currentMenu[selectedIndex].labelText| * CHAR_WIDTH,
                      TextAvailableWidth(), now, scrollSpeed, scrollStep)
        else old(Label())
      ensures |rows| == RowCount()
      ensures forall i :: 0 <= i < |rows| ==>
        scrollOffset + i < |currentMenu| && rows[i] == RowText(scrollOffset + i)
    {
      rows := [];
      var visibleElements := VisibleElements();
      if visibleElements <= 0 {
        return;
      }
      var i := 0;
      while i < visibleElements && i + scrollOffset < |currentMenu|
        invariant Valid()
        invariant 0 <= i <= visibleElements && i + scrollOffset <= Max(|currentMenu|, scrollOffset)
        invariant |rows| == i
        invariant Label() == if scrollOffset <= selectedIndex < scrollOffset + i then
            LabelUpdate(old(Label()), selectedIndex, |currentMenu[selectedIndex].labelText| * CHAR_WIDTH,
                        TextAvailableWidth(), now, scrollSpeed, scrollStep)
          else old(Label())
        invariant forall k :: 0 <= k < i ==> scrollOffset + k < |currentMenu| && rows[k] == RowText(scrollOffset + k)
      {
        var text := DrawRow(i + scrollOffset, now);
        rows := rows + [text];
        i := i + 1;
      }
    }
  }
}
