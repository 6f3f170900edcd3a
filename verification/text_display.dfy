/** The scrolling text viewer of src/display/TextDisplay.h: a fixed-capacity
    buffer of lines that drops the oldest line when full, a selected line
    kept inside a window of visible lines, and a horizontal scroll over
    fixed-width rows. Counters are uint16_t. */
module TextViewer {
  import opened Common

  /** A uint16_t value. */
  type Word = x: int | 0 <= x < 0x1_0000

  /** The row text of a line: the characters from `scroll` on, padded with
      spaces, exactly `width` long. */
  function DisplayText(text: string, scroll: nat, width: nat): (r: string)
    ensures |r| == width
  {
    PadTo(text, scroll + width)[scroll..scroll + width]
  }

  /** Character i of a row is the line's character at scroll + i, or a
      space past the line's end. */
  lemma DisplayTextChars(text: string, scroll: nat, width: nat)
    ensures forall i :: 0 <= i < width ==>
      DisplayText(text, scroll, width)[i] == if scroll + i < |text| then text[scroll + i] else ' '
  {
    var p := PadTo(text, scroll + width);
    forall i | 0 <= i < width
      ensures DisplayText(text, scroll, width)[i] == if scroll + i < |text| then text[scroll + i] else ' '
    {
      assert DisplayText(text, scroll, width)[i] == p[scroll + i];
      if scroll + i < |text| {
        assert p[..|text|][scroll + i] == p[scroll + i];
      }
    }
  }

  /** How far a line can scroll: the part of it beyond `width`, its length
      taken as a uint16_t. */
  function Overhang(text: string, width: Word): (r: nat)
    ensures U16(|text|) > width ==> r + width == U16(|text|)
    ensures U16(|text|) <= width ==> r == 0
  {
    var totalLength := Max(width, U16(|text|));
    if totalLength > width then totalLength - width else 0
  }

  /** The largest overhang of `rows`, 0 for none; like every overhang it
      fits in a uint16_t. */
  function MaxOverhang(rows: seq<string>, width: Word): (r: nat)
    ensures r < TWO_16
  {
    if rows == [] then 0
    else
      var m := MaxOverhang(rows[..|rows| - 1], width);
      var o := Overhang(rows[|rows| - 1], width);
      if o > m then o else m
  }

  /** MaxOverhang is the maximum: it bounds the overhang of every row and
      is 0 or the overhang of one of them. */
  lemma {:induction false} MaxOverhangIsMax(rows: seq<string>, width: Word)
    ensures forall i :: 0 <= i < |rows| ==> Overhang(rows[i], width) <= MaxOverhang(rows, width)
    ensures MaxOverhang(rows, width) == 0 || exists i :: 0 <= i < |rows| && Overhang(rows[i], width) == MaxOverhang(rows, width)
  {
    if rows != [] {
      var init := rows[..|rows| - 1];
      MaxOverhangIsMax(init, width);
      assert forall i :: 0 <= i < |init| ==> init[i] == rows[i];
      if MaxOverhang(rows, width) != 0 && MaxOverhang(rows, width) != MaxOverhang(init, width) {
        assert Overhang(rows[|rows| - 1], width) == MaxOverhang(rows, width);
      }
    }
  }

  lemma MaxOverhangSnoc(rows: seq<string>, lo: nat, i: nat, width: Word)
    requires lo <= i < |rows|
    ensures MaxOverhang(rows[lo..i + 1], width) == Max(MaxOverhang(rows[lo..i], width), Overhang(rows[i], width))
  {
    assert rows[lo..i + 1][..i - lo] == rows[lo..i];
  }

  class TextDisplay {
    const charsPerLine: Word
    const visibleLines: Word
    const maxLines: Word
    const lines: array<string>
    var currentLines: Word
    var selectedIndex: Word
    var firstVisibleIndex: Word
    var horizontalScroll: Word

    ghost predicate Valid()
      reads this
    {
      lines.Length == maxLines >= 1 &&
      currentLines <= maxLines && firstVisibleIndex <= currentLines &&
      (currentLines == 0 ==> selectedIndex == 0 && firstVisibleIndex == 0) &&
      (currentLines > 0 ==> selectedIndex < currentLines) &&
      (visibleLines >= 1 && currentLines > 0 ==> Window())
    }

    /** The selected line lies in the window of visible lines, and the
        window is either at the top or ends inside the buffer. */
    predicate Window()
      reads this
    {
      firstVisibleIndex <= selectedIndex < firstVisibleIndex + visibleLines &&
      (firstVisibleIndex + visibleLines <= currentLines || firstVisibleIndex == 0)
    }

    /** The lines held, oldest first. */
    function Contents(): seq<string>
      reads this, lines
      requires currentLines <= lines.Length
    {
      lines[..currentLines]
    }

    /** Where getMaxHorizontalScroll stops: the end of the window, whose
        index is a uint16_t sum, or the end of the buffer if sooner. */
    function ScrollEnd(): (end: nat)
      reads this
      ensures firstVisibleIndex <= end
      ensures end <= Max(firstVisibleIndex, currentLines)
      ensures firstVisibleIndex <= currentLines && firstVisibleIndex + visibleLines < TWO_16 ==>
        end == Min(firstVisibleIndex + visibleLines, currentLines)
    {
      Max(firstVisibleIndex, Min(U16(firstVisibleIndex + visibleLines), currentLines))
    }

    /** The lines the horizontal scroll limit looks at. */
    function ScrollRows(): seq<string>
      reads this, lines
      requires Valid()
    {
      lines[firstVisibleIndex..ScrollEnd()]
    }

    /** A capacity of zero is refused: a full buffer writes its last slot. */
    constructor(maxLines: Word, charsPerLine: Word, visibleLines: Word)
      requires maxLines >= 1
      ensures Valid() && fresh(lines)
      ensures this.maxLines == maxLines && this.charsPerLine == charsPerLine && this.visibleLines == visibleLines
      ensures Contents() == [] && selectedIndex == 0 && firstVisibleIndex == 0 && horizontalScroll == 0
    {
      this.maxLines := maxLines;
      this.charsPerLine := charsPerLine;
      this.visibleLines := visibleLines;
      lines := new string[maxLines](_ => "");
      currentLines, selectedIndex, firstVisibleIndex, horizontalScroll := 0, 0, 0, 0;
    }

    /** The shift loop of addLine on a full buffer: every line moves down
        one slot, the oldest is lost and the new one is written last. */
    method ShiftIn(text: string)
      requires Valid() && currentLines == maxLines
      modifies lines
      ensures lines[..] == old(lines[..])[1..] + [text]
    {
      var i := 1;
      while i < maxLines
        invariant 1 <= i <= maxLines
        invariant forall k :: 0 <= k < i - 1 ==> lines[k] == old(lines[k + 1])
        invariant forall k :: i - 1 <= k < maxLines ==> lines[k] == old(lines[k])
      {
        lines[i - 1] := lines[i];
        i := i + 1;
      }
      lines[maxLines - 1] := text;
    }

    /** addLine: append, dropping the oldest line when full; the new line
        is selected and the window moves to show the last lines. */
    method AddLine(text: string)
      requires Valid()
      modifies this`currentLines, this`selectedIndex, this`firstVisibleIndex, lines
      ensures Valid()
      ensures old(currentLines) < maxLines ==>
        currentLines == old(currentLines) + 1 && Contents() == old(Contents()) + [text]
      ensures old(currentLines) == maxLines ==>
        currentLines == maxLines && Contents() == old(Contents())[1..] + [text]
      ensures selectedIndex == currentLines - 1
      ensures currentLines > visibleLines ==> firstVisibleIndex == currentLines - visibleLines
      ensures currentLines <= visibleLines ==> firstVisibleIndex == old(firstVisibleIndex)
    {
      if currentLines < maxLines {
        lines[currentLines] := text;
        currentLines := currentLines + 1;
      } else {
        ShiftIn(text);
      }
      selectedIndex := currentLines - 1;
      if currentLines > visibleLines {
        firstVisibleIndex := currentLines - visibleLines;
      }
    }

    /** clear: the held lines are emptied and every counter returns to 0. */
    method Clear()
      requires Valid()
      modifies this`currentLines, this`selectedIndex, this`firstVisibleIndex, this`horizontalScroll, lines
      ensures Valid()
      ensures currentLines == 0 && selectedIndex == 0 && firstVisibleIndex == 0 && horizontalScroll == 0
      ensures forall k :: 0 <= k < old(currentLines) ==> lines[k] == ""
      ensures forall k :: old(currentLines) <= k < lines.Length ==> lines[k] == old(lines[k])
    {
      var i := 0;
      while i < currentLines
        invariant Valid() && currentLines == old(currentLines)
        invariant 0 <= i <= currentLines
        invariant forall k :: 0 <= k < i ==> lines[k] == ""
        invariant forall k :: i <= k < lines.Length ==> lines[k] == old(lines[k])
      {
        lines[i] := "";
        i := i + 1;
      }
      currentLines, selectedIndex, firstVisibleIndex, horizontalScroll := 0, 0, 0, 0;
    }

    /** scrollUp: the selection moves up one line, the window following. */
    method ScrollUp()
      requires Valid()
      modifies this`selectedIndex, this`firstVisibleIndex
      ensures Valid()
      ensures old(selectedIndex) == 0 ==> selectedIndex == 0 && firstVisibleIndex == old(firstVisibleIndex)
      ensures old(selectedIndex) > 0 ==>
        selectedIndex == old(selectedIndex) - 1 && firstVisibleIndex == Min(old(firstVisibleIndex), selectedIndex)
    {
      if selectedIndex > 0 {
        selectedIndex := selectedIndex - 1;
        if selectedIndex < firstVisibleIndex {
          firstVisibleIndex := selectedIndex;
        }
      }
    }

    /** scrollDown: the selection moves down one line up to the last one,
        the window following. */
    method ScrollDown()
      requires Valid()
      modifies this`selectedIndex, this`firstVisibleIndex
      ensures Valid()
      ensures old(selectedIndex) + 1 < currentLines ==> selectedIndex == old(selectedIndex) + 1
      ensures old(selectedIndex) + 1 >= currentLines ==>
        selectedIndex == old(selectedIndex) && firstVisibleIndex == old(firstVisibleIndex)
      ensures firstVisibleIndex ==
        if old(selectedIndex) + 1 < currentLines && old(selectedIndex) + 1 >= old(firstVisibleIndex) + visibleLines
        then selectedIndex - visibleLines + 1 else old(firstVisibleIndex)
    {
      if selectedIndex < currentLines - 1 {
        selectedIndex := selectedIndex + 1;
        if selectedIndex >= firstVisibleIndex + visibleLines {
          firstVisibleIndex := selectedIndex - visibleLines + 1;
        }
      }
    }

    /** getMaxHorizontalScroll: the largest overhang of the lines in view. */
    method GetMaxHorizontalScroll() returns (maxScroll: Word)
      requires Valid()
      ensures maxScroll == MaxOverhang(ScrollRows(), charsPerLine)
    {
      ghost var all := lines[..];
      var first := firstVisibleIndex;
      var endLine := Min(U16(first + visibleLines), currentLines);
      maxScroll := 0;
      var i := first;
      while i < endLine
        invariant first <= i <= Max(first, endLine)
        invariant maxScroll == MaxOverhang(all[first..i], charsPerLine)
      {
        var text := lines[i];
        var totalLength := Max(charsPerLine, U16(|text|));
        var possible := if totalLength > charsPerLine then totalLength - charsPerLine else 0;
        assert possible == Overhang(all[i], charsPerLine);
        MaxOverhangSnoc(all, first, i, charsPerLine);
        if possible > maxScroll {
          maxScroll := possible;
        }
        i := i + 1;
      }
      assert all[first..i] == ScrollRows();
    }

    /** scrollLeft: the scroll grows by `step` as a uint16_t sum, capped at
        the scroll limit, which it therefore never exceeds. */
    method ScrollLeft(step: Word)
      requires Valid()
      modifies this`horizontalScroll
      ensures Valid()
      ensures horizontalScroll == Min(U16(old(horizontalScroll) + step), MaxOverhang(ScrollRows(), charsPerLine))
      ensures horizontalScroll <= MaxOverhang(ScrollRows(), charsPerLine)
    {
      var maxScroll := GetMaxHorizontalScroll();
      ghost var rows := ScrollRows();
      horizontalScroll := Min(U16(horizontalScroll + step), maxScroll);
      assert ScrollRows() == rows;
    }

    /** scrollRight: the scroll shrinks by `step`, stopping at 0. */
    method ScrollRight(step: Word)
      modifies this`horizontalScroll
      ensures horizontalScroll == Max(old(horizontalScroll) - step, 0)
    {
      if horizontalScroll >= step {
        horizontalScroll := horizontalScroll - step;
      } else {
        horizontalScroll := 0;
      }
    }

    /** handleInput: short UP/DOWN move the selection, short LEFT/RIGHT
        scroll by one character and double LEFT/RIGHT by five. */
    method HandleInput(e: Event)
      requires Valid()
      modifies this`selectedIndex, this`firstVisibleIndex, this`horizontalScroll
      ensures Valid()
      ensures !IsShort(e, UP) && !IsShort(e, DOWN) ==>
        selectedIndex == old(selectedIndex) && firstVisibleIndex == old(firstVisibleIndex)
      ensures IsShort(e, UP) && old(selectedIndex) == 0 ==>
        selectedIndex == 0 && firstVisibleIndex == old(firstVisibleIndex)
      ensures IsShort(e, UP) && old(selectedIndex) > 0 ==>
        selectedIndex == old(selectedIndex) - 1 && firstVisibleIndex == Min(old(firstVisibleIndex), selectedIndex)
      ensures IsShort(e, DOWN) && old(selectedIndex) + 1 < currentLines ==> selectedIndex == old(selectedIndex) + 1
      ensures IsShort(e, DOWN) && old(selectedIndex) + 1 >= currentLines ==>
        selectedIndex == old(selectedIndex) && firstVisibleIndex == old(firstVisibleIndex)
      ensures IsShort(e, DOWN) ==>
        firstVisibleIndex ==
          if old(selectedIndex) + 1 < currentLines && old(selectedIndex) + 1 >= old(firstVisibleIndex) + visibleLines
          then selectedIndex - visibleLines + 1 else old(firstVisibleIndex)
      ensures IsShort(e, RIGHT) ==> horizontalScroll == Max(old(horizontalScroll) - 1, 0)
      ensures IsDouble(e, RIGHT) ==> horizontalScroll == Max(old(horizontalScroll) - 5, 0)
      ensures IsShort(e, LEFT) ==>
        horizontalScroll == Min(U16(old(horizontalScroll) + 1), MaxOverhang(ScrollRows(), charsPerLine))
      ensures IsDouble(e, LEFT) ==>
        horizontalScroll == Min(U16(old(horizontalScroll) + 5), MaxOverhang(ScrollRows(), charsPerLine))
      ensures !IsShort(e, LEFT) && !IsShort(e, RIGHT) && !IsDouble(e, LEFT) && !IsDouble(e, RIGHT) ==>
        horizontalScroll == old(horizontalScroll)
    {
      if e.buttonName == UP && e.action == ShortClick {
        ScrollUp();
      } else if e.buttonName == DOWN && e.action == ShortClick {
        ScrollDown();
      } else if e.buttonName == RIGHT && e.action == ShortClick {
        ScrollRight(1);
      } else if e.buttonName == LEFT && e.action == ShortClick {
        ScrollLeft(1);
      } else if e.buttonName == RIGHT && e.action == DoubleClick {
        ScrollRight(5);
      } else if e.buttonName == LEFT && e.action == DoubleClick {
        ScrollLeft(5);
      }
    }

    /** getDisplayText: pad the line, then cut the row at the scroll. */
    method GetDisplayText(text: string) returns (row: string)
      ensures row == DisplayText(text, horizontalScroll, charsPerLine)
    {
      var paddedText := text;
      while |paddedText| < horizontalScroll + charsPerLine
        invariant |text| <= |paddedText| <= Max(|text|, horizontalScroll + charsPerLine)
        invariant paddedText[..|text|] == text
        invariant forall k :: |text| <= k < |paddedText| ==> paddedText[k] == ' '
        decreases horizontalScroll + charsPerLine - |paddedText|
      {
        paddedText := paddedText + " ";
      }
      assert paddedText == PadTo(text, horizontalScroll + charsPerLine);
      row := Substring(paddedText, horizontalScroll, horizontalScroll + charsPerLine);
    }

    /** One row of draw: the line at `idx` behind its selection marker. */
    function Row(idx: nat): string
      reads this, lines
      requires idx < lines.Length
    {
      (if idx == selectedIndex then ">" else " ") + DisplayText(lines[idx], horizontalScroll, charsPerLine)
    }

    /** The loop body of draw: the selection marker, then the line's row
        text. */
    method DrawRow(lineIdx: nat) returns (row: string)
      requires lineIdx < lines.Length
      ensures row == Row(lineIdx)
    {
      var displayText := GetDisplayText(lines[lineIdx]);
      row := (if lineIdx == selectedIndex then ">" else " ") + displayText;
    }

    /** The text part of draw: one row per visible line, from the first
        visible one on, the selected one marked with '>'. */
    method Draw() returns (rows: seq<string>)
      requires Valid()
      ensures |rows| == Min(visibleLines, currentLines - firstVisibleIndex)
      ensures forall i :: 0 <= i < |rows| ==> rows[i] == Row(firstVisibleIndex + i)
    {
      var maxVisible := Min(visibleLines, U16(currentLines - firstVisibleIndex));
      assert maxVisible == Min(visibleLines, currentLines - firstVisibleIndex);
      rows := [];
      var i := 0;
      while i < maxVisible
        invariant 0 <= i <= maxVisible
        invariant firstVisibleIndex + maxVisible <= currentLines <= lines.Length
        invariant |rows| == i
        invariant forall k :: 0 <= k < i ==> rows[k] == Row(firstVisibleIndex + k)
      {
        var row := DrawRow(U16(firstVisibleIndex + i));
        rows := rows + [row];
        i := i + 1;
      }
    }
  }
}
