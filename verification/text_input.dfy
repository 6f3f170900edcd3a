/** The text input widget of src/form/TextInputElement.h: a one-line
    editor driven by five buttons, with a cursor, four character sets that
    the UP/DOWN buttons cycle through, and insertion and deletion by
    double click. */
module TextInput {
  import opened Common

  /** A character of an Arduino String: one byte. */
  type Byte = c: char | c as int < 0x100

  datatype CharSet = Lower | Upper | Digit | Symbol

  function Ord(cs: CharSet): nat
  {
    match cs
    case Lower => 0
    case Upper => 1
    case Digit => 2
    case Symbol => 3
  }

  /** `(charSet + 1) % 4` */
  function NextSet(cs: CharSet): (r: CharSet)
    ensures Ord(r) == (Ord(cs) + 1) % 4
  {
    match cs
    case Lower => Upper
    case Upper => Digit
    case Digit => Symbol
    case Symbol => Lower
  }

  /** `(charSet + 3) % 4` */
  function PrevSet(cs: CharSet): (r: CharSet)
    ensures Ord(r) == (Ord(cs) + 3) % 4
  {
    match cs
    case Lower => Symbol
    case Upper => Lower
    case Digit => Upper
    case Symbol => Digit
  }

  /** Rotating the character set forward and back are inverse, and four
      rotations in one direction come back to the start. */
  lemma SetRotationInverse(cs: CharSet)
    ensures PrevSet(NextSet(cs)) == cs && NextSet(PrevSet(cs)) == cs
    ensures NextSet(NextSet(NextSet(NextSet(cs)))) == cs
  {
  }

  const SYMBOLS: seq<Byte> :=
    ['.', ',', '!', '?', ':', ';', '-', '\'', '(', ')', '[', ']', '{', '}',
     '/', '\\', '^', '~', '*', '&', '%', '$', '#', '@']

  /** std::find over SYMBOLS: the first position holding c, or |s| if none. */
  function IndexOf(s: seq<Byte>, c: Byte): (i: nat)
    ensures i <= |s|
    ensures i < |s| ==> s[i] == c
    ensures forall j :: 0 <= j < i ==> s[j] != c
  {
    if s == [] then 0
    else if s[0] == c then 0
    else 1 + IndexOf(s[1..], c)
  }

  lemma SymbolsDistinct()
    ensures forall i, j :: 0 <= i < j < |SYMBOLS| ==> SYMBOLS[i] != SYMBOLS[j]
  {
  }

  lemma IndexOfSymbol(k: nat)
    requires k < |SYMBOLS|
    ensures IndexOf(SYMBOLS, SYMBOLS[k]) == k
  {
    SymbolsDistinct();
  }

  /** The characters a set cycles through. */
  predicate InSet(c: Byte, cs: CharSet)
  {
    match cs
    case Lower => 'a' <= c <= 'z'
    case Upper => 'A' <= c <= 'Z'
    case Digit => '0' <= c <= '9'
    case Symbol => c in SYMBOLS
  }

  /** The first character of a set, written at the cursor when the set is
      rotated. */
  function FirstChar(cs: CharSet): (c: Byte)
    ensures InSet(c, cs)
  {
    match cs
    case Lower => 'a'
    case Upper => 'A'
    case Digit => '0'
    case Symbol => SYMBOLS[0]
  }

  /** cycleCharAtCursor on one character. */
  function CycleForward(c: Byte, cs: CharSet): Byte
  {
    match cs
    case Lower => if c < 'z' then (c as int + 1) as char else 'a'
    case Upper => if c < 'Z' then (c as int + 1) as char else 'A'
    case Digit => if c < '9' then (c as int + 1) as char else '0'
    case Symbol => NextSymbol(c)
  }

  /** The symbol after c in SYMBOLS; the first one after the last, or when
      c is not a symbol. */
  function NextSymbol(c: Byte): Byte
  {
    var i := IndexOf(SYMBOLS, c);
    if i < |SYMBOLS| && i + 1 < |SYMBOLS| then SYMBOLS[i + 1] else SYMBOLS[0]
  }

  /** The symbol before c in SYMBOLS; the last one before the first, or
      when c is not a symbol. */
  function PrevSymbol(c: Byte): Byte
  {
    var i := IndexOf(SYMBOLS, c);
    if i < |SYMBOLS| && i != 0 then SYMBOLS[i - 1] else SYMBOLS[|SYMBOLS| - 1]
  }

  /** cycleCharAtCursorReverse on one character. */
  function CycleBackward(c: Byte, cs: CharSet): Byte
  {
    match cs
    case Lower => if c > 'a' then (c as int - 1) as char else 'z'
    case Upper => if c > 'A' then (c as int - 1) as char else 'Z'
    case Digit => if c > '0' then (c as int - 1) as char else '9'
    case Symbol => PrevSymbol(c)
  }

  /** The wrap-around points of both cycles. */
  lemma CycleWraps()
    ensures CycleForward('z', Lower) == 'a' && CycleBackward('a', Lower) == 'z'
    ensures CycleForward('Z', Upper) == 'A' && CycleBackward('A', Upper) == 'Z'
    ensures CycleForward('9', Digit) == '0' && CycleBackward('0', Digit) == '9'
    ensures CycleForward('@', Symbol) == '.' && CycleBackward('.', Symbol) == '@'
  {
    IndexOfSymbol(|SYMBOLS| - 1);
    IndexOfSymbol(0);
  }

  /** On SYMBOLS the two cycles move to the next and previous position,
      wrapping around at the ends. */
  lemma SymbolCycle(k: nat)
    requires k < |SYMBOLS|
    ensures NextSymbol(SYMBOLS[k]) == if k + 1 < |SYMBOLS| then SYMBOLS[k + 1] else SYMBOLS[0]
    ensures PrevSymbol(SYMBOLS[k]) == if k > 0 then SYMBOLS[k - 1] else SYMBOLS[|SYMBOLS| - 1]
  {
    IndexOfSymbol(k);
  }

  lemma SymbolCycleInverse(c: Byte)
    requires c in SYMBOLS
    ensures NextSymbol(c) in SYMBOLS && PrevSymbol(c) in SYMBOLS
    ensures PrevSymbol(NextSymbol(c)) == c && NextSymbol(PrevSymbol(c)) == c
  {
    var n := |SYMBOLS|;
    var k := IndexOf(SYMBOLS, c);
    assert k < n;
    SymbolCycle(k);
    if k + 1 < n {
      SymbolCycle(k + 1);
    } else {
      SymbolCycle(0);
    }
    if k > 0 {
      SymbolCycle(k - 1);
    } else {
      SymbolCycle(n - 1);
    }
  }

  /** Within the active set, cycling stays in the set and the two
      directions undo each other. */
  lemma CycleInverse(c: Byte, cs: CharSet)
    requires InSet(c, cs)
    ensures InSet(CycleForward(c, cs), cs) && InSet(CycleBackward(c, cs), cs)
    ensures CycleBackward(CycleForward(c, cs), cs) == c
    ensures CycleForward(CycleBackward(c, cs), cs) == c
  {
    if cs == Symbol {
      SymbolCycleInverse(c);
    }
  }

  /** No symbol is a space, a letter or a digit: the four sets and the
      space are disjoint. */
  lemma SymbolsNotAlphanumeric()
    ensures forall c :: c in SYMBOLS ==> c != ' ' && !InSet(c, Lower) && !InSet(c, Upper) && !InSet(c, Digit)
  {
  }

  /** updateCharSetByCursor for the character under the cursor: space
      counts as lower case; a character of no set keeps the current one. */
  function CharSetFor(c: Byte, current: CharSet): (r: CharSet)
    ensures InSet(c, r) || c == ' ' || r == current
    ensures InSet(c, Lower) || c == ' ' ==> r == Lower
    ensures InSet(c, Upper) ==> r == Upper
    ensures InSet(c, Digit) ==> r == Digit
    ensures InSet(c, Symbol) ==> r == Symbol
    ensures c != ' ' && (forall cs :: !InSet(c, cs)) ==> r == current
  {
    SymbolsNotAlphanumeric();
    if 'a' <= c <= 'z' || c == ' ' then Lower
    else if 'A' <= c <= 'Z' then Upper
    else if '0' <= c <= '9' then Digit
    else if c in SYMBOLS then Symbol
    else current
  }

  /** The character set after the cursor has moved to `cursor`. */
  function CharSetAt(value: seq<Byte>, cursor: int, current: CharSet): CharSet
  {
    if 0 <= cursor < |value| then CharSetFor(value[cursor], current) else current
  }

  /** The value after ensureCursorInValue: padded with spaces until the
      cursor is on a character. */
  function Padded(value: seq<Byte>, cursor: nat): (r: seq<Byte>)
    ensures cursor < |r|
    ensures |value| <= |r| && r[..|value|] == value
    ensures forall i :: |value| <= i < |r| ==> r[i] == ' '
  {
    PadTo(value, cursor + 1)
  }

  /** Characters that fit in the input box of a widget `elementWidth` wide. */
  function MaxVisibleChars(elementWidth: int): int
  {
    TruncDiv((elementWidth - 4) - 2 * 3, 6)
  }

  /** The horizontal window adjustment of draw: move the first visible
      character just far enough that the cursor is inside the window. */
  function AdjustStart(visibleStart: int, cursor: int, maxVisible: int): (r: int)
    ensures maxVisible >= 1 ==> r <= cursor < r + maxVisible
    ensures visibleStart <= cursor < visibleStart + maxVisible ==> r == visibleStart
    ensures 0 <= visibleStart && 0 <= cursor ==> 0 <= r
  {
    if cursor < visibleStart then cursor
    else if cursor >= visibleStart + maxVisible then cursor - maxVisible + 1
    else visibleStart
  }

  class TextInputElement {
    const labelText: string
    var value: seq<Byte>
    var cursorPos: int
    var visibleStart: int
    var isEditing: bool
    var isSelected: bool
    var charSet: CharSet

    ghost predicate Valid()
      reads this
    {
      0 <= cursorPos <= |value| && 0 <= visibleStart
    }

    /** The events handleInput consumes: while editing, a short or double
        click of any of the five buttons. */
    predicate Consumes(e: Event)
      reads this
    {
      isEditing && (e.action == ShortClick || e.action == DoubleClick) &&
      (e.buttonName == LEFT || e.buttonName == RIGHT || e.buttonName == CENTER ||
       e.buttonName == UP || e.buttonName == DOWN)
    }

    constructor(labelText: string, defaultValue: seq<Byte>)
      ensures Valid()
      ensures this.labelText == labelText && value == defaultValue
      ensures cursorPos == 0 && visibleStart == 0 && charSet == Lower
      ensures !isEditing && !isSelected
    {
      this.labelText := labelText;
      value := defaultValue;
      cursorPos := 0;
      visibleStart := 0;
      isEditing := false;
      isSelected := false;
      charSet := Lower;
    }

    /** The state-changing part of draw: the window is moved to show the
        cursor, and the visible slice of the value is returned. */
    method Draw(elementWidth: int) returns (shown: seq<Byte>)
      requires Valid()
      modifies this`visibleStart
      ensures Valid()
      ensures visibleStart == AdjustStart(old(visibleStart), cursorPos, MaxVisibleChars(elementWidth))
      ensures shown == Substring(value, visibleStart, visibleStart + MaxVisibleChars(elementWidth))
    {
      var maxVisibleChars := MaxVisibleChars(elementWidth);
      if cursorPos < visibleStart {
        visibleStart := cursorPos;
      } else if cursorPos >= visibleStart + maxVisibleChars {
        visibleStart := cursorPos - maxVisibleChars + 1;
      }
      shown := Substring(value, visibleStart, visibleStart + maxVisibleChars);
    }

    method SetSelected(select: bool)
      modifies this`isSelected
      ensures isSelected == select
    {
      isSelected := select;
    }

    /** setEditing: entering edit mode puts a character under the cursor
        (appending 'a' when the cursor is past the end) and selects lower
        case; leaving it only clears the flag. */
    method SetEditing(editing: bool)
      requires Valid()
      modifies this`isEditing, this`value, this`charSet
      ensures Valid() && isEditing == editing
      ensures editing ==> cursorPos < |value| && charSet == Lower
      ensures editing ==> value == if cursorPos >= |old(value)| then old(value) + ['a'] else old(value)
      ensures !editing ==> value == old(value) && charSet == old(charSet)
    {
      isEditing := editing;
      if editing {
        if cursorPos >= |value| {
          value := value + ['a'];
        }
        charSet := Lower;
      }
    }

    /** ensureCursorInValue: pad with spaces until the cursor is on a
        character. */
    method EnsureCursorInValue()
      requires Valid()
      modifies this`value
      ensures Valid()
      ensures value == Padded(old(value), cursorPos)
    {
      while cursorPos >= |value|
        invariant |old(value)| <= |value| <= Max(|old(value)|, cursorPos + 1)
        invariant value == old(value) + Spaces(|value| - |old(value)|)
        decreases cursorPos + 1 - |value|
      {
        value := value + [' '];
      }
    }

    method SetCharToStartOfCharSet()
      requires Valid()
      modifies this`value
      ensures Valid()
      ensures cursorPos < |Padded(old(value), cursorPos)|
      ensures value == Padded(old(value), cursorPos)[cursorPos := FirstChar(charSet)]
    {
      EnsureCursorInValue();
      var c := FirstChar(charSet);
      value := value[cursorPos := c];
    }

    method CycleCharAtCursor()
      requires Valid()
      modifies this`value
      ensures Valid()
      ensures var p := Padded(old(value), cursorPos);
        cursorPos < |p| && value == p[cursorPos := CycleForward(p[cursorPos], charSet)]
    {
      EnsureCursorInValue();
      var c := CycleForward(value[cursorPos], charSet);
      value := value[cursorPos := c];
    }

    method CycleCharAtCursorReverse()
      requires Valid()
      modifies this`value
      ensures Valid()
      ensures var p := Padded(old(value), cursorPos);
        cursorPos < |p| && value == p[cursorPos := CycleBackward(p[cursorPos], charSet)]
    {
      EnsureCursorInValue();
      var c := CycleBackward(value[cursorPos], charSet);
      value := value[cursorPos := c];
    }

    method UpdateCharSetByCursor()
      requires Valid()
      modifies this`charSet
      ensures charSet == CharSetAt(value, cursorPos, old(charSet))
    {
      if cursorPos < |value| {
        charSet := CharSetFor(value[cursorPos], charSet);
      }
    }

    /** handleInput: returns whether the event was consumed. */
    method HandleInput(e: Event) returns (handled: bool)
      requires Valid()
      modifies this
      ensures Valid()
      ensures handled == old(Consumes(e))
      ensures !handled ==> unchanged(this)
      ensures visibleStart == old(visibleStart) && isSelected == old(isSelected)
      ensures handled && IsShort(e, LEFT) ==>
        isEditing && value == old(value) && cursorPos == Max(old(cursorPos) - 1, 0) &&
        charSet == CharSetAt(value, cursorPos, old(charSet))
      ensures handled && IsShort(e, RIGHT) ==>
        isEditing && value == old(value) && cursorPos == Min(old(cursorPos) + 1, |value|) &&
        charSet == CharSetAt(value, cursorPos, old(charSet))
      ensures handled && (IsShort(e, CENTER) || IsDouble(e, CENTER)) ==>
        !isEditing && value == old(value) && cursorPos == old(cursorPos) && charSet == old(charSet)
      ensures handled && IsShort(e, UP) ==>
        var p := Padded(old(value), cursorPos);
        isEditing && cursorPos == old(cursorPos) && charSet == old(charSet) &&
        cursorPos < |p| && value == p[cursorPos := CycleForward(p[cursorPos], charSet)]
      ensures handled && IsShort(e, DOWN) ==>
        var p := Padded(old(value), cursorPos);
        isEditing && cursorPos == old(cursorPos) && charSet == old(charSet) &&
        cursorPos < |p| && value == p[cursorPos := CycleBackward(p[cursorPos], charSet)]
      ensures handled && IsDouble(e, UP) ==>
        isEditing && cursorPos == old(cursorPos) && charSet == NextSet(old(charSet)) &&
        cursorPos < |Padded(old(value), cursorPos)| &&
        value == Padded(old(value), cursorPos)[cursorPos := FirstChar(charSet)]
      ensures handled && IsDouble(e, DOWN) ==>
        isEditing && cursorPos == old(cursorPos) && charSet == PrevSet(old(charSet)) &&
        cursorPos < |Padded(old(value), cursorPos)| &&
        value == Padded(old(value), cursorPos)[cursorPos := FirstChar(charSet)]
      ensures handled && IsDouble(e, LEFT) ==>
        isEditing && cursorPos == old(cursorPos) && charSet == old(charSet) &&
        value == if cursorPos < |old(value)| then old(value)[..cursorPos] + old(value)[cursorPos + 1..]
                 else old(value)
      ensures handled && IsDouble(e, RIGHT) ==>
        isEditing && cursorPos == old(cursorPos) + 1 && charSet == old(charSet) &&
        value == old(value)[..old(cursorPos)] + [' '] + old(value)[old(cursorPos)..]
    {
      if !isEditing {
        return false;
      }
      handled := true;
      if e.action == ShortClick {
        if e.buttonName == LEFT {
          cursorPos := Constrain(cursorPos - 1, 0, |value|);
          UpdateCharSetByCursor();
        } else if e.buttonName == RIGHT {
          cursorPos := Constrain(cursorPos + 1, 0, |value|);
          UpdateCharSetByCursor();
        } else if e.buttonName == CENTER {
          SetEditing(false);
        } else if e.buttonName == UP {
          CycleCharAtCursor();
        } else if e.buttonName == DOWN {
          CycleCharAtCursorReverse();
        } else {
          handled := false;
        }
      } else if e.action == DoubleClick {
        if e.buttonName == UP {
          charSet := NextSet(charSet);
          SetCharToStartOfCharSet();
        } else if e.buttonName == DOWN {
          charSet := PrevSet(charSet);
          SetCharToStartOfCharSet();
        } else if e.buttonName == LEFT {
          if cursorPos < |value| {
            value := value[..cursorPos] + value[cursorPos + 1..];
          }
        } else if e.buttonName == RIGHT {
          value := value[..cursorPos] + [' '] + value[cursorPos..];
          cursorPos := cursorPos + 1;
        } else if e.buttonName == CENTER {
          SetEditing(false);
        } else {
          handled := false;
        }
      } else {
        handled := false;
      }
    }
  }

  /** getHeight: label (10) plus box (14) plus a 5 px margin. */
  const HEIGHT: int := 10 + 14 + 5
}
