/** The battery indicator of src/status/StatusBattery.cpp: a clamped level,
    a charging flag and a switch for the percent text, from which `draw`
    picks one of five icons and formats the percentage. */
module Battery {
  import opened Common

  const ICON_WIDTH := 14
  const CHAR_WIDTH := 6
  const HEIGHT := 9

  /** The five sprites. */
  datatype Icon = Charging | Full | Bars65 | Bars30 | Empty

  /** The icon choice of `draw`: charging overrides the level, then the
      thresholds 65, 30 and 5 are tried from the top. */
  function IconFor(level: int, isCharging: bool): (icon: Icon)
    ensures icon == Charging <==> isCharging
    ensures icon == Full <==> !isCharging && level > 65
    ensures icon == Bars65 <==> !isCharging && 30 < level <= 65
    ensures icon == Bars30 <==> !isCharging && 5 < level <= 30
    ensures icon == Empty <==> !isCharging && level <= 5
  {
    if isCharging then Charging
    else if level > 65 then Full
    else if level > 30 then Bars65
    else if level > 5 then Bars30
    else Empty
  }

  /** The bars a level sprite shows; the charging sprite shows a plug
      instead, so it has no bar count. */
  function Bars(icon: Icon): nat
    requires icon != Charging
  {
    match icon
    case Empty => 0
    case Bars30 => 1
    case Bars65 => 2
    case Full => 3
  }

  /** A higher level never shows fewer bars. */
  lemma IconMonotone(low: int, high: int)
    requires low <= high
    ensures Bars(IconFor(low, false)) <= Bars(IconFor(high, false))
  {
  }

  function Digit(d: int): (c: char)
    requires 0 <= d < 10
  {
    (d + '0' as int) as char
  }

  /** The value written by the decimal digits of `s`, spaces counting as
      nothing: the inverse of the right-aligned `%d` below. */
  function ValueOf(s: string): int {
    if s == [] then 0
    else
      var c := s[|s| - 1];
      ValueOf(s[..|s| - 1]) * 10 + (if c == ' ' then 0 else c as int - '0' as int)
  }

  /** The percent text of `draw` for a level in [0, 100]: always four
      characters, the number right-aligned before a '%', and it reads back
      as the level. */
  function PercentText(level: int): (text: string)
    requires 0 <= level <= 100
    ensures |text| == 4 && text[3] == '%'
    ensures ValueOf(text[..3]) == level
    ensures level < 10 ==> text[..2] == "  "
    ensures 10 <= level < 100 ==> text[0] == ' ' && text[1] != ' '
    ensures level == 100 ==> text == "100%"
  {
    if level == 100 then
      assert "100"[..2] == "10" && "10"[..1] == "1" && "1"[..0] == [];
      "100" + "%"
    else if level < 10 then
      var digits := "  " + [Digit(level)];
      assert digits[..2] == "  " && "  "[..1] == " " && " "[..0] == [];
      digits + "%"
    else
      var tens := " " + [Digit(level / 10)];
      var digits := tens + [Digit(level % 10)];
      assert tens[..1] == " " && " "[..0] == [];
      assert ValueOf(tens) == level / 10;
      assert digits[..2] == tens;
      assert ValueOf(digits) == level / 10 * 10 + level % 10;
      assert (digits + "%")[..3] == digits;
      digits + "%"
  }

  /** Which side of the status bar the element sits on. */
  datatype Position = LeftSide | RightSide

  class StatusBattery {
    var level: int
    var isCharging: bool
    var percent: bool

    ghost predicate Valid()
      reads this
    {
      0 <= level <= 100
    }

    constructor()
      ensures Valid() && level == 100 && !isCharging && percent
    {
      level, isCharging, percent := 100, false, true;
    }

    /** setLevel clamps the level into [0, 100]. */
    method SetLevel(lvl: int)
      modifies this`level
      ensures Valid()
      ensures level == Constrain(lvl, 0, 100)
      ensures 0 <= lvl <= 100 ==> level == lvl
    {
      level := Constrain(lvl, 0, 100);
    }

    method SetIsCharging(charging: bool)
      modifies this`isCharging
      ensures isCharging == charging
    {
      isCharging := charging;
    }

    method SetShowPercent(showPercent: bool)
      modifies this`percent
      ensures percent == showPercent
    {
      percent := showPercent;
    }

    /** The text part of `draw`: the text that is printed, if any. */
    function Text(): (text: Option<string>)
      reads this
      requires Valid()
      ensures text.Some? <==> percent
      ensures text.Some? ==> |text.value| == 4 && ValueOf(text.value[..3]) == level
    {
      if percent then Some(PercentText(level)) else None
    }

    /** getWidth: the icon plus room for the percent text when it is shown;
        the room is exactly the width of the text that `draw` prints. */
    function GetWidth(): (w: int)
      reads this
      requires Valid()
      ensures !percent ==> w == ICON_WIDTH
      ensures percent ==> w == ICON_WIDTH + |PercentText(level)| * CHAR_WIDTH
    {
      if percent then 14 + (4 * 6) else 14
    }

    /** The layout of `draw`: the x offsets of the icon and of the text.
        On the left the text follows the icon; on the right the icon follows
        the text. Either way the two do not overlap and fit in GetWidth(). */
    function Layout(position: Position): (r: (int, int))
      reads this
      requires Valid()
      ensures percent ==>
        (r.0 + ICON_WIDTH <= r.1 || r.1 + |PercentText(level)| * CHAR_WIDTH <= r.0) &&
        0 <= r.0 && r.0 + ICON_WIDTH <= GetWidth() &&
        0 <= r.1 && r.1 + |PercentText(level)| * CHAR_WIDTH <= GetWidth()
      ensures !percent ==> r.0 == 0
    {
      var textWidth := |PercentText(level)| * CHAR_WIDTH;
      match position
      case LeftSide => (0, ICON_WIDTH)
      case RightSide => (if percent then textWidth else 0, 0)
    }
  }
}
