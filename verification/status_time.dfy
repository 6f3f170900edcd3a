/** The clock of src/status/StatusTime.h: hours and minutes that advance by
    one minute per `update` once a minute of millis() has passed. */
module Clock {
  import opened Common

  const WIDTH := 40
  const HEIGHT := 9
  const MINUTE_MS := 60000
  const MINUTES_PER_DAY := 24 * 60

  /** A well-formed time of day. */
  predicate IsTime(hours: int, minutes: int) {
    0 <= hours < 24 && 0 <= minutes < 60
  }

  function MinuteOfDay(hours: int, minutes: int): int {
    hours * 60 + minutes
  }

  /** One minute forward: the minute counter is incremented, and on reaching
      60 it returns to 0 and the hour moves on, modulo 24 in C. */
  function Tick(hours: int, minutes: int): (r: (int, int))
    ensures IsTime(hours, minutes) ==> IsTime(r.0, r.1)
    ensures IsTime(hours, minutes) && minutes < 59 ==> r == (hours, minutes + 1)
    ensures IsTime(hours, minutes) && minutes == 59 ==> r == ((hours + 1) % 24, 0)
  {
    if minutes + 1 >= 60 then (CRem(hours + 1, 24), 0) else (hours, minutes + 1)
  }

  lemma ModSucc(x: nat)
    ensures (x % MINUTES_PER_DAY + 1) % MINUTES_PER_DAY == (x + 1) % MINUTES_PER_DAY
  {
    var q, r := x / 1440, x % 1440;
    assert x == q * 1440 + r && 0 <= r < 1440;
    if r + 1 < 1440 {
      assert x + 1 == q * 1440 + (r + 1);
    } else {
      assert x + 1 == (q + 1) * 1440 + 0;
    }
  }

  /** A tick moves the clock to the next minute of the day, from 23:59
      back to 00:00. */
  lemma TickAdvances(hours: int, minutes: int)
    requires IsTime(hours, minutes)
    ensures MinuteOfDay(Tick(hours, minutes).0, Tick(hours, minutes).1) ==
            (MinuteOfDay(hours, minutes) + 1) % MINUTES_PER_DAY
  {
    var m := hours * 60 + minutes;
    if minutes < 59 {
      assert Tick(hours, minutes) == (hours, minutes + 1);
      assert (m + 1) % 1440 == m + 1;
    } else if hours < 23 {
      assert (hours + 1) % 24 == hours + 1;
      assert Tick(hours, minutes) == (hours + 1, 0);
      assert (m + 1) % 1440 == m + 1;
    } else {
      assert Tick(hours, minutes) == (0, 0);
      assert m + 1 == 1440;
    }
  }

  /** `n` ticks from the given time. */
  function Ticks(hours: int, minutes: int, n: nat): (int, int)
  {
    if n == 0 then (hours, minutes)
    else
      var t := Ticks(hours, minutes, n - 1);
      Tick(t.0, t.1)
  }

  /** After `n` ticks the clock shows the time `n` minutes later. */
  lemma {:induction false} TicksAdvance(hours: int, minutes: int, n: nat)
    requires IsTime(hours, minutes)
    ensures IsTime(Ticks(hours, minutes, n).0, Ticks(hours, minutes, n).1)
    ensures MinuteOfDay(Ticks(hours, minutes, n).0, Ticks(hours, minutes, n).1) ==
            (MinuteOfDay(hours, minutes) + n) % MINUTES_PER_DAY
  {
    if n > 0 {
      TicksAdvance(hours, minutes, n - 1);
      var t := Ticks(hours, minutes, n - 1);
      var u := Tick(t.0, t.1);
      assert Ticks(hours, minutes, n) == u;
      TickAdvances(t.0, t.1);
      var x := MinuteOfDay(hours, minutes) + n - 1;
      ModSucc(x);
      assert MinuteOfDay(u.0, u.1) == (x % MINUTES_PER_DAY + 1) % MINUTES_PER_DAY;
    } else {
      assert MinuteOfDay(hours, minutes) < MINUTES_PER_DAY;
    }
  }

  /** Whole days of ticks bring the clock back to where it started. */
  lemma WholeDays(hours: int, minutes: int, n: nat)
    requires IsTime(hours, minutes) && n % MINUTES_PER_DAY == 0
    ensures Ticks(hours, minutes, n) == (hours, minutes)
  {
    TicksAdvance(hours, minutes, n);
    var t := Ticks(hours, minutes, n);
    var m := hours * 60 + minutes;
    var d := n / 1440;
    assert n == d * 1440;
    var q, r := (m + n) / 1440, (m + n) % 1440;
    assert m + n == q * 1440 + r && 0 <= r < 1440;
    assert (q - d) * 1440 == m - r;
    assert q == d;
    assert t.0 * 60 + t.1 == hours * 60 + minutes;
  }

  class StatusTime {
    var hours: int
    var minutes: int
    var lastUpdateMillis: Millis

    ghost predicate Valid()
      reads this
    {
      IsTime(hours, minutes)
    }

    /** The default constructor leaves hours and minutes uninitialised; the
        model takes their initial values as parameters. */
    constructor(hours: int, minutes: int)
      ensures this.hours == hours && this.minutes == minutes && lastUpdateMillis == 0
    {
      this.hours := hours;
      this.minutes := minutes;
      lastUpdateMillis := 0;
    }

    /** setTime: the hour is taken modulo 24 and the minute modulo 60, with
        C's sign-of-dividend remainder; non-negative inputs give a valid
        time. */
    method SetTime(h: int, m: int)
      modifies this`hours, this`minutes
      ensures hours == CRem(h, 24) && minutes == CRem(m, 60)
      ensures h >= 0 && m >= 0 ==> Valid() && hours == h % 24 && minutes == m % 60
    {
      hours := CRem(h, 24);
      minutes := CRem(m, 60);
    }

    /** Whether `update` at time `now` advances the clock: a minute has
        passed on the wrapping counter, or the clock has never advanced. */
    predicate Due(now: Millis)
      reads this
    {
      Elapsed(now, lastUpdateMillis) >= MINUTE_MS || lastUpdateMillis == 0
    }

    /** update: when due, advance exactly one minute and remember `now`;
        otherwise change nothing. */
    method Update(now: Millis)
      modifies this
      ensures old(Due(now)) ==> lastUpdateMillis == now && (hours, minutes) == Tick(old(hours), old(minutes))
      ensures !old(Due(now)) ==> unchanged(this)
      ensures old(Valid()) ==> Valid()
    {
      if Elapsed(now, lastUpdateMillis) >= MINUTE_MS || lastUpdateMillis == 0 {
        lastUpdateMillis := now;
        minutes := minutes + 1;
        if minutes >= 60 {
          minutes := 0;
          hours := CRem(hours + 1, 24);
        }
      }
    }
  }
}
