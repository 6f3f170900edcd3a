/** The gesture engine of src/button/ButtonManager.cpp: every tick each
    configured button is sampled once, its timing record is advanced, and at
    most one classified event (the last one raised in key order) is kept. */
module Buttons {
  import opened Common

  /** Hold time after which a press is reported as a long press. */
  const LONG_PRESS_MS: int := 800
  /** A press released before this many ms counts as a click. */
  const SHORT_MS: int := 300
  /** Window after the first click in which a second click makes a double click. */
  const DOUBLE_MS: int := 400

  type U8 = x: int | 0 <= x < 0x100

  /** ButtonState: the per-pin timing record. */
  datatype ButtonState = ButtonState(
    lastPressTime: Millis,
    lastClickTime: Millis,
    waitingForRelease: bool,
    longPressReported: bool,
    clickPending: bool,
    clickCount: U8)

  /** A default-constructed ButtonState. */
  const Initial: ButtonState := ButtonState(0, 0, false, false, false, 0)

  datatype StepResult = StepResult(state: ButtonState, action: Action)

  /** One button's share of a tick: its new timing record and the action it
      raises this tick (NoAction when it raises none). */
  function Step(s: ButtonState, pressed: bool, now: Millis): StepResult
  {
    if pressed then
      var s1 := if !s.waitingForRelease
                then s.(lastPressTime := now, waitingForRelease := true, longPressReported := false)
                else s;
      if !s1.longPressReported && Elapsed(now, s1.lastPressTime) > LONG_PRESS_MS then
        StepResult(s1.(longPressReported := true, clickCount := 0, clickPending := false), LongPress)
      else
        StepResult(s1, NoAction)
    else
      var r1 :=
        if s.waitingForRelease then
          var s0 := s.(waitingForRelease := false);
          if Elapsed(now, s0.lastPressTime) < SHORT_MS && !s0.longPressReported then
            var s2 := s0.(clickCount := (s0.clickCount + 1) % 0x100);
            if s2.clickCount == 1 then
              StepResult(s2.(lastClickTime := now, clickPending := true), NoAction)
            else if s2.clickCount == 2 && Elapsed(now, s2.lastClickTime) < DOUBLE_MS then
              StepResult(s2.(clickPending := false, clickCount := 0), DoubleClick)
            else
              StepResult(s2, NoAction)
          else
            StepResult(s0, NoAction)
        else
          StepResult(s, NoAction);
      var s1 := r1.state;
      if s1.clickPending && Elapsed(now, s1.lastClickTime) > DOUBLE_MS then
        StepResult(s1.(clickPending := false, clickCount := 0),
                   if s1.clickCount == 1 then ShortClick else r1.action)
      else
        r1
  }

  // ---------------------------------------------------------------------
  // Properties of one button's step
  // ---------------------------------------------------------------------

  /** A press edge records the press time, arms waitingForRelease and clears
      longPressReported; it raises nothing. A further held tick keeps the
      recorded press time. */
  lemma PressEdge(s: ButtonState, now: Millis)
    ensures !s.waitingForRelease ==>
      Step(s, true, now) ==
        StepResult(s.(lastPressTime := now, waitingForRelease := true, longPressReported := false), NoAction)
    ensures s.waitingForRelease ==>
      Step(s, true, now).state.lastPressTime == s.lastPressTime &&
      Step(s, true, now).state.waitingForRelease
  {
  }

  /** While held, a long press is raised exactly when none was reported yet
      and more than 800 ms have passed since the press; it cancels any click
      sequence in progress. */
  lemma LongPressWhileHeld(s: ButtonState, now: Millis)
    requires s.waitingForRelease
    ensures Step(s, true, now).action == LongPress <==>
      !s.longPressReported && Elapsed(now, s.lastPressTime) > LONG_PRESS_MS
    ensures Step(s, true, now).action != LongPress ==> Step(s, true, now) == StepResult(s, NoAction)
    ensures Step(s, true, now).action == LongPress ==>
      Step(s, true, now).state == s.(longPressReported := true, clickCount := 0, clickPending := false)
  {
  }

  /** Releasing a short press (no long press reported) with no click in
      progress counts a first click: it records the click time and arms the
      double-click window, raising nothing yet. */
  lemma FirstClickArmsWindow(s: ButtonState, now: Millis)
    requires s.waitingForRelease && !s.longPressReported && s.clickCount == 0
    requires Elapsed(now, s.lastPressTime) < SHORT_MS
    ensures Step(s, false, now) ==
      StepResult(s.(waitingForRelease := false, clickCount := 1, lastClickTime := now, clickPending := true), NoAction)
  {
  }

  /** A second short click released less than 400 ms after the first click
      raises DOUBLE_CLICK and clears the click sequence, so no SHORT_CLICK
      follows for the pair. */
  lemma SecondClickInWindow(s: ButtonState, now: Millis)
    requires s.waitingForRelease && !s.longPressReported && s.clickCount == 1
    requires Elapsed(now, s.lastPressTime) < SHORT_MS
    requires Elapsed(now, s.lastClickTime) < DOUBLE_MS
    ensures Step(s, false, now) ==
      StepResult(s.(waitingForRelease := false, clickPending := false, clickCount := 0), DoubleClick)
  {
  }

  /** On a released tick with nothing to release and an expired window, the
      pending click becomes SHORT_CLICK only if exactly one click was counted;
      the count is reset in any case. */
  lemma WindowExpiry(s: ButtonState, now: Millis)
    requires !s.waitingForRelease && s.clickPending
    requires Elapsed(now, s.lastClickTime) > DOUBLE_MS
    ensures Step(s, false, now) ==
      StepResult(s.(clickPending := false, clickCount := 0),
                 if s.clickCount == 1 then ShortClick else NoAction)
  {
  }

  /** The quirk: a second short click released more than 400 ms after the
      first raises no event at all, neither DOUBLE_CLICK nor SHORT_CLICK,
      and discards the click sequence. */
  lemma LateSecondClickIsLost(s: ButtonState, now: Millis)
    requires s.waitingForRelease && !s.longPressReported
    requires s.clickCount == 1 && s.clickPending
    requires Elapsed(now, s.lastPressTime) < SHORT_MS
    requires Elapsed(now, s.lastClickTime) > DOUBLE_MS
    ensures Step(s, false, now) ==
      StepResult(s.(waitingForRelease := false, clickPending := false, clickCount := 0), NoAction)
  {
  }

  /** Releasing a press of 300 ms or more, or one already reported as a long
      press, only clears waitingForRelease (unless a pending click expires on
      the same tick). */
  lemma LongReleaseChangesOnlyWaiting(s: ButtonState, now: Millis)
    requires s.waitingForRelease
    requires Elapsed(now, s.lastPressTime) >= SHORT_MS || s.longPressReported
    requires !(s.clickPending && Elapsed(now, s.lastClickTime) > DOUBLE_MS)
    ensures Step(s, false, now) == StepResult(s.(waitingForRelease := false), NoAction)
  {
  }

  // ---------------------------------------------------------------------
  // Runs of one button over a sequence of ticks
  // ---------------------------------------------------------------------

  /** A tick's sample for one button: whether it is pressed, and millis(). */
  type Sample = (bool, Millis)

  /** The actions one button raises over a sequence of ticks. */
  function Run(s: ButtonState, samples: seq<Sample>): (actions: seq<Action>)
    ensures |actions| == |samples|
    decreases |samples|
  {
    if samples == [] then []
    else
      var r := Step(s, samples[0].0, samples[0].1);
      [r.action] + Run(r.state, samples[1..])
  }

  /** The timing record one button is left with after a sequence of ticks. */
  function StateAfter(s: ButtonState, samples: seq<Sample>): ButtonState
    decreases |samples|
  {
    if samples == [] then s
    else StateAfter(Step(s, samples[0].0, samples[0].1).state, samples[1..])
  }

  /** Entry i of a run is the action Step raises on tick i, from the
      record the first i ticks leave behind. */
  lemma {:induction false} RunStepwise(s: ButtonState, samples: seq<Sample>, i: nat)
    requires i < |samples|
    ensures Run(s, samples)[i] == Step(StateAfter(s, samples[..i]), samples[i].0, samples[i].1).action
    decreases i
  {
    if i > 0 {
      var r := Step(s, samples[0].0, samples[0].1);
      RunStepwise(r.state, samples[1..], i - 1);
      assert samples[..i][1..] == samples[1..][..i - 1];
    }
  }

  function Count(actions: seq<Action>, a: Action): nat
  {
    if actions == [] then 0
    else (if actions[0] == a then 1 else 0) + Count(actions[1..], a)
  }

  /** Over any run of held ticks at most one LONG_PRESS is raised, and none
      when the current hold has already reported one. */
  lemma {:induction false} HeldRunLongPressAtMostOnce(s: ButtonState, samples: seq<Sample>)
    requires forall i :: 0 <= i < |samples| ==> samples[i].0
    ensures Count(Run(s, samples), LongPress) <= 1
    ensures s.waitingForRelease && s.longPressReported ==> Count(Run(s, samples), LongPress) == 0
    decreases |samples|
  {
    if samples != [] {
      var r := Step(s, true, samples[0].1);
      assert r.state.waitingForRelease;
      assert r.action == LongPress ==> r.state.longPressReported;
      assert s.waitingForRelease && s.longPressReported ==> r.action == NoAction && r.state.longPressReported;
      HeldRunLongPressAtMostOnce(r.state, samples[1..]);
    }
  }

  /** A button held from 0 ms and sampled at 400, 800, 900 and 1300 ms:
      exactly one LONG_PRESS, at 900 ms, the first tick more than 800 ms
      after the press. */
  lemma HeldButtonScenario()
    ensures Run(Initial, [(true, 0), (true, 400), (true, 800), (true, 900), (true, 1300)])
         == [NoAction, NoAction, NoAction, LongPress, NoAction]
  {
  }

  /** Pressed at 0, released at 150, pressed at 300, released at 350: one
      DOUBLE_CLICK at 350 and no SHORT_CLICK. */
  lemma DoubleClickScenario()
    ensures Run(Initial, [(true, 0), (false, 150), (true, 300), (false, 350), (false, 1000)])
         == [NoAction, NoAction, NoAction, DoubleClick, NoAction]
  {
  }

  /** A lone short click is reported once its 400 ms window has expired. */
  lemma ShortClickScenario()
    ensures Run(Initial, [(true, 0), (false, 100), (false, 450), (false, 600)])
         == [NoAction, NoAction, NoAction, ShortClick]
  {
  }

  /** Two short clicks whose second release comes 450 ms after the first:
      no event at all. */
  lemma LateSecondClickScenario()
    ensures Run(Initial, [(true, 0), (false, 100), (true, 450), (false, 550), (false, 2000)])
         == [NoAction, NoAction, NoAction, NoAction, NoAction]
  {
  }

  // ---------------------------------------------------------------------
  // One tick over all buttons
  // ---------------------------------------------------------------------

  /** Arduino String ordering (byte-wise, a proper prefix first): the key
      order of std::map<String, uint8_t>. */
  predicate StrLess(a: string, b: string)
  {
    if |a| == 0 then |b| > 0
    else if |b| == 0 then false
    else if a[0] != b[0] then a[0] < b[0]
    else StrLess(a[1..], b[1..])
  }

  /** The configuration as std::map iterates it: names strictly ascending. */
  predicate KeyOrdered(buttons: seq<(string, Pin)>)
  {
    forall i :: 0 < i < |buttons| ==> StrLess(buttons[i - 1].0, buttons[i].0)
  }

  /** `states[pin]`: the record, default-constructed when absent. */
  function StateOf(states: map<Pin, ButtonState>, pin: Pin): ButtonState
  {
    if pin in states then states[pin] else Initial
  }

  datatype Tick = Tick(states: map<Pin, ButtonState>, event: Event)

  /** A per-button step; `update` uses Step. The sweep and its last-wins
      property hold for any step. */
  type StepFn = (ButtonState, bool, Millis) -> StepResult

  /** The records and the kept event after the first k buttons of a tick. */
  function Sweep(step: StepFn, buttons: seq<(string, Pin)>, states: map<Pin, ButtonState>,
                 pressed: Pin -> bool, now: Millis, k: nat): Tick
    requires k <= |buttons|
  {
    if k == 0 then Tick(states, NoEvent)
    else
      var t := Sweep(step, buttons, states, pressed, now, k - 1);
      var pin := buttons[k - 1].1;
      var r := step(StateOf(t.states, pin), pressed(pin), now);
      Tick(t.states[pin := r.state],
           if r.action != NoAction then Event(buttons[k - 1].0, pin, r.action) else t.event)
  }

  /** The action the i-th button (in key order) raises during the tick. */
  function FiredAt(step: StepFn, buttons: seq<(string, Pin)>, states: map<Pin, ButtonState>,
                   pressed: Pin -> bool, now: Millis, i: nat): Action
    requires i < |buttons|
  {
    var pin := buttons[i].1;
    step(StateOf(Sweep(step, buttons, states, pressed, now, i).states, pin), pressed(pin), now).action
  }

  /** One button of the sweep: its action, if any, replaces the kept event. */
  lemma SweepEvent(step: StepFn, buttons: seq<(string, Pin)>, states: map<Pin, ButtonState>,
                   pressed: Pin -> bool, now: Millis, k: nat)
    requires 0 < k <= |buttons|
    ensures var a := FiredAt(step, buttons, states, pressed, now, k - 1);
      Sweep(step, buttons, states, pressed, now, k).event ==
        if a != NoAction then Event(buttons[k - 1].0, buttons[k - 1].1, a)
        else Sweep(step, buttons, states, pressed, now, k - 1).event
  {
  }

  /** The events the first k buttons raise during a tick, in key order,
      one per button (with NO_ACTION for a button that raised nothing). */
  function Raised(step: StepFn, buttons: seq<(string, Pin)>, states: map<Pin, ButtonState>,
                  pressed: Pin -> bool, now: Millis, k: nat): seq<Event>
    requires k <= |buttons|
  {
    seq(k, i requires 0 <= i < k => Event(buttons[i].0, buttons[i].1, FiredAt(step, buttons, states, pressed, now, i)))
  }

  /** The event a sequence of raised events leaves behind when each one
      overwrites the last: the last one with an action, or NO_ACTION. */
  function Last(evs: seq<Event>): Event
  {
    if evs == [] then NoEvent
    else if evs[|evs| - 1].action != NoAction then evs[|evs| - 1]
    else Last(evs[..|evs| - 1])
  }

  lemma {:induction false} LastIsLastRaised(evs: seq<Event>)
    ensures Last(evs) == NoEvent <==> forall i :: 0 <= i < |evs| ==> evs[i].action == NoAction
    ensures Last(evs) != NoEvent ==>
      exists i :: 0 <= i < |evs| && evs[i].action != NoAction && Last(evs) == evs[i] &&
        forall j :: i < j < |evs| ==> evs[j].action == NoAction
  {
    if evs != [] {
      var init := evs[..|evs| - 1];
      LastIsLastRaised(init);
      assert forall i :: 0 <= i < |init| ==> init[i] == evs[i];
      if evs[|evs| - 1].action != NoAction {
        assert evs[|evs| - 1] != NoEvent;
      }
    }
  }

  lemma {:induction false} SweepKeepsLast(step: StepFn, buttons: seq<(string, Pin)>, states: map<Pin, ButtonState>,
                                          pressed: Pin -> bool, now: Millis, k: nat)
    requires k <= |buttons|
    ensures Sweep(step, buttons, states, pressed, now, k).event == Last(Raised(step, buttons, states, pressed, now, k))
  {
    if k > 0 {
      SweepKeepsLast(step, buttons, states, pressed, now, k - 1);
      SweepEvent(step, buttons, states, pressed, now, k);
      RaisedSnoc(step, buttons, states, pressed, now, k);
      var evs := Raised(step, buttons, states, pressed, now, k);
      var e := evs[k - 1];
      assert Last(evs) == if e.action != NoAction then e else Last(evs[..k - 1]);
    }
  }

  /** The events of the first k buttons are those of the first k - 1
      followed by the k-th button's. */
  lemma RaisedSnoc(step: StepFn, buttons: seq<(string, Pin)>, states: map<Pin, ButtonState>,
                   pressed: Pin -> bool, now: Millis, k: nat)
    requires 0 < k <= |buttons|
    ensures Raised(step, buttons, states, pressed, now, k)[..k - 1] == Raised(step, buttons, states, pressed, now, k - 1)
    ensures Raised(step, buttons, states, pressed, now, k)[k - 1] ==
      Event(buttons[k - 1].0, buttons[k - 1].1, FiredAt(step, buttons, states, pressed, now, k - 1))
  {
  }

  /** Last wins: a tick keeps NO_ACTION exactly when no button raised an
      action; otherwise it keeps the action of the last button, in key order,
      that raised one, and every earlier action of the tick is dropped. */
  lemma LastWins(step: StepFn, buttons: seq<(string, Pin)>, states: map<Pin, ButtonState>,
                 pressed: Pin -> bool, now: Millis)
    ensures var ev := Sweep(step, buttons, states, pressed, now, |buttons|).event;
      (ev == NoEvent <==> forall i :: 0 <= i < |buttons| ==> FiredAt(step, buttons, states, pressed, now, i) == NoAction)
    ensures var ev := Sweep(step, buttons, states, pressed, now, |buttons|).event;
      ev != NoEvent ==>
        exists i :: 0 <= i < |buttons| && FiredAt(step, buttons, states, pressed, now, i) != NoAction &&
          ev == Event(buttons[i].0, buttons[i].1, FiredAt(step, buttons, states, pressed, now, i)) &&
          forall j :: i < j < |buttons| ==> FiredAt(step, buttons, states, pressed, now, j) == NoAction
  {
    SweepKeepsLast(step, buttons, states, pressed, now, |buttons|);
    var evs := Raised(step, buttons, states, pressed, now, |buttons|);
    LastIsLastRaised(evs);
    assert forall i :: 0 <= i < |evs| ==>
      evs[i] == Event(buttons[i].0, buttons[i].1, FiredAt(step, buttons, states, pressed, now, i));
  }

  /** The configuration of src/main.cpp, in the order std::map visits it. */
  const MainButtons: seq<(string, Pin)> :=
    [("CENTER", 15), ("DOWN", 5), ("LEFT", 17), ("RIGHT", 16), ("UP", 4)]

  lemma MainButtonsKeyOrdered()
    ensures KeyOrdered(MainButtons)
  {
    assert StrLess("CENTER", "DOWN");
    assert StrLess("DOWN", "LEFT");
    assert StrLess("LEFT", "RIGHT");
    assert StrLess("RIGHT", "UP");
  }

  /** The set of pins the configuration uses. */
  function Pins(buttons: seq<(string, Pin)>): set<Pin>
  {
    set i | 0 <= i < |buttons| :: buttons[i].1
  }

  /** The body of update()'s loop for one button: the timing record is
      changed field by field and the raised action, if any, is returned. */
  method StepButton(s0: ButtonState, pressed: bool, now: Millis) returns (s: ButtonState, fired: Action)
    ensures StepResult(s, fired) == Step(s0, pressed, now)
  {
    s := s0;
    fired := NoAction;
    if pressed {
      if !s.waitingForRelease {
        s := s.(lastPressTime := now, waitingForRelease := true, longPressReported := false);
      }
      if !s.longPressReported && Elapsed(now, s.lastPressTime) > LONG_PRESS_MS {
        s := s.(longPressReported := true, clickCount := 0, clickPending := false);
        fired := LongPress;
      }
    } else {
      if s.waitingForRelease {
        s := s.(waitingForRelease := false);
        if Elapsed(now, s.lastPressTime) < SHORT_MS && !s.longPressReported {
          s := s.(clickCount := (s.clickCount + 1) % 0x100);
          if s.clickCount == 1 {
            s := s.(lastClickTime := now, clickPending := true);
          } else if s.clickCount == 2 && Elapsed(now, s.lastClickTime) < DOUBLE_MS {
            s := s.(clickPending := false, clickCount := 0);
            fired := DoubleClick;
          }
        }
      }
      if s.clickPending && Elapsed(now, s.lastClickTime) > DOUBLE_MS {
        s := s.(clickPending := false);
        if s.clickCount == 1 {
          fired := ShortClick;
        }
        s := s.(clickCount := 0);
      }
    }
  }

  class ButtonManager {
    /** Name -> pin, in std::map key order. */
    const buttons: seq<(string, Pin)>
    /** Pin -> timing record. */
    var states: map<Pin, ButtonState>
    var lastEvent: Event

    ghost predicate Valid()
      reads this
    {
      KeyOrdered(buttons)
    }

    constructor(config: seq<(string, Pin)>)
      requires KeyOrdered(config)
      ensures Valid()
      ensures buttons == config && states == map[] && lastEvent == NoEvent
    {
      buttons := config;
      states := map[];
      lastEvent := NoEvent;
    }

    /** begin(): a fresh timing record for every configured pin (pinMode is
        not modelled). */
    method Begin()
      requires Valid()
      modifies this
      ensures Valid() && lastEvent == old(lastEvent)
      ensures states.Keys == old(states).Keys + Pins(buttons)
      ensures forall p :: p in states ==> states[p] == if p in Pins(buttons) then Initial else old(states)[p]
    {
      var i := 0;
      while i < |buttons|
        invariant 0 <= i <= |buttons|
        invariant lastEvent == old(lastEvent)
        invariant states.Keys == old(states).Keys + Pins(buttons[..i])
        invariant forall p :: p in states ==> states[p] == if p in Pins(buttons[..i]) then Initial else old(states)[p]
      {
        assert Pins(buttons[..i + 1]) == Pins(buttons[..i]) + {buttons[i].1} by {
          assert forall j :: 0 <= j < i ==> buttons[..i + 1][j] == buttons[..i][j];
          assert buttons[..i + 1][i] == buttons[i];
        }
        states := states[buttons[i].1 := Initial];
        i := i + 1;
      }
      assert buttons[..i] == buttons;
    }

    /** update(): one tick at time `now`; `pressed(pin)` is the sampled level
        of each pin (LOW read as pressed). */
    method Update(now: Millis, pressed: Pin -> bool)
      requires Valid()
      modifies this
      ensures Valid()
      ensures Tick(states, lastEvent) == Sweep(Step, buttons, old(states), pressed, now, |buttons|)
    {
      lastEvent := NoEvent;
      var i := 0;
      while i < |buttons|
        invariant 0 <= i <= |buttons|
        invariant Tick(states, lastEvent) == Sweep(Step, buttons, old(states), pressed, now, i)
      {
        var name := buttons[i].0;
        var pin := buttons[i].1;
        var s, fired := StepButton(StateOf(states, pin), pressed(pin), now);
        ghost var r := Step(StateOf(states, pin), pressed(pin), now);
        assert r == StepResult(s, fired);
        if fired != NoAction {
          lastEvent := Event(name, pin, fired);
        }
        states := states[pin := s];
        assert Sweep(Step, buttons, old(states), pressed, now, i + 1) == Tick(states, lastEvent);
        i := i + 1;
      }
    }

    /** getAction(): read the kept event and clear it, so a second call
        before the next update yields NO_ACTION. */
    method GetAction() returns (event: Event)
      modifies this
      ensures event == old(lastEvent)
      ensures lastEvent == NoEvent && states == old(states)
    {
      event := lastEvent;
      lastEvent := NoEvent;
    }
  }
}
