/** The asymmetric continuous timer (ACT_*): a duty-cycle generator that
    stays settingHigh ticks in the high state and settingLow ticks in the low
    state, raising `tick` at every counter expiry. When the other phase's
    setting is zero at an expiry, that phase is skipped and the current one
    reloads; a zero setting of the phase being counted is loaded as 0, and the
    first pre-decrement wraps it, so that phase lasts WORD ticks. */
module AsymmetricContinuous {
  import opened Counters

  /** ACT_STATE_HIGH and ACT_STATE_LOW. */
  const HIGH: bool := true
  const LOW: bool := false

  /** ACT_Counter_x, ACT_SettingHigh_x, ACT_SettingLow_x, ACT_Flag_x (the timer
      is active), ACT_State_x and ACT_Tick_x. */
  datatype State = State(counter: Count, settingHigh: Count, settingLow: Count,
                         active: bool, state: bool, tick: bool)

  function Cleared(): State { State(0, 0, 0, false, LOW, false) }

  function Armed(high: Count, low: Count): State { State(high, high, low, true, HIGH, false) }

  /** Stop and Reset. */
  function Stopped(t: State): State { t.(active := false, tick := false) }

  function Suspended(t: State): State { t.(active := false) }

  function Resumed(t: State): State { t.(active := true) }

  function SettingChanged(t: State, high: Count, low: Count): State
  {
    t.(settingHigh := high, settingLow := low)
  }

  function StateChanged(t: State, high: Count, low: Count, s: bool): State
  {
    t.(state := s, settingHigh := high, settingLow := low)
  }

  function TickCleared(t: State): State { t.(tick := false) }

  /** The setting of phase s. */
  function PhaseSetting(t: State, s: bool): Count
  {
    if s == HIGH then t.settingHigh else t.settingLow
  }

  /** The counter lies in 1..setting of the current phase. */
  predicate InPhase(t: State)
  {
    1 <= t.counter <= PhaseSetting(t, t.state)
  }

  /** One tick. On a counter hit of zero the flag is raised, the phase switches
      exactly when the other phase's setting is non-zero, and the counter is
      reloaded from the setting of the phase the timer ends in. */
  function Step(t: State): (r: State)
    ensures !t.active ==> r == t
    ensures r.active == t.active && r.settingHigh == t.settingHigh && r.settingLow == t.settingLow
    ensures t.active && t.counter != 1 ==> r == t.(counter := PreDec(t.counter))
    ensures t.active && t.counter == 1 ==>
      r.tick &&
      (r.state != t.state <==> PhaseSetting(t, !t.state) != 0) &&
      r.counter == PhaseSetting(t, r.state)
    ensures InPhase(t) ==> InPhase(r)
  {
    if !t.active then t
    else
      var c := PreDec(t.counter);
      if c != 0 then t.(counter := c)
      else if t.state == HIGH then
        if t.settingLow != 0 then t.(state := LOW, counter := t.settingLow, tick := true)
        else t.(counter := t.settingHigh, tick := true)
      else
        if t.settingHigh != 0 then t.(state := HIGH, counter := t.settingHigh, tick := true)
        else t.(counter := t.settingLow, tick := true)
  }

  function Run(t: State, n: nat): State
  {
    if n == 0 then t else Step(Run(t, n - 1))
  }

  predicate Raised(t: State)
  {
    Step(TickCleared(t)).tick
  }

  lemma {:induction false} InactiveIsInert(t: State, n: nat)
    requires !t.active
    ensures Run(t, n) == t
  {
    if n > 0 {
      InactiveIsInert(t, n - 1);
    }
  }

  /** When the other phase's setting is zero, the timer never leaves its
      current phase and its counter stays within that phase's setting. */
  lemma {:induction false} ZeroPhaseSkipped(t: State, n: nat)
    requires t.active && InPhase(t) && PhaseSetting(t, !t.state) == 0
    ensures Run(t, n).state == t.state && InPhase(Run(t, n))
    ensures Run(t, n).settingHigh == t.settingHigh && Run(t, n).settingLow == t.settingLow
  {
    if n > 0 {
      ZeroPhaseSkipped(t, n - 1);
    }
  }

  lemma {:induction false} RunAdd(t: State, a: nat, b: nat)
    ensures Run(t, a + b) == Run(Run(t, a), b)
  {
    if b > 0 {
      RunAdd(t, a, b - 1);
    }
  }

  /** Before the counter hits zero only the counter moves. */
  lemma {:induction false} Countdown(t: State, k: nat)
    requires t.active && k < Period(t.counter)
    ensures Run(t, k) == t.(counter := Remaining(t.counter, k))
  {
    if k > 0 {
      Countdown(t, k - 1);
    }
  }

  /** Set(0, low): the high phase is loaded with 0, so the counter wraps and
      the timer stays high for WORD ticks; with low non-zero it then enters the
      low phase, raising the flag, and never leaves it again. */
  lemma ZeroHighSetting(low: Count)
    ensures forall k :: 0 <= k < WORD ==>
      Run(Armed(0, low), k) == Armed(0, low).(counter := Remaining(0, k))
    ensures low != 0 ==>
      Run(Armed(0, low), WORD) == Armed(0, low).(state := LOW, counter := low, tick := true)
    ensures low != 0 ==> forall m :: m >= WORD ==>
      Run(Armed(0, low), m).state == LOW && InPhase(Run(Armed(0, low), m))
  {
    var a := Armed(0, low);
    forall k | 0 <= k < WORD
      ensures Run(a, k) == a.(counter := Remaining(0, k))
    {
      Countdown(a, k);
    }
    if low != 0 {
      var b := a.(state := LOW, counter := low, tick := true);
      assert Run(a, WORD - 1) == a.(counter := 1);
      forall m | m >= WORD
        ensures Run(a, m).state == LOW && InPhase(Run(a, m))
      {
        ZeroPhaseSkipped(b, m - WORD);
        RunAdd(a, WORD, m - WORD);
      }
    }
  }

  /** k ticks after Set(high, 0) the timer is still high, counting like a
      continuous timer of setting high: the low phase is never entered. */
  lemma {:induction false} ZeroLowSetting(high: Count, k: nat)
    ensures Run(Armed(high, 0), k) ==
      Armed(high, 0).(counter := CounterAt(high, k), tick := k >= Period(high))
  {
    if k > 0 {
      ZeroLowSetting(high, k - 1);
      ZeroLowNext(high, k, CounterAt(high, k - 1), k - 1 >= Period(high));
      CounterAtSucc(high, k - 1);
    }
  }

  /** One tick of a timer set with (high, 0) that has reached counter c. */
  lemma ZeroLowNext(high: Count, k: nat, c: Count, raised: bool)
    requires k > 0 && Run(Armed(high, 0), k - 1) == Armed(high, 0).(counter := c, tick := raised)
    ensures Run(Armed(high, 0), k) ==
      Armed(high, 0).(counter := if c == 1 then high else PreDec(c), tick := raised || c == 1)
  {
  }

  /** After Set(high, 0) the state stays high and tick k + 1 raises the flag
      exactly when k + 1 is a multiple of Period(high). */
  lemma ZeroLowTicks(high: Count, k: nat)
    ensures Run(Armed(high, 0), k).state == HIGH
    ensures Raised(Run(Armed(high, 0), k)) <==> (k + 1) % Period(high) == 0
  {
    ZeroLowSetting(high, k);
    CounterAtOne(high, k);
  }

  /** The state k ticks after Set(high, low) with both settings non-zero:
      within each period of high + low ticks, the first high ticks are in the
      high state and the rest in the low state; the flag has been raised once
      the first high phase is over. */
  function DutyState(high: Count, low: Count, k: nat): State
    requires high >= 1 && low >= 1
  {
    var j := k % (high + low);
    if j < high then Armed(high, low).(counter := high - j, tick := k >= high)
    else Armed(high, low).(state := LOW, counter := high + low - j, tick := true)
  }

  /** How DutyState moves from one tick to the next. */
  lemma DutyStateSucc(high: Count, low: Count, k: nat)
    requires high >= 1 && low >= 1
    ensures DutyState(high, low, k + 1) == Step(DutyState(high, low, k))
  {
    var p, j := high + low, k % (high + low);
    ModSucc(k, p);
    if k < high {
      ModUnique(k, p, 0, k);
    }
    var d := DutyState(high, low, k);
    if j < high - 1 {
      assert d.counter != 1;
    } else if j == high - 1 {
      assert d.counter == 1 && d.state == HIGH;
    } else if j < p - 1 {
      assert d.counter != 1;
    } else {
      assert d.counter == 1 && d.state == LOW;
    }
  }

  /** k ticks after Set(high, low), with both settings non-zero, the timer is
      in DutyState(high, low, k). */
  lemma {:induction false} DutyCycle(high: Count, low: Count, k: nat)
    requires high >= 1 && low >= 1
    ensures Run(Armed(high, low), k) == DutyState(high, low, k)
  {
    if k > 0 {
      DutyCycle(high, low, k - 1);
      DutyStateSucc(high, low, k - 1);
    } else {
      assert 0 % (high + low) == 0;
    }
  }

  /** Tick k + 1 after Set(high, low) raises the flag exactly at the two phase
      boundaries of each period. */
  lemma TickAtPhaseBoundaries(high: Count, low: Count, k: nat)
    requires high >= 1 && low >= 1
    ensures Raised(Run(Armed(high, low), k)) <==>
      (k + 1) % (high + low) == high || (k + 1) % (high + low) == 0
  {
    DutyCycle(high, low, k);
    ModSucc(k, high + low);
  }

  /** The state sequence after Set(high, low) is periodic with period high + low. */
  lemma StatesRepeat(high: Count, low: Count, k: nat)
    requires high >= 1 && low >= 1
    ensures Run(Armed(high, low), k + high + low).state == Run(Armed(high, low), k).state
    ensures Run(Armed(high, low), k).state == (k % (high + low) < high)
  {
    var p := high + low;
    DutyCycle(high, low, k);
    DutyCycle(high, low, k + p);
    ModAddPeriod(k, p);
    assert DutyState(high, low, k + p).state == DutyState(high, low, k).state;
  }

  /** Set(high = 2, low = 3): over ticks 1..10 the state is high, high, low,
      low, low, high, high, low, low, low. */
  lemma TwoHighThreeLowStates()
    ensures forall k | 0 <= k < 10 ::
      Run(Armed(2, 3), k).state == [true, true, false, false, false, true, true, false, false, false][k]
  {
    forall k | 0 <= k < 10
      ensures Run(Armed(2, 3), k).state == [true, true, false, false, false, true, true, false, false, false][k]
    {
      StatesRepeat(2, 3, k);
    }
  }

  /** Set(high = 2, low = 3): over ticks 1..10 the flag is raised by ticks 2,
      5, 7 and 10 only. */
  lemma TwoHighThreeLowTicks()
    ensures forall k | 0 <= k < 10 ::
      Raised(Run(Armed(2, 3), k)) <==> k + 1 in {2, 5, 7, 10}
  {
    forall k | 0 <= k < 10
      ensures Raised(Run(Armed(2, 3), k)) <==> k + 1 in {2, 5, 7, 10}
    {
      TickAtPhaseBoundaries(2, 3, k);
    }
  }

  /** One named asymmetric continuous timer. */
  class Timer {
    var counter: Count
    var settingHigh: Count
    var settingLow: Count
    var active: bool
    var state: bool
    var tick: bool

    function Model(): State
      reads this
    {
      State(counter, settingHigh, settingLow, active, state, tick)
    }

    constructor ()
      ensures Model() == Cleared()
    {
      counter, settingHigh, settingLow := 0, 0, 0;
      active, state, tick := false, LOW, false;
    }

    /** SetAsymmetricContinuousTimer and SetAsymmetricContinuousTimerI. */
    method Set(high: Count, low: Count)
      modifies this
      ensures Model() == Armed(high, low)
    {
      settingHigh := high;
      counter := high;
      settingLow := low;
      state := HIGH;
      active := true;
      tick := false;
    }

    method Stop()
      modifies this
      ensures Model() == Stopped(old(Model()))
    {
      active := false;
      tick := false;
    }

    method Reset()
      modifies this
      ensures Model() == Stopped(old(Model()))
    {
      active := false;
      tick := false;
    }

    method Clear()
      modifies this
      ensures Model() == Cleared()
    {
      active := false;
      state := LOW;
      tick := false;
      counter := 0;
      settingHigh := 0;
      settingLow := 0;
    }

    /** Deactivates this timer (the source names a variable that does not exist here). */
    method Suspend()
      modifies this
      ensures Model() == Suspended(old(Model()))
    {
      active := false;
    }

    /** Reactivates this timer (the source names a variable that does not exist here). */
    method Resume()
      modifies this
      ensures Model() == Resumed(old(Model()))
    {
      active := true;
    }

    method ChangeSetting(high: Count, low: Count)
      modifies this
      ensures Model() == SettingChanged(old(Model()), high, low)
    {
      settingHigh := high;
      settingLow := low;
    }

    method ChangeState(high: Count, low: Count, s: bool)
      modifies this
      ensures Model() == StateChanged(old(Model()), high, low, s)
    {
      state := s;
      settingHigh := high;
      settingLow := low;
    }

    method Tick()
      modifies this
      ensures Model() == Step(old(Model()))
    {
      if active {
        counter := PreDec(counter);
        if counter == 0 {
          if state == HIGH {
            if settingLow != 0 {
              state := LOW;
              counter := settingLow;
            } else {
              counter := settingHigh;
            }
          } else {
            if settingHigh != 0 {
              state := HIGH;
              counter := settingHigh;
            } else {
              counter := settingLow;
            }
          }
          tick := true;
        }
      }
    }

    method ClearTick()
      modifies this
      ensures Model() == TickCleared(old(Model()))
    {
      tick := false;
    }
  }
}
