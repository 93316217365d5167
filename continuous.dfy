/** The continuous timer (CT_*): counts down from its stored setting, raises
    `tick` when the counter reaches zero and reloads it from the setting. */
module Continuous {
  import opened Counters

  /** CT_Counter_x, CT_Setting_x, CT_Flag_x (the timer is active) and CT_Tick_x. */
  datatype State = State(counter: Count, setting: Count, active: bool, tick: bool)

  function Cleared(): State { State(0, 0, false, false) }

  function Armed(per: Count): State { State(per, per, true, false) }

  /** Stop and Reset. */
  function Stopped(t: State): State { t.(active := false, tick := false) }

  function Suspended(t: State): State { t.(active := false) }

  function Resumed(t: State): State { t.(active := true) }

  function TickCleared(t: State): State { t.(tick := false) }

  /** The counter lies in 1..setting. */
  predicate InRange(t: State)
  {
    1 <= t.counter <= t.setting
  }

  /** One tick. */
  function Step(t: State): (r: State)
    ensures !t.active ==> r == t
    ensures r.active == t.active && r.setting == t.setting
    ensures t.active ==> (r.tick <==> t.tick || t.counter == 1)
    ensures t.active && t.counter == 1 ==> r.counter == t.setting
    ensures t.active && t.counter != 1 ==> r.counter == PreDec(t.counter)
    ensures InRange(t) ==> InRange(r)
  {
    if !t.active then t
    else
      var c := PreDec(t.counter);
      if c == 0 then t.(counter := t.setting, tick := true) else t.(counter := c)
  }

  function Run(t: State, n: nat): State
  {
    if n == 0 then t else Step(Run(t, n - 1))
  }

  /** Whether a tick from t raises the flag, whatever the flag held before. */
  predicate Raised(t: State)
  {
    Step(TickCleared(t)).tick
  }

  /** k ticks after Set(per) the counter is CounterAt(per, k), the setting is
      still per, and the flag has been raised once k reaches Period(per). */
  lemma {:induction false} Periodic(per: Count, k: nat)
    ensures Run(Armed(per), k) == Armed(per).(counter := CounterAt(per, k), tick := k >= Period(per))
  {
    if k > 0 {
      Periodic(per, k - 1);
      NextFromArmed(per, k, CounterAt(per, k - 1), k - 1 >= Period(per));
      CounterAtSucc(per, k - 1);
    }
  }

  /** One tick of a timer armed with per that has reached counter c. */
  lemma NextFromArmed(per: Count, k: nat, c: Count, raised: bool)
    requires k > 0 && Run(Armed(per), k - 1) == Armed(per).(counter := c, tick := raised)
    ensures Run(Armed(per), k) ==
      Armed(per).(counter := if c == 1 then per else PreDec(c), tick := raised || c == 1)
  {
  }

  /** Tick number k + 1 after Set(per) raises the flag exactly when k + 1 is a
      multiple of the period (per, or WORD when per = 0). */
  lemma TickEveryPeriod(per: Count, k: nat)
    ensures Raised(Run(Armed(per), k)) <==> (k + 1) % Period(per) == 0
  {
    Periodic(per, k);
    CounterAtOne(per, k);
  }

  lemma {:induction false} InactiveIsInert(t: State, n: nat)
    requires !t.active
    ensures Run(t, n) == t
  {
    if n > 0 {
      InactiveIsInert(t, n - 1);
    }
  }

  /** A stopped (or reset) timer never raises its flag again. */
  lemma StoppedIsInert(t: State, n: nat)
    ensures Run(Stopped(t), n) == Stopped(t) && !Run(Stopped(t), n).tick
  {
    InactiveIsInert(Stopped(t), n);
  }

  /** While active with setting >= 1, the counter never leaves 1..setting. */
  lemma {:induction false} StaysInRange(t: State, n: nat)
    requires InRange(t)
    ensures InRange(Run(t, n)) && Run(t, n).setting == t.setting
  {
    if n > 0 {
      StaysInRange(t, n - 1);
    }
  }

  /** One named continuous timer. */
  class Timer {
    var counter: Count
    var setting: Count
    var active: bool
    var tick: bool

    function Model(): State
      reads this
    {
      State(counter, setting, active, tick)
    }

    constructor ()
      ensures Model() == Cleared()
    {
      counter, setting, active, tick := 0, 0, false, false;
    }

    /** SetContinuousTimer and SetContinuousTimerI. */
    method Set(per: Count)
      modifies this
      ensures Model() == Armed(per)
    {
      setting := per;
      counter := per;
      active := true;
      tick := false;
    }

    method Stop()
      modifies this
      ensures Model() == Stopped(old(Model()))
    {
      active := false;
      tick := false;
    }

    method Reset()
      modifies this
      ensures Model() == Stopped(old(Model()))
    {
      active := false;
      tick := false;
    }

    method Clear()
      modifies this
      ensures Model() == Cleared()
    {
      active := false;
      tick := false;
      counter := 0;
      setting := 0;
    }

    /** Deactivates this timer (the source names a variable that does not exist here). */
    method Suspend()
      modifies this
      ensures Model() == Suspended(old(Model()))
    {
      active := false;
    }

    method Resume()
      modifies this
      ensures Model() == Resumed(old(Model()))
    {
      active := true;
    }

    method Tick()
      modifies this
      ensures Model() == Step(old(Model()))
    {
      if active {
        counter := PreDec(counter);
        if counter == 0 {
          counter := setting;
          tick := true;
        }
      }
    }

    method ClearTick()
      modifies this
      ensures Model() == TickCleared(old(Model()))
    {
      tick := false;
    }
  }
}
