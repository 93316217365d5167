/** The constant-period continuous timer (CCT_*): a continuous timer that
    stores no setting; every Tick call passes the reload period. */
module ConstContinuous {
  import opened Counters

  /** CCT_Counter_x, CCT_Flag_x (the timer is active) and CCT_Tick_x. */
  datatype State = State(counter: Count, active: bool, tick: bool)

  function Cleared(): State { State(0, false, false) }

  function Armed(per: Count): State { State(per, true, false) }

  /** Stop and Reset. */
  function Stopped(t: State): State { t.(active := false, tick := false) }

  function Suspended(t: State): State { t.(active := false) }

  function Resumed(t: State): State { t.(active := true) }

  function TickCleared(t: State): State { t.(tick := false) }

  /** One tick with reload period per. */
  function Step(t: State, per: Count): (r: State)
    ensures !t.active ==> r == t
    ensures r.active == t.active
    ensures t.active ==> (r.tick <==> t.tick || t.counter == 1)
    ensures t.active && t.counter == 1 ==> r.counter == per
    ensures t.active && t.counter != 1 ==> r.counter == PreDec(t.counter)
    ensures 1 <= t.counter <= per ==> 1 <= r.counter <= per
  {
    if !t.active then t
    else
      var c := PreDec(t.counter);
      if c == 0 then t.(counter := per, tick := true) else t.(counter := c)
  }

  /** The state after n ticks, all with the same period. */
  function Run(t: State, per: Count, n: nat): State
  {
    if n == 0 then t else Step(Run(t, per, n - 1), per)
  }

  predicate Raised(t: State, per: Count)
  {
    Step(TickCleared(t), per).tick
  }

  lemma NextFromArmed(per: Count, k: nat, c: Count, raised: bool)
    requires k > 0 && Run(Armed(per), per, k - 1) == Armed(per).(counter := c, tick := raised)
    ensures Run(Armed(per), per, k) ==
      Armed(per).(counter := if c == 1 then per else PreDec(c), tick := raised || c == 1)
  {
  }

  /** k ticks (each passed per) after Set(per), the counter is CounterAt(per, k)
      and the flag has been raised once k reaches the period. */
  lemma {:induction false} Periodic(per: Count, k: nat)
    ensures Run(Armed(per), per, k) == Armed(per).(counter := CounterAt(per, k), tick := k >= Period(per))
  {
    if k > 0 {
      Periodic(per, k - 1);
      NextFromArmed(per, k, CounterAt(per, k - 1), k - 1 >= Period(per));
      CounterAtSucc(per, k - 1);
    }
  }

  /** Tick number k + 1 raises the flag exactly when k + 1 is a multiple of the period. */
  lemma TickEveryPeriod(per: Count, k: nat)
    ensures Raised(Run(Armed(per), per, k), per) <==> (k + 1) % Period(per) == 0
  {
    Periodic(per, k);
    CounterAtOne(per, k);
  }

  /** While the same per >= 1 is passed to every Tick, the counter never
      leaves 1..per. */
  lemma {:induction false} StaysInRange(t: State, per: Count, n: nat)
    requires 1 <= t.counter <= per
    ensures 1 <= Run(t, per, n).counter <= per
  {
    if n > 0 {
      StaysInRange(t, per, n - 1);
    }
  }

  lemma {:induction false} InactiveIsInert(t: State, per: Count, n: nat)
    requires !t.active
    ensures Run(t, per, n) == t
  {
    if n > 0 {
      InactiveIsInert(t, per, n - 1);
    }
  }

  /** One named constant-period continuous timer. */
  class Timer {
    var counter: Count
    var active: bool
    var tick: bool

    function Model(): State
      reads this
    {
      State(counter, active, tick)
    }

    constructor ()
      ensures Model() == Cleared()
    {
      counter, active, tick := 0, false, false;
    }

    /** SetConstContinuousTimer and SetConstContinuosTimerI. */
    method Set(per: Count)
      modifies this
      ensures Model() == Armed(per)
    {
      counter := per;
      active := true;
      tick := false;
    }

    method Stop()
      modifies this
      ensures Model() == Stopped(old(Model()))
    {
      active := false;
      tick := false;
    }

    method Reset()
      modifies this
      ensures Model() == Stopped(old(Model()))
    {
      active := false;
      tick := false;
    }

    method Clear()
      modifies this
      ensures Model() == Cleared()
    {
      active := false;
      tick := false;
      counter := 0;
    }

    method Suspend()
      modifies this
      ensures Model() == Suspended(old(Model()))
    {
      active := false;
    }

    method Resume()
      modifies this
      ensures Model() == Resumed(old(Model()))
    {
      active := true;
    }

    method Tick(per: Count)
      modifies this
      ensures Model() == Step(old(Model()), per)
    {
      if active {
        counter := PreDec(counter);
        if counter == 0 {
          counter := per;
          tick := true;
        }
      }
    }

    method ClearTick()
      modifies this
      ensures Model() == TickCleared(old(Model()))
    {
      tick := false;
    }
  }
}
