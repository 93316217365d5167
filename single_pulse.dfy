/** The single-pulse timer (ST_*): a one-shot countdown that raises
    `expired` on the tick that brings the counter to zero. */
module SinglePulse {
  import opened Counters

  /** ST_Counter_x, ST_Flag_x (the timer is active) and ST_Expired_x. */
  datatype State = State(counter: Count, active: bool, expired: bool)

  /** All variables zero: static storage before any call, and the effect of Clear. */
  function Cleared(): State { State(0, false, false) }

  function Armed(per: Count): State { State(per, true, false) }

  /** Stop and Reset: deactivate and clear the flag; the counter keeps its value. */
  function Stopped(t: State): State { t.(active := false, expired := false) }

  function Suspended(t: State): State { t.(active := false) }

  function Resumed(t: State): State { t.(active := true) }

  function ExpiredCleared(t: State): State { t.(expired := false) }

  /** One tick. */
  function Step(t: State): (r: State)
    ensures !t.active ==> r == t
    ensures t.active ==> r.counter == PreDec(t.counter)
    ensures r.expired <==> t.expired || (t.active && t.counter == 1)
    ensures r.active <==> t.active && t.counter != 1
  {
    if !t.active then t
    else
      var c := PreDec(t.counter);
      if c == 0 then State(c, false, true) else t.(counter := c)
  }

  /** The state after n ticks. */
  function Run(t: State, n: nat): State
  {
    if n == 0 then t else Step(Run(t, n - 1))
  }

  lemma {:induction false} InactiveIsInert(t: State, n: nat)
    requires !t.active
    ensures Run(t, n) == t
  {
    if n > 0 {
      InactiveIsInert(t, n - 1);
    }
  }

  /** Before Period(counter) ticks an active timer only counts down. */
  lemma {:induction false} Countdown(t: State, k: nat)
    requires t.active && k < Period(t.counter)
    ensures Run(t, k) == t.(counter := Remaining(t.counter, k))
  {
    if k > 0 {
      Countdown(t, k - 1);
    }
  }

  /** On the Period(counter)-th tick an active timer expires and stops. */
  lemma {:induction false} ExpiresAtZero(t: State)
    requires t.active
    ensures Run(t, Period(t.counter)) == State(0, false, true)
  {
    Countdown(t, Period(t.counter) - 1);
  }

  /** After Set(per): `expired` stays false and the timer active for the first
      Period(per) - 1 ticks, becomes true on exactly the Period(per)-th tick with
      the timer inactive, and no later tick changes anything. */
  lemma ExpiresAfterPeriod(per: Count)
    ensures forall k :: 0 <= k < Period(per) ==>
      Run(Armed(per), k).active && !Run(Armed(per), k).expired
    ensures forall m :: m >= Period(per) ==> Run(Armed(per), m) == State(0, false, true)
  {
    forall k | 0 <= k < Period(per)
      ensures Run(Armed(per), k).active && !Run(Armed(per), k).expired
    {
      Countdown(Armed(per), k);
    }
    forall m | m >= Period(per)
      ensures Run(Armed(per), m) == State(0, false, true)
    {
      StaysExpired(per, m);
    }
  }

  lemma {:induction false} StaysExpired(per: Count, m: nat)
    requires m >= Period(per)
    ensures Run(Armed(per), m) == State(0, false, true)
  {
    if m == Period(per) {
      ExpiresAtZero(Armed(per));
    } else {
      StaysExpired(per, m - 1);
    }
  }

  /** A stopped (or reset) timer keeps its counter and never expires. */
  lemma StoppedIsInert(t: State, n: nat)
    ensures Run(Stopped(t), n) == Stopped(t)
    ensures Run(Stopped(t), n).counter == t.counter && !Run(Stopped(t), n).expired
  {
    InactiveIsInert(Stopped(t), n);
  }

  /** Suspend, any number of ticks, Resume: the countdown continues where it paused. */
  lemma SuspendPausesCountdown(t: State, n: nat)
    requires t.active
    ensures Resumed(Run(Suspended(t), n)) == t
  {
    InactiveIsInert(Suspended(t), n);
  }

  /** One named single-pulse timer. */
  class Timer {
    var counter: Count
    var active: bool
    var expired: bool

    function Model(): State
      reads this
    {
      State(counter, active, expired)
    }

    constructor ()
      ensures Model() == Cleared()
    {
      counter, active, expired := 0, false, false;
    }

    /** SetSinglePulseTimer and SetSinglePulseTimerI. */
    method Set(per: Count)
      modifies this
      ensures Model() == Armed(per)
    {
      counter := per;
      active := true;
      expired := false;
    }

    method Stop()
      modifies this
      ensures Model() == Stopped(old(Model()))
    {
      active := false;
      expired := false;
    }

    method Reset()
      modifies this
      ensures Model() == Stopped(old(Model()))
    {
      active := false;
      expired := false;
    }

    method Clear()
      modifies this
      ensures Model() == Cleared()
    {
      active := false;
      expired := false;
      counter := 0;
    }

    method Suspend()
      modifies this
      ensures Model() == Suspended(old(Model()))
    {
      active := false;
    }

    method Resume()
      modifies this
      ensures Model() == Resumed(old(Model()))
    {
      active := true;
    }

    method Tick()
      modifies this
      ensures Model() == Step(old(Model()))
    {
      if active {
        counter := PreDec(counter);
        if counter == 0 {
          active := false;
          expired := true;
        }
      }
    }

    method ClearExpired()
      modifies this
      ensures Model() == ExpiredCleared(old(Model()))
    {
      expired := false;
    }
  }
}
