/** The forward/backward single-pulse timer (FBS_*). Forward, every tick
    increments the counter and the timer expires once the counter reaches the
    setting; backward, every tick decrements it, saturating at zero, and the
    timer never expires. */
module ForwardBackward {
  import opened Counters

  /** FBS_FORWARD and FBS_BACKWARD. */
  const FORWARD: bool := true
  const BACKWARD: bool := false

  /** FBS_Counter_x, FBS_Setting_x, FBS_Direction_x, FBS_Flag_x (the timer is
      active) and FBS_Expired_x. */
  datatype State = State(counter: Count, setting: Count, direction: bool, active: bool, expired: bool)

  /** Clear: every variable zero, so the direction is BACKWARD. */
  function Cleared(): State { State(0, 0, BACKWARD, false, false) }

  function Armed(per: Count, direction: bool): State { State(0, per, direction, true, false) }

  /** Stop and Reset. */
  function Stopped(t: State): State { t.(active := false, expired := false) }

  function ExpiredCleared(t: State): State { t.(expired := false) }

  /** Revive: re-arm counting backward from wherever the counter is. */
  function Revived(t: State): State { t.(expired := false, active := true, direction := BACKWARD) }

  function Redirected(t: State, d: bool): State { t.(direction := d) }

  /** ChangeFBSinglePulseSetting: a new setting that the counter already reaches
      expires a forward timer at once; otherwise only the setting changes. */
  function SettingChanged(t: State, per: Count): (r: State)
    ensures t.direction == FORWARD && t.counter >= per ==>
      r == t.(setting := per, active := false, expired := true)
    ensures !(t.direction == FORWARD && t.counter >= per) ==> r == t.(setting := per)
  {
    var u := t.(setting := per);
    if u.direction == FORWARD && u.counter >= u.setting then u.(active := false, expired := true) else u
  }

  /** One tick. */
  function Step(t: State): (r: State)
    ensures !t.active ==> r == t
    ensures r.setting == t.setting && r.direction == t.direction
    ensures t.direction == BACKWARD ==>
      r.counter <= t.counter && r.active == t.active && r.expired == t.expired
    ensures t.active && t.direction == BACKWARD ==> r.counter == Max0(t.counter - 1)
    ensures t.active && t.direction == FORWARD ==>
      r.counter == PreInc(t.counter) &&
      (r.active <==> r.counter < t.setting) &&
      (r.expired <==> t.expired || r.counter >= t.setting)
  {
    if !t.active then t
    else if t.direction == FORWARD then
      var c := PreInc(t.counter);
      if c >= t.setting then t.(counter := c, active := false, expired := true)
      else t.(counter := c)
    else if t.counter != 0 then t.(counter := t.counter - 1)
    else t
  }

  function Run(t: State, n: nat): State
  {
    if n == 0 then t else Step(Run(t, n - 1))
  }

  lemma {:induction false} InactiveIsInert(t: State, n: nat)
    requires !t.active
    ensures Run(t, n) == t
  {
    if n > 0 {
      InactiveIsInert(t, n - 1);
    }
  }

  /** Backward, n ticks take n off the counter but never below zero, and
      nothing else changes: the counter never increases, never underflows and
      `expired` is never set. */
  lemma {:induction false} BackwardRun(t: State, n: nat)
    requires t.direction == BACKWARD
    requires t.active
    ensures Run(t, n) == t.(counter := Max0(t.counter - n))
  {
    if n > 0 {
      BackwardRun(t, n - 1);
    }
  }

  /** Ticks from Set(per, FORWARD) to expiry. */
  function ForwardTicks(per: Count): nat
  {
    if per == 0 then 1 else per
  }

  /** Forward from Set(per): the counter is k after k ticks while k is below
      the setting. */
  lemma {:induction false} ForwardCount(per: Count, k: nat)
    requires k < per
    ensures Run(Armed(per, FORWARD), k) == Armed(per, FORWARD).(counter := k)
  {
    if k > 0 {
      ForwardCount(per, k - 1);
    }
  }

  /** Forward from Set(per): the timer stays active and unexpired for the first
      ForwardTicks(per) - 1 ticks, expires and deactivates on exactly the
      ForwardTicks(per)-th, where the counter reaches the setting, and no later
      tick changes anything. */
  lemma ForwardExpiry(per: Count)
    ensures forall k :: 0 <= k < ForwardTicks(per) ==>
      Run(Armed(per, FORWARD), k).active && !Run(Armed(per, FORWARD), k).expired
    ensures forall m :: m >= ForwardTicks(per) ==>
      Run(Armed(per, FORWARD), m) == State(ForwardTicks(per), per, FORWARD, false, true)
  {
    forall k | 0 <= k < ForwardTicks(per)
      ensures Run(Armed(per, FORWARD), k).active && !Run(Armed(per, FORWARD), k).expired
    {
      if per > 0 {
        ForwardCount(per, k);
      }
    }
    forall m | m >= ForwardTicks(per)
      ensures Run(Armed(per, FORWARD), m) == State(ForwardTicks(per), per, FORWARD, false, true)
    {
      StaysExpired(per, m);
    }
  }

  lemma {:induction false} StaysExpired(per: Count, m: nat)
    requires m >= ForwardTicks(per)
    ensures Run(Armed(per, FORWARD), m) == State(ForwardTicks(per), per, FORWARD, false, true)
  {
    if m == ForwardTicks(per) {
      if per > 0 {
        ForwardCount(per, per - 1);
      }
    } else {
      StaysExpired(per, m - 1);
    }
  }

  /** Set(per, FORWARD), tick until expiry, Revive: the timer then counts back
      down to zero and stays there, active and never expired. */
  lemma ReviveCountsDown(per: Count, n: nat)
    ensures Run(Revived(Run(Armed(per, FORWARD), ForwardTicks(per))), n) ==
      State(Max0(ForwardTicks(per) - n), per, BACKWARD, true, false)
  {
    StaysExpired(per, ForwardTicks(per));
    BackwardRun(Revived(State(ForwardTicks(per), per, FORWARD, false, true)), n);
  }

  /** One named forward/backward single-pulse timer. */
  class Timer {
    var counter: Count
    var setting: Count
    var direction: bool
    var active: bool
    var expired: bool

    function Model(): State
      reads this
    {
      State(counter, setting, direction, active, expired)
    }

    constructor ()
      ensures Model() == Cleared()
    {
      counter, setting, direction, active, expired := 0, 0, BACKWARD, false, false;
    }

    /** SetFBSinglePulseTimer and SetFBSinglePulseTimerI. */
    method Set(per: Count, d: bool)
      modifies this
      ensures Model() == Armed(per, d)
    {
      counter := 0;
      setting := per;
      direction := d;
      active := true;
      expired := false;
    }

    method Tick()
      modifies this
      ensures Model() == Step(old(Model()))
    {
      if active {
        if direction == FORWARD {
          counter := PreInc(counter);
          if counter >= setting {
            active := false;
            expired := true;
          }
        } else {
          if counter != 0 {
            counter := counter - 1;
          }
        }
      }
    }

    method Stop()
      modifies this
      ensures Model() == Stopped(old(Model()))
    {
      active := false;
      expired := false;
    }

    method Reset()
      modifies this
      ensures Model() == Stopped(old(Model()))
    {
      active := false;
      expired := false;
    }

    method Clear()
      modifies this
      ensures Model() == Cleared()
    {
      active := false;
      expired := false;
      direction := BACKWARD;
      counter := 0;
      setting := 0;
    }

    method ClearExpired()
      modifies this
      ensures Model() == ExpiredCleared(old(Model()))
    {
      expired := false;
    }

    method Revive()
      modifies this
      ensures Model() == Revived(old(Model()))
    {
      expired := false;
      active := true;
      direction := BACKWARD;
    }

    method ChangeSetting(per: Count)
      modifies this
      ensures Model() == SettingChanged(old(Model()), per)
    {
      setting := per;
      if direction == FORWARD {
        if counter >= setting {
          active := false;
          expired := true;
        }
      }
    }

    method SetDirection(d: bool)
      modifies this
      ensures Model() == Redirected(old(Model()), d)
    {
      direction := d;
    }
  }
}
