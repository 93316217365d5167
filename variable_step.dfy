/** The variable-step forward/backward timer (FBVS_*): the forward/backward
    single-pulse timer with a forward step and a backward step of its own. */
module VariableStep {
  import opened Counters
  import FB = ForwardBackward

  const FORWARD: bool := FB.FORWARD
  const BACKWARD: bool := FB.BACKWARD

  /** FBVS_Counter_x, FBVS_Setting_x, FBVS_StepF_x, FBVS_StepB_x,
      FBVS_Direction_x, FBVS_Flag_x (the timer is active) and FBVS_Expired_x. */
  datatype State = State(counter: Count, setting: Count, stepF: Count, stepB: Count,
                         direction: bool, active: bool, expired: bool)

  function Cleared(): State { State(0, 0, 0, 0, BACKWARD, false, false) }

  function Armed(per: Count, stepF: Count, stepB: Count, direction: bool): State
  {
    State(0, per, stepF, stepB, direction, true, false)
  }

  /** Stop and Reset. */
  function Stopped(t: State): State { t.(active := false, expired := false) }

  function ExpiredCleared(t: State): State { t.(expired := false) }

  function Revived(t: State): State { t.(expired := false, active := true, direction := BACKWARD) }

  function Redirected(t: State, d: bool): State { t.(direction := d) }

  function StepFChanged(t: State, stepF: Count): State { t.(stepF := stepF) }

  function StepBChanged(t: State, stepB: Count): State { t.(stepB := stepB) }

  /** ChangeFBVSinglePulseTimerSetting. */
  function SettingChanged(t: State, per: Count): (r: State)
    ensures t.direction == FORWARD && t.counter >= per ==>
      r == t.(setting := per, active := false, expired := true)
    ensures !(t.direction == FORWARD && t.counter >= per) ==> r == t.(setting := per)
  {
    var u := t.(setting := per);
    if u.direction == FORWARD && u.counter >= u.setting then u.(active := false, expired := true) else u
  }

  /** One tick. Forward, the counter wraps if counter + stepF leaves `ttype`. */
  function Step(t: State): (r: State)
    ensures !t.active ==> r == t
    ensures r.setting == t.setting && r.stepF == t.stepF && r.stepB == t.stepB
    ensures r.direction == t.direction
    ensures t.direction == BACKWARD ==>
      r.counter <= t.counter && r.active == t.active && r.expired == t.expired
    ensures t.active && t.direction == BACKWARD ==> r.counter == Max0(t.counter - t.stepB)
    ensures t.active && t.direction == FORWARD ==>
      r.counter == AddWrap(t.counter, t.stepF) &&
      (r.active <==> r.counter < t.setting) &&
      (r.expired <==> t.expired || r.counter >= t.setting)
  {
    if !t.active then t
    else if t.direction == FORWARD then
      var c := AddWrap(t.counter, t.stepF);
      if c >= t.setting then t.(counter := c, active := false, expired := true)
      else t.(counter := c)
    else if t.counter > t.stepB then t.(counter := t.counter - t.stepB)
    else t.(counter := 0)
  }

  function Run(t: State, n: nat): State
  {
    if n == 0 then t else Step(Run(t, n - 1))
  }

  lemma {:induction false} InactiveIsInert(t: State, n: nat)
    requires !t.active
    ensures Run(t, n) == t
  {
    if n > 0 {
      InactiveIsInert(t, n - 1);
    }
  }

  /** Backward, n ticks take n * stepB off the counter, saturating at zero, and
      change nothing else: `expired` is never set. */
  lemma {:induction false} BackwardRun(t: State, n: nat)
    requires t.direction == BACKWARD
    requires t.active
    ensures Run(t, n) == t.(counter := Max0(t.counter - n * t.stepB))
  {
    if n > 0 {
      BackwardRun(t, n - 1);
      assert n * t.stepB == (n - 1) * t.stepB + t.stepB;
    }
  }

  /** Forward from Set(per, stepF, stepB): the counter is k * stepF after k
      ticks while that is below the setting. */
  lemma {:induction false} ForwardCount(per: Count, stepF: Count, stepB: Count, k: nat)
    requires k * stepF < per
    ensures Run(Armed(per, stepF, stepB, FORWARD), k) == Armed(per, stepF, stepB, FORWARD).(counter := k * stepF)
  {
    if k > 0 {
      assert k * stepF == (k - 1) * stepF + stepF;
      ForwardCount(per, stepF, stepB, k - 1);
    }
  }

  /** Forward from Set(per, stepF, stepB), with per + stepF inside `ttype` as the
      source asks of its callers: the timer expires on the first tick k at which
      k * stepF reaches per, with the counter at k * stepF, and not before. */
  lemma ForwardExpiry(per: Count, stepF: Count, stepB: Count, k: nat)
    requires per + stepF < WORD
    requires k >= 1 && (k == 1 || (k - 1) * stepF < per) && per <= k * stepF
    ensures forall j :: 0 <= j < k ==>
      Run(Armed(per, stepF, stepB, FORWARD), j).active && !Run(Armed(per, stepF, stepB, FORWARD), j).expired
    ensures Run(Armed(per, stepF, stepB, FORWARD), k) == State(k * stepF, per, stepF, stepB, FORWARD, false, true)
  {
    var a := Armed(per, stepF, stepB, FORWARD);
    forall j | 0 <= j < k
      ensures Run(a, j).active && !Run(a, j).expired
    {
      if j > 0 {
        MulMonotone(j, k - 1, stepF);
        ForwardCount(per, stepF, stepB, j);
      }
    }
    assert k * stepF == (k - 1) * stepF + stepF;
    if k > 1 {
      ForwardCount(per, stepF, stepB, k - 1);
    }
  }

  /** Why Set asks for per + stepF inside `ttype`: with per = 255 and
      stepF = 254 the second forward step wraps to 252, below the setting, so
      the timer is still running where it should have expired. */
  lemma WrapDelaysExpiry(stepB: Count)
    ensures Run(Armed(255, 254, stepB, FORWARD), 2) == Armed(255, 254, stepB, FORWARD).(counter := 252)
    ensures Run(Armed(255, 254, stepB, FORWARD), 2).active
  {
    var a := Armed(255, 254, stepB, FORWARD);
    assert Run(a, 1) == a.(counter := 254);
  }

  /** The fixed-step timer's view of a variable-step state. */
  function Fixed(t: State): FB.State
  {
    FB.State(t.counter, t.setting, t.direction, t.active, t.expired)
  }

  /** With both steps 1 the variable-step timer runs exactly as the
      forward/backward single-pulse timer. */
  lemma {:induction false} UnitStepsRunAsFixed(t: State, n: nat)
    requires t.stepF == 1 && t.stepB == 1
    ensures Fixed(Run(t, n)) == FB.Run(Fixed(t), n)
    ensures Run(t, n).stepF == 1 && Run(t, n).stepB == 1
  {
    if n > 0 {
      UnitStepsRunAsFixed(t, n - 1);
    }
  }

  /** One named variable-step forward/backward timer. */
  class Timer {
    var counter: Count
    var setting: Count
    var stepF: Count
    var stepB: Count
    var direction: bool
    var active: bool
    var expired: bool

    function Model(): State
      reads this
    {
      State(counter, setting, stepF, stepB, direction, active, expired)
    }

    constructor ()
      ensures Model() == Cleared()
    {
      counter, setting, stepF, stepB := 0, 0, 0, 0;
      direction, active, expired := BACKWARD, false, false;
    }

    /** SetFBVSinglePulseTimer and SetFBVSinglePulseTimerI. */
    method Set(per: Count, sf: Count, sb: Count, d: bool)
      modifies this
      ensures Model() == Armed(per, sf, sb, d)
    {
      counter := 0;
      setting := per;
      stepF := sf;
      stepB := sb;
      direction := d;
      active := true;
      expired := false;
    }

    method Tick()
      modifies this
      ensures Model() == Step(old(Model()))
    {
      if active {
        if direction == FORWARD {
          counter := AddWrap(counter, stepF);
          if counter >= setting {
            active := false;
            expired := true;
          }
        } else {
          if counter > stepB {
            counter := counter - stepB;
          } else {
            counter := 0;
          }
        }
      }
    }

    method Stop()
      modifies this
      ensures Model() == Stopped(old(Model()))
    {
      active := false;
      expired := false;
    }

    method Reset()
      modifies this
      ensures Model() == Stopped(old(Model()))
    {
      active := false;
      expired := false;
    }

    method Clear()
      modifies this
      ensures Model() == Cleared()
    {
      active := false;
      expired := false;
      direction := BACKWARD;
      counter := 0;
      setting := 0;
      stepF := 0;
      stepB := 0;
    }

    method ClearExpired()
      modifies this
      ensures Model() == ExpiredCleared(old(Model()))
    {
      expired := false;
    }

    method SetDirection(d: bool)
      modifies this
      ensures Model() == Redirected(old(Model()), d)
    {
      direction := d;
    }

    method Revive()
      modifies this
      ensures Model() == Revived(old(Model()))
    {
      expired := false;
      active := true;
      direction := BACKWARD;
    }

    method ChangeSetting(per: Count)
      modifies this
      ensures Model() == SettingChanged(old(Model()), per)
    {
      setting := per;
      if direction == FORWARD {
        if counter >= setting {
          active := false;
          expired := true;
        }
      }
    }

    method SetStepF(sf: Count)
      modifies this
      ensures Model() == StepFChanged(old(Model()), sf)
    {
      stepF := sf;
    }

    method SetStepB(sb: Count)
      modifies this
      ensures Model() == StepBChanged(old(Model()), sb)
    {
      stepB := sb;
    }
  }
}
