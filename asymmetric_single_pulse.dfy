/** The asymmetric single-pulse timer (ASP_*): one pulse of two semi-periods,
    settingFirst ticks in the initial state and then settingSecond ticks in the
    inverted state, after which it expires. */
module AsymmetricSinglePulse {
  import opened Counters

  /** ACT_STATE_LOW, which Stop and Reset write to the state. */
  const LOW: bool := false

  /** ASP_Counter_x, ASP_SettingFirst_x, ASP_SettingSecond_x, ASP_Flag_x (the
      timer is active), ASP_sp_x (false in the first semi-period, true in the
      second), ASP_State_x, ASP_SemiPeriod_Expired_x and ASP_Expired_x. */
  datatype State = State(counter: Count, settingFirst: Count, settingSecond: Count,
                         active: bool, sp: bool, state: bool,
                         semiExpired: bool, expired: bool)

  function Cleared(): State { State(0, 0, 0, false, false, false, false, false) }

  /** SetAsymmetricSinglePulseTimer: a non-zero first semi-period starts in
      istate; otherwise a non-zero second one starts at once in the inverted
      state with the first already counted as elapsed; with both zero the timer
      stays inactive, all flags false, counter and state as they were. The
      zero checks look at the arguments as passed, while the variables store
      them converted to `ttype` (Narrow), so an argument that is a non-zero
      multiple of WORD passes the check and loads 0. */
  function Armed(t: State, first: int, second: int, istate: bool): State
  {
    var u := t.(settingFirst := Narrow(first), settingSecond := Narrow(second));
    if first != 0 then
      u.(counter := Narrow(first), state := istate, sp := false, semiExpired := false, active := true, expired := false)
    else if second != 0 then
      u.(counter := Narrow(second), state := !istate, sp := true, semiExpired := true, active := true, expired := false)
    else
      u.(sp := false, active := false, semiExpired := false, expired := false)
  }

  /** SetAsymmetricSinglePulseTimerI: the same without the zero checks. */
  function ArmedI(first: int, second: int, istate: bool): State
  {
    State(Narrow(first), Narrow(first), Narrow(second), true, false, istate, false, false)
  }

  /** Stop and Reset. */
  function Stopped(t: State): State
  {
    t.(active := false, sp := false, state := LOW, semiExpired := false, expired := false)
  }

  /** One tick. */
  function Step(t: State): (r: State)
    ensures !t.active ==> r == t
    ensures r.settingFirst == t.settingFirst && r.settingSecond == t.settingSecond
    ensures t.active && t.counter != 1 ==> r == t.(counter := PreDec(t.counter))
    ensures t.sp ==> r.sp
    ensures r.state != t.state ==> !t.sp && r.sp && t.settingSecond != 0
    ensures t.active && !r.active ==> r.expired && r.counter == 0
    ensures t.active && !t.sp && t.counter == 1 ==> r.semiExpired
  {
    if !t.active then t
    else
      var c := PreDec(t.counter);
      if c != 0 then t.(counter := c)
      else if !t.sp then
        if t.settingSecond != 0 then
          t.(counter := t.settingSecond, state := !t.state, sp := true, semiExpired := true)
        else
          t.(counter := c, semiExpired := true, active := false, expired := true)
      else
        t.(counter := c, active := false, expired := true)
  }

  function Run(t: State, n: nat): State
  {
    if n == 0 then t else Step(Run(t, n - 1))
  }

  lemma {:induction false} RunAdd(t: State, a: nat, b: nat)
    ensures Run(t, a + b) == Run(Run(t, a), b)
  {
    if b > 0 {
      RunAdd(t, a, b - 1);
    }
  }

  lemma {:induction false} InactiveIsInert(t: State, n: nat)
    requires !t.active
    ensures Run(t, n) == t
  {
    if n > 0 {
      InactiveIsInert(t, n - 1);
    }
  }

  /** Before the counter hits zero only the counter moves. */
  lemma {:induction false} Countdown(t: State, k: nat)
    requires t.active && k < Period(t.counter)
    ensures Run(t, k) == t.(counter := Remaining(t.counter, k))
  {
    if k > 0 {
      Countdown(t, k - 1);
    }
  }

  /** The second semi-period: counter second, inverted state, first semi-period
      marked as elapsed. */
  function SecondHalf(first: Count, second: Count, istate: bool): State
  {
    State(second, first, second, true, true, !istate, true, false)
  }

  /** After the pulse: inactive and expired, in the inverted state unless the
      second semi-period was empty. */
  function Done(first: Count, second: Count, istate: bool): State
  {
    State(0, first, second, false, second != 0, if second != 0 then !istate else istate, true, true)
  }

  /** The first first + second ticks after Set are the pulse. */
  lemma {:induction false} PulseStages(t: State, first: Count, second: Count, istate: bool)
    requires first + second >= 1
    ensures first >= 1 ==>
      Run(Armed(t, first, second, istate), first) ==
      (if second != 0 then SecondHalf(first, second, istate) else Done(first, second, istate))
    ensures second >= 1 ==> Run(Armed(t, first, second, istate), first) == SecondHalf(first, second, istate)
    ensures Run(Armed(t, first, second, istate), first + second) == Done(first, second, istate)
  {
    var a := Armed(t, first, second, istate);
    if first >= 1 {
      Countdown(a, first - 1);
    }
    if second >= 1 {
      var h := SecondHalf(first, second, istate);
      Countdown(h, second - 1);
      RunAdd(a, first, second);
    }
  }

  /** Set(first, second, istate) with first + second >= 1: for first + second
      ticks the timer is active and unexpired, in istate for the first `first`
      ticks and in the inverted state for the rest, so the state flips at most
      once. */
  lemma PulseShape(t: State, first: Count, second: Count, istate: bool)
    requires first + second >= 1
    ensures forall k :: 0 <= k < first + second ==>
      Run(Armed(t, first, second, istate), k).active &&
      !Run(Armed(t, first, second, istate), k).expired &&
      Run(Armed(t, first, second, istate), k).state == (if k < first then istate else !istate)
  {
    var a := Armed(t, first, second, istate);
    PulseStages(t, first, second, istate);
    forall k | 0 <= k < first + second
      ensures Run(a, k).active && !Run(a, k).expired && Run(a, k).state == (if k < first then istate else !istate)
    {
      if k < first {
        Countdown(a, k);
      } else {
        Countdown(SecondHalf(first, second, istate), k - first);
        RunAdd(a, first, k - first);
      }
    }
  }

  /** Set(first, second, istate) with first + second >= 1: the timer expires
      on tick first + second, and no later tick changes anything. */
  lemma ExpiresAfterPulse(t: State, first: Count, second: Count, istate: bool)
    requires first + second >= 1
    ensures forall m :: m >= first + second ==>
      Run(Armed(t, first, second, istate), m) == Done(first, second, istate)
  {
    var a := Armed(t, first, second, istate);
    PulseStages(t, first, second, istate);
    forall m | m >= first + second
      ensures Run(a, m) == Done(first, second, istate)
    {
      InactiveIsInert(Done(first, second, istate), m - (first + second));
      RunAdd(a, first + second, m - (first + second));
    }
  }

  /** Set with both semi-periods zero leaves the timer inactive and unexpired for good. */
  lemma NoPulse(t: State, istate: bool, n: nat)
    ensures Run(Armed(t, 0, 0, istate), n) == Armed(t, 0, 0, istate)
    ensures !Armed(t, 0, 0, istate).active && !Armed(t, 0, 0, istate).expired
    ensures !Armed(t, 0, 0, istate).semiExpired
  {
    InactiveIsInert(Armed(t, 0, 0, istate), n);
  }

  /** The I form agrees with Set whenever the first semi-period is non-zero;
      with first = 0 it skips the zero checks, and the counter wraps: the timer
      spends WORD ticks in istate in the first semi-period instead of starting
      in the second. */
  lemma SetIWithoutZeroChecks(t: State, first: Count, second: Count, istate: bool)
    ensures first != 0 ==> ArmedI(first, second, istate) == Armed(t, first, second, istate)
    ensures first == 0 ==> forall k :: 0 <= k < WORD ==>
      Run(ArmedI(0, second, istate), k).state == istate && !Run(ArmedI(0, second, istate), k).sp
  {
    if first == 0 {
      forall k | 0 <= k < WORD
        ensures Run(ArmedI(0, second, istate), k).state == istate && !Run(ArmedI(0, second, istate), k).sp
      {
        Countdown(ArmedI(0, second, istate), k);
      }
    }
  }

  /** The zero checks of Set see the argument before its conversion to
      `ttype`: a first semi-period of WORD passes the check, loads 0 and lasts
      WORD ticks in istate; a first semi-period of 0 starts the second at once. */
  lemma UnnarrowedZeroCheck(t: State, second: Count, istate: bool)
    ensures Armed(t, WORD, second, istate).settingFirst == 0
    ensures forall k :: 0 <= k < WORD ==>
      Run(Armed(t, WORD, second, istate), k).active &&
      !Run(Armed(t, WORD, second, istate), k).sp &&
      Run(Armed(t, WORD, second, istate), k).state == istate
    ensures second != 0 ==>
      Armed(t, 0, second, istate).sp && Armed(t, 0, second, istate).state == !istate
  {
    var a := Armed(t, WORD, second, istate);
    forall k | 0 <= k < WORD
      ensures Run(a, k).active && !Run(a, k).sp && Run(a, k).state == istate
    {
      Countdown(a, k);
    }
  }

  /** One named asymmetric single-pulse timer. */
  class Timer {
    var counter: Count
    var settingFirst: Count
    var settingSecond: Count
    var active: bool
    var sp: bool
    var state: bool
    var semiExpired: bool
    var expired: bool

    function Model(): State
      reads this
    {
      State(counter, settingFirst, settingSecond, active, sp, state, semiExpired, expired)
    }

    constructor ()
      ensures Model() == Cleared()
    {
      counter, settingFirst, settingSecond := 0, 0, 0;
      active, sp, state, semiExpired, expired := false, false, false, false, false;
    }

    method Set(first: int, second: int, istate: bool)
      modifies this
      ensures Model() == Armed(old(Model()), first, second, istate)
    {
      settingFirst := Narrow(first);
      settingSecond := Narrow(second);
      if first != 0 {
        counter := settingFirst;
        state := istate;
        sp := false;
        semiExpired := false;
        active := true;
        expired := false;
      } else if second != 0 {
        counter := settingSecond;
        state := !istate;
        sp := true;
        semiExpired := true;
        active := true;
        expired := false;
      } else {
        sp := false;
        active := false;
        semiExpired := false;
        expired := false;
      }
    }

    method SetI(first: int, second: int, istate: bool)
      modifies this
      ensures Model() == ArmedI(first, second, istate)
    {
      settingFirst := Narrow(first);
      settingSecond := Narrow(second);
      counter := settingFirst;
      state := istate;
      active := true;
      sp := false;
      semiExpired := false;
      expired := false;
    }

    method Stop()
      modifies this
      ensures Model() == Stopped(old(Model()))
    {
      active := false;
      sp := false;
      state := LOW;
      semiExpired := false;
      expired := false;
    }

    method Reset()
      modifies this
      ensures Model() == Stopped(old(Model()))
    {
      active := false;
      sp := false;
      state := LOW;
      semiExpired := false;
      expired := false;
    }

    method Clear()
      modifies this
      ensures Model() == Cleared()
    {
      counter := 0;
      settingFirst := 0;
      settingSecond := 0;
      active := false;
      sp := false;
      state := false;
      semiExpired := false;
      expired := false;
    }

    method Tick()
      modifies this
      ensures Model() == Step(old(Model()))
    {
      if active {
        counter := PreDec(counter);
        if counter == 0 {
          if sp == false {
            semiExpired := true;
            if settingSecond != 0 {
              counter := settingSecond;
              state := !state;
              sp := true;
            } else {
              active := false;
              expired := true;
            }
          } else {
            active := false;
            expired := true;
          }
        }
      }
    }
  }
}
