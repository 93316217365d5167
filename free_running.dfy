/** The free-running constant timer (CFCT_*): no active flag; every Tick
    counts down and reloads from the period passed to it. */
module FreeRunning {
  import opened Counters

  /** CFCT_Counter_x and CFCT_Tick_x. */
  datatype State = State(counter: Count, tick: bool)

  /** Set, SetI, Reset and Clear all load the counter with per and clear the flag. */
  function Loaded(per: Count): State { State(per, false) }

  function TickCleared(t: State): State { t.(tick := false) }

  /** One tick with reload period per. */
  function Step(t: State, per: Count): (r: State)
    ensures r.tick <==> t.tick || t.counter == 1
    ensures t.counter == 1 ==> r.counter == per
    ensures t.counter != 1 ==> r.counter == PreDec(t.counter)
    ensures 1 <= t.counter <= per ==> 1 <= r.counter <= per
  {
    var c := PreDec(t.counter);
    if c == 0 then State(per, true) else t.(counter := c)
  }

  function Run(t: State, per: Count, n: nat): State
  {
    if n == 0 then t else Step(Run(t, per, n - 1), per)
  }

  predicate Raised(t: State, per: Count)
  {
    Step(TickCleared(t), per).tick
  }

  lemma NextFromLoaded(per: Count, k: nat, c: Count, raised: bool)
    requires k > 0 && Run(Loaded(per), per, k - 1) == State(c, raised)
    ensures Run(Loaded(per), per, k) ==
      State(if c == 1 then per else PreDec(c), raised || c == 1)
  {
  }

  /** k ticks (each passed per) after loading with per, the counter is
      CounterAt(per, k) and the flag has been raised once k reaches the period. */
  lemma {:induction false} Periodic(per: Count, k: nat)
    ensures Run(Loaded(per), per, k) == State(CounterAt(per, k), k >= Period(per))
  {
    if k > 0 {
      Periodic(per, k - 1);
      NextFromLoaded(per, k, CounterAt(per, k - 1), k - 1 >= Period(per));
      CounterAtSucc(per, k - 1);
    }
  }

  /** Tick number k + 1 raises the flag exactly when k + 1 is a multiple of the period. */
  lemma TickEveryPeriod(per: Count, k: nat)
    ensures Raised(Run(Loaded(per), per, k), per) <==> (k + 1) % Period(per) == 0
  {
    Periodic(per, k);
    CounterAtOne(per, k);
  }

  /** One named free-running timer. */
  class Timer {
    var counter: Count
    var tick: bool

    function Model(): State
      reads this
    {
      State(counter, tick)
    }

    constructor ()
      ensures Model() == Loaded(0)
    {
      counter, tick := 0, false;
    }

    /** SetConstFreeContinuousTimer and SetConstFreeContinuousTimerI. */
    method Set(per: Count)
      modifies this
      ensures Model() == Loaded(per)
    {
      counter := per;
      tick := false;
    }

    method Reset(per: Count)
      modifies this
      ensures Model() == Loaded(per)
    {
      counter := per;
      tick := false;
    }

    method Clear(per: Count)
      modifies this
      ensures Model() == Loaded(per)
    {
      counter := per;
      tick := false;
    }

    method Tick(per: Count)
      modifies this
      ensures Model() == Step(old(Model()), per)
    {
      counter := PreDec(counter);
      if counter == 0 {
        counter := per;
        tick := true;
      }
    }

    method ClearTick()
      modifies this
      ensures Model() == TickCleared(old(Model()))
    {
      tick := false;
    }
  }
}
