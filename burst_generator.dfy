/** The burst generator (BG_*): packages of `pulses` pulses, each high for ht
    ticks and low for lt ticks, the last one followed by it low ticks of idle
    time instead. `tick` is raised at every change of level. The WithOutput
    forms also drive an output pin that follows the level. */
module BurstGenerator {
  import opened Counters

  /** BG_STATE_HIGH and BG_STATE_LOW; `lowstate` and `highstate` are the same
      two levels on the output pin. */
  const HIGH: bool := true
  const LOW: bool := false

  /** BG_Counter_x, BG_pulses_x, BG_ht_x, BG_lt_x, BG_it_x, BG_pc_x (pulses
      still to come in this package), BG_state_x, BG_Flag_x (the generator is
      running) and BG_Tick_x. */
  datatype State = State(counter: Count, pulses: Byte, ht: Count, lt: Count, it: Count,
                         pc: Byte, state: bool, active: bool, tick: bool)

  /** SetBurstGenerator and SetBurstGeneratorI: the first tick starts a package. */
  function Armed(pulses: Byte, ht: Count, lt: Count, it: Count): State
  {
    State(1, pulses, ht, lt, it, 0, LOW, true, false)
  }

  /** ResetBurstGenerator: low, stopped, flag cleared. */
  function WasReset(t: State): State { t.(state := LOW, active := false, tick := false) }

  /** StopBurstGenerator: low, stopped, and the flag RAISED. */
  function Stopped(t: State): State { t.(state := LOW, active := false, tick := true) }

  function Cleared(): State { State(0, 0, 0, 0, 0, 0, LOW, false, false) }

  function TickCleared(t: State): State { t.(tick := false) }

  /** With a non-zero pulse count, the pulse counter never exceeds it and is
      at least 1 while the level is high. */
  predicate PcBounded(t: State)
  {
    t.pulses >= 1 ==> t.pc <= t.pulses && (t.state == HIGH ==> t.pc >= 1)
  }

  /** One tick. A counter hit of zero always changes the level and raises the
      flag; low to high starts the next pulse (refilling the pulse counter at
      the start of a package), high to low counts the pulse and waits lt ticks,
      or it ticks after the last pulse. */
  function Step(t: State): (r: State)
    ensures !t.active ==> r == t
    ensures r.active == t.active && r.pulses == t.pulses
    ensures r.ht == t.ht && r.lt == t.lt && r.it == t.it
    ensures t.active ==> (r.state != t.state <==> t.counter == 1)
    ensures t.active ==> (r.tick <==> t.tick || t.counter == 1)
    ensures t.active && t.counter != 1 ==> r == t.(counter := PreDec(t.counter))
    ensures t.active && t.counter == 1 && t.state == LOW ==>
      r.counter == t.ht && r.pc == (if t.pc == 0 then t.pulses else t.pc)
    ensures t.active && t.counter == 1 && t.state == HIGH ==>
      r.pc == PreDecByte(t.pc) && r.counter == (if r.pc != 0 then t.lt else t.it)
    ensures PcBounded(t) ==> PcBounded(r)
  {
    if !t.active then t
    else
      var c := PreDec(t.counter);
      if c != 0 then t.(counter := c)
      else if t.state == LOW then
        t.(pc := if t.pc == 0 then t.pulses else t.pc, state := HIGH, counter := t.ht, tick := true)
      else
        var p := PreDecByte(t.pc);
        t.(state := LOW, pc := p, counter := if p != 0 then t.lt else t.it, tick := true)
  }

  function Run(t: State, n: nat): State
  {
    if n == 0 then t else Step(Run(t, n - 1))
  }

  lemma {:induction false} RunAdd(t: State, a: nat, b: nat)
    ensures Run(t, a + b) == Run(Run(t, a), b)
  {
    if b > 0 {
      RunAdd(t, a, b - 1);
    }
  }

  lemma {:induction false} InactiveIsInert(t: State, n: nat)
    requires !t.active
    ensures Run(t, n) == t
  {
    if n > 0 {
      InactiveIsInert(t, n - 1);
    }
  }

  /** Set establishes the pulse-counter bound, and every later tick keeps it. */
  lemma {:induction false} PcStaysBounded(pulses: Byte, ht: Count, lt: Count, it: Count, n: nat)
    ensures PcBounded(Run(Armed(pulses, ht, lt, it), n))
  {
    if n > 0 {
      PcStaysBounded(pulses, ht, lt, it, n - 1);
    }
  }

  /** Stop and Reset both leave the generator low and stopped for good; only
      Stop raises the flag. */
  lemma StopRaisesResetClears(t: State, n: nat)
    ensures Run(Stopped(t), n) == Stopped(t) && Stopped(t).tick && Stopped(t).state == LOW
    ensures Run(WasReset(t), n) == WasReset(t) && !WasReset(t).tick && WasReset(t).state == LOW
  {
    InactiveIsInert(Stopped(t), n);
    InactiveIsInert(WasReset(t), n);
  }

  /** Before the counter hits zero only the counter moves. */
  lemma {:induction false} Countdown(t: State, k: nat)
    requires t.active && k < Period(t.counter)
    ensures Run(t, k) == t.(counter := Remaining(t.counter, k))
  {
    if k > 0 {
      Countdown(t, k - 1);
    }
  }

  /** A counter loaded with c stays at its level for Period(c) ticks and then
      changes level. */
  lemma Phase(t: State)
    requires t.active
    ensures forall j :: 0 <= j < Period(t.counter) ==> Run(t, j).state == t.state
    ensures Run(t, Period(t.counter)) == Step(t.(counter := 1))
  {
    forall j | 0 <= j < Period(t.counter)
      ensures Run(t, j).state == t.state
    {
      Countdown(t, j);
    }
    Countdown(t, Period(t.counter) - 1);
  }

  /** Ticks from the start of a pulse with r pulses still to come (this one
      included) to the end of that pulse train. */
  function BurstTicks(r: nat, hp: nat, lp: nat): nat
  {
    if r <= 1 then hp else hp + lp + BurstTicks(r - 1, hp, lp)
  }

  lemma {:induction false} BurstTicksClosed(r: nat, hp: nat, lp: nat)
    requires r >= 1
    ensures BurstTicks(r, hp, lp) == r * hp + (r - 1) * lp
  {
    if r > 1 {
      BurstTicksClosed(r - 1, hp, lp);
      assert r * hp == (r - 1) * hp + hp;
      assert (r - 1) * lp == (r - 2) * lp + lp;
    }
  }

  /** The reference waveform: the level k ticks into a train of r pulses, each
      hp ticks high, separated by lp ticks low; low from the end of the train on. */
  function Level(r: nat, hp: nat, lp: nat, k: nat): bool
  {
    if k < hp then r >= 1
    else if r <= 1 then false
    else if k < hp + lp then false
    else Level(r - 1, hp, lp, k - (hp + lp))
  }

  /** Pulses still to come, this one included, when a pulse starts with the
      pulse counter at n: n, or 256 when n = 0 because the decrement wraps. */
  function PulsesLeft(n: Byte): nat
  {
    if n == 0 then BYTE else n
  }

  /** The generator at the start of a pulse: high, counter ht, pulse counter n. */
  predicate PulseStart(t: State, n: Byte)
  {
    t.active && t.tick && t.state == HIGH && t.counter == t.ht && t.pc == n
  }

  /** A pulse is Period(ht) ticks high; then the pulse counter is counted
      down and lt, or it after the last pulse, is loaded. */
  lemma EndOfPulse(t: State, n: Byte)
    requires PulseStart(t, n)
    ensures forall j :: 0 <= j < Period(t.ht) ==> Run(t, j).state == HIGH
    ensures Run(t, Period(t.ht)) ==
      t.(state := LOW, pc := PreDecByte(n), counter := if PreDecByte(n) != 0 then t.lt else t.it)
  {
    Phase(t);
  }

  /** Between two pulses of a package: Period(lt) ticks low, then the next
      pulse starts with the pulse counter unchanged. */
  lemma BetweenPulses(t: State, m: Byte)
    requires t.active && t.tick && t.state == LOW && t.counter == t.lt && t.pc == m && m != 0
    ensures forall j :: 0 <= j < Period(t.lt) ==> Run(t, j).state == LOW
    ensures Run(t, Period(t.lt)) == t.(state := HIGH, counter := t.ht)
  {
    Phase(t);
  }

  /** From the start of a pulse with pulse counter n, the level follows Level
      for the whole train, which ends low with the pulse counter at zero and
      the idle time loaded. */
  lemma {:induction false} PulseTrain(t: State, n: Byte)
    requires PulseStart(t, n)
    ensures forall k :: 0 <= k < BurstTicks(PulsesLeft(n), Period(t.ht), Period(t.lt)) ==>
      Run(t, k).state == Level(PulsesLeft(n), Period(t.ht), Period(t.lt), k)
    ensures Run(t, BurstTicks(PulsesLeft(n), Period(t.ht), Period(t.lt))) ==
      t.(state := LOW, pc := 0, counter := t.it)
    decreases PulsesLeft(n)
  {
    var hp, lp, r := Period(t.ht), Period(t.lt), PulsesLeft(n);
    EndOfPulse(t, n);
    var m := PreDecByte(n);
    if m == 0 {
      assert r == 1;
    } else {
      var low := Run(t, hp);
      BetweenPulses(low, m);
      var next := Run(low, lp);
      assert PulsesLeft(m) == r - 1;
      PulseTrain(next, m);
      TrainEnd(t, low, next, r);
      forall k | 0 <= k < BurstTicks(r, hp, lp)
        ensures Run(t, k).state == Level(r, hp, lp, k)
      {
        TrainLevel(t, low, next, r, k);
      }
    }
  }

  /** The end of a train of r >= 2 pulses is the end of the train of r - 1
      that follows its first pulse and gap. */
  lemma TrainEnd(t: State, low: State, next: State, r: nat)
    requires r >= 2
    requires low == Run(t, Period(t.ht)) && next == Run(low, Period(t.lt))
    ensures Run(t, BurstTicks(r, Period(t.ht), Period(t.lt))) ==
      Run(next, BurstTicks(r - 1, Period(t.ht), Period(t.lt)))
  {
    var hp, lp := Period(t.ht), Period(t.lt);
    RunAdd(t, hp, lp);
    RunAdd(t, hp + lp, BurstTicks(r - 1, hp, lp));
  }

  /** One instant of a train of r >= 2 pulses, from its three pieces: the
      first pulse, the gap after it, and the train of r - 1 that follows. */
  lemma TrainLevel(t: State, low: State, next: State, r: nat, k: nat)
    requires r >= 2
    requires low == Run(t, Period(t.ht)) && next == Run(low, Period(t.lt))
    requires forall j :: 0 <= j < Period(t.ht) ==> Run(t, j).state == HIGH
    requires forall j :: 0 <= j < Period(t.lt) ==> Run(low, j).state == LOW
    requires forall j :: 0 <= j < BurstTicks(r - 1, Period(t.ht), Period(t.lt)) ==>
      Run(next, j).state == Level(r - 1, Period(t.ht), Period(t.lt), j)
    requires k < BurstTicks(r, Period(t.ht), Period(t.lt))
    ensures Run(t, k).state == Level(r, Period(t.ht), Period(t.lt), k)
  {
    var hp, lp := Period(t.ht), Period(t.lt);
    if hp <= k < hp + lp {
      RunAdd(t, hp, k - hp);
    } else if k >= hp + lp {
      RunAdd(t, hp, lp);
      RunAdd(t, hp + lp, k - (hp + lp));
    }
  }

  /** The generator one tick after Set: high, pulse counter full, flag raised. */
  function PackageStart(pulses: Byte, ht: Count, lt: Count, it: Count): State
  {
    State(ht, pulses, ht, lt, it, pulses, HIGH, true, true)
  }

  /** Ticks of one package, idle time included. */
  function PackageTicks(pulses: Byte, ht: Count, lt: Count, it: Count): nat
  {
    BurstTicks(PulsesLeft(pulses), Period(ht), Period(lt)) + Period(it)
  }

  /** After the pulse train, the idle time and then the next package. */
  lemma PackageReturns(pulses: Byte, ht: Count, lt: Count, it: Count)
    ensures forall k :: BurstTicks(PulsesLeft(pulses), Period(ht), Period(lt)) <= k < PackageTicks(pulses, ht, lt, it) ==>
      Run(PackageStart(pulses, ht, lt, it), k).state == LOW
    ensures Run(PackageStart(pulses, ht, lt, it), PackageTicks(pulses, ht, lt, it)) == PackageStart(pulses, ht, lt, it)
  {
    var s := PackageStart(pulses, ht, lt, it);
    var b := BurstTicks(PulsesLeft(pulses), Period(ht), Period(lt));
    PulseTrain(s, pulses);
    var idle := Run(s, b);
    Phase(idle);
    RunAdd(s, b, Period(it));
    forall k | b <= k < PackageTicks(pulses, ht, lt, it)
      ensures Run(s, k).state == LOW
    {
      RunAdd(s, b, k - b);
    }
  }

  /** The burst shape. The first tick after Set(pulses, ht, lt, it) goes high
      and raises the flag. From there, each package is PulsesLeft(pulses)
      pulses of Period(ht) high ticks separated by Period(lt) low ticks,
      followed by Period(it) low ticks, after which the generator is exactly
      where the package began. */
  lemma BurstShape(pulses: Byte, ht: Count, lt: Count, it: Count)
    ensures Run(Armed(pulses, ht, lt, it), 1) == PackageStart(pulses, ht, lt, it)
    ensures forall k :: 0 <= k < BurstTicks(PulsesLeft(pulses), Period(ht), Period(lt)) ==>
      Run(PackageStart(pulses, ht, lt, it), k).state == Level(PulsesLeft(pulses), Period(ht), Period(lt), k)
    ensures forall k :: BurstTicks(PulsesLeft(pulses), Period(ht), Period(lt)) <= k < PackageTicks(pulses, ht, lt, it) ==>
      Run(PackageStart(pulses, ht, lt, it), k).state == LOW
    ensures Run(PackageStart(pulses, ht, lt, it), PackageTicks(pulses, ht, lt, it)) == PackageStart(pulses, ht, lt, it)
  {
    PulseTrain(PackageStart(pulses, ht, lt, it), pulses);
    PackageReturns(pulses, ht, lt, it);
  }

  /** A state that p ticks bring back to itself comes back every p ticks. */
  lemma {:induction false} RunRepeats(s: State, p: nat, i: nat, k: nat)
    requires Run(s, p) == s
    ensures Run(s, i * p + k) == Run(s, k)
  {
    if i > 0 {
      var rest := (i - 1) * p + k;
      assert i * p + k == p + rest by {
        assert i * p == (i - 1) * p + p;
      }
      RunAdd(s, p, rest);
      RunRepeats(s, p, i - 1, k);
    }
  }

  /** Packages repeat: the generator i packages later is where it was. */
  lemma PackagesRepeat(pulses: Byte, ht: Count, lt: Count, it: Count, i: nat, k: nat)
    ensures Run(PackageStart(pulses, ht, lt, it), i * PackageTicks(pulses, ht, lt, it) + k) ==
      Run(PackageStart(pulses, ht, lt, it), k)
  {
    PackageReturns(pulses, ht, lt, it);
    RunRepeats(PackageStart(pulses, ht, lt, it), PackageTicks(pulses, ht, lt, it), i, k);
  }

  /** The output pin after a tick of the WithOutput form: driven to the new
      level on a counter hit of zero, untouched otherwise. */
  function OutputAfter(t: State, out: bool): (o: bool)
    ensures t.active && t.counter == 1 ==> o == Step(t).state
    ensures !(t.active && t.counter == 1) ==> o == out
  {
    if t.active && PreDec(t.counter) == 0 then t.state != HIGH else out
  }

  /** The pin of the WithOutput forms always shows the generator's level:
      Set, Reset and Stop drive it low with the level, and every tick keeps
      the two equal. */
  lemma OutputFollowsLevel(t: State, out: bool)
    requires out == t.state
    ensures OutputAfter(t, out) == Step(t).state
    ensures Armed(t.pulses, t.ht, t.lt, t.it).state == LOW
    ensures WasReset(t).state == LOW && Stopped(t).state == LOW
  {
  }

  /** An output pin written by the WithOutput forms. */
  class Pin {
    var level: bool

    constructor ()
      ensures !level
    {
      level := LOW;
    }
  }

  /** One named burst generator. */
  class Generator {
    var counter: Count
    var pulses: Byte
    var ht: Count
    var lt: Count
    var it: Count
    var pc: Byte
    var state: bool
    var active: bool
    var tick: bool

    function Model(): State
      reads this
    {
      State(counter, pulses, ht, lt, it, pc, state, active, tick)
    }

    constructor ()
      ensures Model() == Cleared()
    {
      counter, pulses, ht, lt, it, pc := 0, 0, 0, 0, 0, 0;
      state, active, tick := LOW, false, false;
    }

    /** SetBurstGenerator and SetBurstGeneratorI. */
    method Set(p: Byte, h: Count, l: Count, i: Count)
      modifies this
      ensures Model() == Armed(p, h, l, i)
    {
      pulses := p;
      ht := h;
      lt := l;
      it := i;
      counter := 1;
      state := LOW;
      pc := 0;
      tick := false;
      active := true;
    }

    method Reset()
      modifies this
      ensures Model() == WasReset(old(Model()))
    {
      state := LOW;
      active := false;
      tick := false;
    }

    method Clear()
      modifies this
      ensures Model() == Cleared()
    {
      counter := 0;
      pulses := 0;
      ht := 0;
      lt := 0;
      it := 0;
      pc := 0;
      state := LOW;
      active := false;
      tick := false;
    }

    method Stop()
      modifies this
      ensures Model() == Stopped(old(Model()))
    {
      state := LOW;
      active := false;
      tick := true;
    }

    method Tick()
      modifies this
      ensures Model() == Step(old(Model()))
    {
      if active {
        counter := PreDec(counter);
        if counter == 0 {
          if state == LOW {
            if pc == 0 {
              pc := pulses;
            }
            state := HIGH;
            counter := ht;
          } else {
            state := LOW;
            pc := PreDecByte(pc);
            if pc != 0 {
              counter := lt;
            } else {
              counter := it;
            }
          }
          tick := true;
        }
      }
    }

    /** SetBurstGeneratorWithOutput and SetBurstGeneratorIWithOutput. */
    method SetWithOutput(p: Byte, h: Count, l: Count, i: Count, out: Pin)
      modifies this, out
      ensures Model() == Armed(p, h, l, i) && out.level == LOW
    {
      pulses := p;
      ht := h;
      lt := l;
      it := i;
      counter := 1;
      out.level := LOW;
      state := LOW;
      pc := 0;
      tick := false;
      active := true;
    }

    method ResetWithOutput(out: Pin)
      modifies this, out
      ensures Model() == WasReset(old(Model())) && out.level == LOW
    {
      out.level := LOW;
      state := LOW;
      active := false;
      tick := false;
    }

    method StopWithOutput(out: Pin)
      modifies this, out
      ensures Model() == Stopped(old(Model())) && out.level == LOW
    {
      out.level := LOW;
      state := LOW;
      active := false;
      tick := true;
    }

    method TickWithOutput(out: Pin)
      modifies this, out
      ensures Model() == Step(old(Model()))
      ensures out.level == OutputAfter(old(Model()), old(out.level))
    {
      if active {
        counter := PreDec(counter);
        if counter == 0 {
          if state == LOW {
            out.level := HIGH;
            if pc == 0 {
              pc := pulses;
            }
            state := HIGH;
            counter := ht;
          } else {
            out.level := LOW;
            state := LOW;
            pc := PreDecByte(pc);
            if pc != 0 {
              counter := lt;
            } else {
              counter := it;
            }
          }
          tick := true;
        }
      }
    }
  }
}
