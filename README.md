# Software timers of timedefs.h, modelled in Dafny

timedefs.h is a header-only C library of software timers for small
microcontrollers. Each named timer is a handful of global variables. Macros
start the timer (`Set…`), stop it, reset it, clear it, pause it and resume
it. A `Tick…` macro, called from a periodic interrupt, advances it. There are
nine families:

- single-pulse (`ST_*`);
- continuous (`CT_*`);
- constant-period continuous (`CCT_*`);
- free-running constant continuous (`CFCT_*`);
- forward/backward single-pulse (`FBS_*`) and its variable-step form (`FBVS_*`);
- asymmetric continuous (`ACT_*`);
- asymmetric single-pulse (`ASP_*`);
- burst generator (`BG_*`), with its output-pin (`WithOutput`) forms.

Every family has its own module. Each module has:

- a datatype `State` holding the values of one timer's variables;
- pure functions for what each macro does to that state (`Armed`, `Stopped`,
  `Step`, …) and `Run(t, n)`, the state after `n` ticks;
- lemmas about whole runs: expiry times, periods, waveforms and invariants;
- a class (`Timer`, or `Generator` for the burst generator) whose fields are
  the timer's variables and whose methods are the macros, written as
  in-place updates. Each method ensures that the new state is the matching
  function of the old one.

The shared module `Counters` holds the unsigned arithmetic of the counters.
`ttype` is fixed to uint8_t, the type the sample application instantiates
its timers with (`WORD` = 256). `BG_pulses` and `BG_pc` are uint8_t in every
instantiation. Counter decrement and increment wrap exactly as in C. So a
period of 0 is not special-cased: it behaves as a countdown of 256 ticks
(`Period`). The single-setting lemmas hold for that case too. The asymmetric
continuous timer has its own lemmas for a zero high setting
(`ZeroHighSetting`) and a zero low setting (`ZeroLowSetting`,
`ZeroLowTicks`). A macro argument is stored after C's conversion to `ttype`
(`Narrow`).

## Model

| member | source | states |
|---|---|---|
| Counters.PreDec | timedefs.h:78-85 | `--c` on an unsigned counter: its successor modulo WORD is c, so 0 wraps to the largest value; a non-zero counter strictly decreases |
| Counters.PreInc | timedefs.h:320-326 | `++c` on an unsigned counter: the inverse of PreDec |
| Counters.AddWrap | timedefs.h:428-435 | `c += stepF`: the plain sum when it fits in `ttype`, the sum minus WORD when it overflows |
| Counters.PreDecByte | timedefs.h:845-865 | `--BG_pc`: the uint8_t predecessor, wrapping 0 to 255 |
| Counters.Narrow | timedefs.h:662-698 | assigning a macro argument to a `ttype` variable keeps it modulo WORD, unchanged when it already fits |
| Counters.Period | timedefs.h:153-160 | a countdown loaded with per hits zero after per ticks, or after WORD ticks when per = 0; always between 1 and WORD |
| Counters.CounterAtSucc | timedefs.h:153-160 | the closed form of a reloading countdown advances by one tick exactly as the reload-or-decrement of the Tick macros, and a full period is complete exactly on the tick that sees counter 1 |
| Counters.CounterAtOne | timedefs.h:153-160 | a reloading countdown shows 1 exactly on the last tick of each period |
| SinglePulse.Step | timedefs.h:78-85 | an inactive timer is untouched; otherwise the counter is pre-decremented, and the timer expires and deactivates exactly on the tick that sees counter 1 |
| SinglePulse.InactiveIsInert | timedefs.h:78-79 | any number of ticks on an inactive timer change nothing |
| SinglePulse.Countdown | timedefs.h:78-85 | before Period(counter) ticks an active timer only counts down, wrapping past zero when started at 0 |
| SinglePulse.ExpiresAtZero | timedefs.h:78-85 | an active timer is expired, inactive and at 0 after exactly Period(counter) ticks |
| SinglePulse.ExpiresAfterPeriod | timedefs.h:34-46 | after Set(per) the timer is active and unexpired for Period(per) - 1 ticks, expired and inactive from tick Period(per) on, and later ticks change nothing |
| SinglePulse.StaysExpired | timedefs.h:78-85 | every run of at least Period(per) ticks after Set(per) ends in the same expired state |
| SinglePulse.StoppedIsInert | timedefs.h:48-58 | after Stop or Reset the counter keeps its value and no tick expires the timer |
| SinglePulse.SuspendPausesCountdown | timedefs.h:66-76 | Suspend, any ticks, Resume gives back exactly the state before Suspend |
| SinglePulse.Timer.constructor | timedefs.h:29-31 | a new timer is all zero: inactive, unexpired, counter 0 |
| SinglePulse.Timer.Set | timedefs.h:34-46 | Set and SetI load the counter with per, activate and clear the expired flag |
| SinglePulse.Timer.Stop | timedefs.h:48-53 | deactivates and clears the expired flag; the counter is kept |
| SinglePulse.Timer.Reset | timedefs.h:55-58 | same effect as Stop |
| SinglePulse.Timer.Clear | timedefs.h:60-64 | all three variables zero |
| SinglePulse.Timer.Suspend | timedefs.h:66-70 | deactivates only |
| SinglePulse.Timer.Resume | timedefs.h:72-76 | activates only |
| SinglePulse.Timer.Tick | timedefs.h:78-85 | the new state is Step of the old |
| SinglePulse.Timer.ClearExpired | timedefs.h:86-88 | clears the expired flag only |
| Continuous.Step | timedefs.h:153-160 | an inactive timer is untouched; the setting and active flag never change; the tick flag is raised exactly when the counter reaches zero, the counter then reloads from the setting and otherwise is decremented; a counter in 1..setting stays there |
| Continuous.Periodic | timedefs.h:106-120 | k ticks after Set(per), the counter is the closed-form CounterAt(per, k) and the flag has been raised iff k has reached Period(per) |
| Continuous.TickEveryPeriod | timedefs.h:153-160 | tick k + 1 after Set(per) raises the flag iff k + 1 is a multiple of Period(per) |
| Continuous.InactiveIsInert | timedefs.h:153-154 | ticks on an inactive timer change nothing |
| Continuous.StoppedIsInert | timedefs.h:122-132 | after Stop or Reset no tick raises the flag again |
| Continuous.StaysInRange | timedefs.h:153-160 | once the counter is in 1..setting it stays there for every later tick, with the setting unchanged |
| Continuous.Timer.constructor | timedefs.h:100-103 | a new timer is all zero |
| Continuous.Timer.Set | timedefs.h:106-120 | Set and SetI load counter and setting with per, activate and clear the flag |
| Continuous.Timer.Stop | timedefs.h:122-127 | deactivates and clears the flag |
| Continuous.Timer.Reset | timedefs.h:129-132 | same effect as Stop |
| Continuous.Timer.Clear | timedefs.h:134-139 | all variables zero |
| Continuous.Timer.Suspend | timedefs.h:141-145 | deactivates this timer only (see the note on the source) |
| Continuous.Timer.Resume | timedefs.h:147-151 | activates only |
| Continuous.Timer.Tick | timedefs.h:153-160 | the new state is Step of the old |
| Continuous.Timer.ClearTick | timedefs.h:161-163 | clears the flag only |
| ConstContinuous.Step | timedefs.h:222-229 | as Continuous.Step, with the reload taken from the per argument; a counter in 1..per stays there |
| ConstContinuous.Periodic | timedefs.h:178-190 | k ticks, each passed per, after Set(per): counter CounterAt(per, k), flag raised iff k has reached Period(per) |
| ConstContinuous.TickEveryPeriod | timedefs.h:222-229 | tick k + 1 raises the flag iff k + 1 is a multiple of Period(per) |
| ConstContinuous.StaysInRange | timedefs.h:222-229 | with the same per >= 1 on every tick the counter never leaves 1..per |
| ConstContinuous.InactiveIsInert | timedefs.h:222-223 | ticks on an inactive timer change nothing, whatever period is passed |
| ConstContinuous.Timer.constructor | timedefs.h:173-175 | a new timer is all zero |
| ConstContinuous.Timer.Set | timedefs.h:178-190 | Set and SetI load the counter with per, activate and clear the flag |
| ConstContinuous.Timer.Stop | timedefs.h:192-197 | deactivates and clears the flag |
| ConstContinuous.Timer.Reset | timedefs.h:199-202 | same effect as Stop |
| ConstContinuous.Timer.Clear | timedefs.h:204-208 | all variables zero |
| ConstContinuous.Timer.Suspend | timedefs.h:210-214 | deactivates only |
| ConstContinuous.Timer.Resume | timedefs.h:216-220 | activates only |
| ConstContinuous.Timer.Tick | timedefs.h:222-229 | the new state is Step of the old with the given per |
| ConstContinuous.Timer.ClearTick | timedefs.h:230-232 | clears the flag only |
| FreeRunning.Step | timedefs.h:266-271 | with no active flag every tick counts: the flag is raised exactly on reaching zero, the counter reloads from per and otherwise decrements; 1..per is preserved |
| FreeRunning.Periodic | timedefs.h:244-254 | k ticks after loading with per: counter CounterAt(per, k), flag raised iff k has reached Period(per) |
| FreeRunning.TickEveryPeriod | timedefs.h:266-271 | tick k + 1 raises the flag iff k + 1 is a multiple of Period(per) |
| FreeRunning.Timer.constructor | timedefs.h:240-241 | a new timer is all zero |
| FreeRunning.Timer.Set | timedefs.h:244-254 | Set and SetI load the counter with per and clear the flag |
| FreeRunning.Timer.Reset | timedefs.h:256-259 | loads the counter with per and clears the flag |
| FreeRunning.Timer.Clear | timedefs.h:261-264 | loads the counter with per and clears the flag |
| FreeRunning.Timer.Tick | timedefs.h:266-271 | the new state is Step of the old with the given per |
| FreeRunning.Timer.ClearTick | timedefs.h:272-274 | clears the flag only |
| ForwardBackward.SettingChanged | timedefs.h:363-373 | a forward timer whose counter already reaches the new setting expires and deactivates at once; in every other case only the setting changes |
| ForwardBackward.Step | timedefs.h:320-333 | inactive: untouched; backward: the counter never increases, drops by one saturating at 0, and active and expired never change; forward: the counter is incremented and the timer is active iff it is below the setting, expired iff it was or the counter reaches the setting |
| ForwardBackward.InactiveIsInert | timedefs.h:320-321 | ticks on an inactive timer change nothing |
| ForwardBackward.BackwardRun | timedefs.h:327-331 | n backward ticks take the counter to max(counter - n, 0) and change nothing else, so it never underflows and the timer never expires |
| ForwardBackward.ForwardCount | timedefs.h:320-326 | forward, the counter is k after k ticks while k is below the setting |
| ForwardBackward.ForwardExpiry | timedefs.h:302-326 | after Set(per, FORWARD) the timer is active and unexpired until tick max(per, 1), expires and deactivates on exactly that tick, and no later tick changes anything |
| ForwardBackward.StaysExpired | timedefs.h:320-326 | every run of at least max(per, 1) forward ticks after Set(per, FORWARD) ends in the same expired state |
| ForwardBackward.ReviveCountsDown | timedefs.h:356-362 | Revive after expiry forces backward and active without touching the counter, which then counts down to 0 and stays there without expiring |
| ForwardBackward.Timer.constructor | timedefs.h:295-299 | a new timer is all zero, direction backward |
| ForwardBackward.Timer.Set | timedefs.h:302-318 | Set and SetI zero the counter, store setting and direction, activate and clear the expired flag |
| ForwardBackward.Timer.Tick | timedefs.h:320-333 | the new state is Step of the old |
| ForwardBackward.Timer.Stop | timedefs.h:334-339 | deactivates and clears the expired flag |
| ForwardBackward.Timer.Reset | timedefs.h:341-344 | same effect as Stop |
| ForwardBackward.Timer.Clear | timedefs.h:346-352 | all variables zero |
| ForwardBackward.Timer.ClearExpired | timedefs.h:353-355 | clears the expired flag only |
| ForwardBackward.Timer.Revive | timedefs.h:356-362 | unexpired, active, backward; counter and setting kept |
| ForwardBackward.Timer.ChangeSetting | timedefs.h:363-373 | the new state is SettingChanged of the old |
| ForwardBackward.Timer.SetDirection | timedefs.h:374-376 | changes the direction only |
| VariableStep.SettingChanged | timedefs.h:479-489 | as ForwardBackward.SettingChanged for the variable-step timer |
| VariableStep.Step | timedefs.h:428-444 | inactive: untouched; backward: the counter never increases, becomes max(counter - stepB, 0), and active and expired never change; forward: the counter is advanced by stepF with `ttype` wrap-around, active iff below the setting, expired iff it was or the counter reaches the setting |
| VariableStep.InactiveIsInert | timedefs.h:428-429 | ticks on an inactive timer change nothing |
| VariableStep.BackwardRun | timedefs.h:436-442 | n backward ticks take the counter to max(counter - n * stepB, 0) and change nothing else |
| VariableStep.ForwardCount | timedefs.h:428-435 | forward, the counter is k * stepF after k ticks while that is below the setting |
| VariableStep.ForwardExpiry | timedefs.h:405-435 | with per + stepF inside `ttype`, as the source asks, the timer expires on the first tick k with k * stepF >= per, with counter k * stepF, and is active and unexpired before |
| VariableStep.WrapDelaysExpiry | timedefs.h:405-435 | outside that domain the forward counter wraps: per 255, stepF 254 leaves the timer running at 252 after two ticks |
| VariableStep.UnitStepsRunAsFixed | timedefs.h:320-333 | with both steps 1 every run matches the forward/backward single-pulse timer's run |
| VariableStep.Timer.constructor | timedefs.h:396-402 | a new timer is all zero, direction backward |
| VariableStep.Timer.Set | timedefs.h:406-426 | Set and SetI zero the counter, store setting, steps and direction, activate and clear the expired flag |
| VariableStep.Timer.Tick | timedefs.h:428-444 | the new state is Step of the old |
| VariableStep.Timer.Stop | timedefs.h:445-450 | deactivates and clears the expired flag |
| VariableStep.Timer.Reset | timedefs.h:452-455 | same effect as Stop |
| VariableStep.Timer.Clear | timedefs.h:457-465 | all variables zero |
| VariableStep.Timer.ClearExpired | timedefs.h:466-468 | clears the expired flag only |
| VariableStep.Timer.SetDirection | timedefs.h:469-471 | changes the direction only |
| VariableStep.Timer.Revive | timedefs.h:472-478 | unexpired, active, backward; counter kept |
| VariableStep.Timer.ChangeSetting | timedefs.h:479-489 | the new state is SettingChanged of the old |
| VariableStep.Timer.SetStepF | timedefs.h:490-494 | changes the forward step only |
| VariableStep.Timer.SetStepB | timedefs.h:495-499 | changes the backward step only |
| AsymmetricContinuous.Step | timedefs.h:599-620 | inactive: untouched; settings and active flag never change; on a counter hit of zero the flag is raised, the state switches iff the other phase's setting is non-zero, and the counter reloads from the setting of the phase it ends in; a counter within its phase's setting stays so |
| AsymmetricContinuous.InactiveIsInert | timedefs.h:599-600 | ticks on an inactive timer change nothing |
| AsymmetricContinuous.ZeroPhaseSkipped | timedefs.h:599-620 | when the other phase's setting is zero the timer never leaves its current phase |
| AsymmetricContinuous.RunAdd | timedefs.h:599-620 | a run of a + b ticks is a run of a ticks followed by one of b ticks |
| AsymmetricContinuous.Countdown | timedefs.h:599-609 | before Period(counter) ticks only the counter moves |
| AsymmetricContinuous.ZeroHighSetting | timedefs.h:533-620 | Set(0, low): the counter loaded with 0 wraps and the timer stays high for WORD ticks; with low non-zero, tick WORD enters the low phase with counter low and the flag raised, and the timer stays low for good |
| AsymmetricContinuous.ZeroLowSetting | timedefs.h:533-620 | k ticks after Set(high, 0) the timer is still high, the counter is the continuous countdown CounterAt(high, k), and the flag is raised once a full Period(high) has passed |
| AsymmetricContinuous.ZeroLowTicks | timedefs.h:599-620 | after Set(high, 0) the state stays high and tick k + 1 raises the flag iff k + 1 is a multiple of Period(high) |
| AsymmetricContinuous.DutyStateSucc | timedefs.h:599-620 | the closed-form duty-cycle state advances by one tick exactly as Step |
| AsymmetricContinuous.DutyCycle | timedefs.h:533-551 | k ticks after Set(high, low), both non-zero, the timer is high for the first high ticks of every period of high + low and low for the rest |
| AsymmetricContinuous.TickAtPhaseBoundaries | timedefs.h:599-620 | tick k + 1 raises the flag iff it ends a high phase or a low phase |
| AsymmetricContinuous.StatesRepeat | timedefs.h:533-551 | the state sequence after Set(high, low) has period high + low, high exactly at positions below high in each period |
| AsymmetricContinuous.TwoHighThreeLowStates | timedefs.h:533-551 | Set(2, 3): the states over ten ticks are high, high, low, low, low, high, high, low, low, low |
| AsymmetricContinuous.TwoHighThreeLowTicks | timedefs.h:599-620 | Set(2, 3): over ten ticks the flag is raised by ticks 2, 5, 7 and 10 only |
| AsymmetricContinuous.Timer.constructor | timedefs.h:525-530 | a new timer is all zero, state low |
| AsymmetricContinuous.Timer.Set | timedefs.h:533-551 | Set and SetI store both settings, load the counter with the high setting, start high, activate and clear the flag |
| AsymmetricContinuous.Timer.Stop | timedefs.h:553-558 | deactivates and clears the flag |
| AsymmetricContinuous.Timer.Reset | timedefs.h:560-563 | same effect as Stop |
| AsymmetricContinuous.Timer.Clear | timedefs.h:565-572 | all variables zero, state low |
| AsymmetricContinuous.Timer.Suspend | timedefs.h:574-578 | deactivates this timer only (see the note on the source) |
| AsymmetricContinuous.Timer.Resume | timedefs.h:580-584 | activates this timer only (see the note on the source) |
| AsymmetricContinuous.Timer.ChangeSetting | timedefs.h:585-590 | changes both settings only |
| AsymmetricContinuous.Timer.ChangeState | timedefs.h:591-597 | changes the state and both settings only |
| AsymmetricContinuous.Timer.Tick | timedefs.h:599-620 | the new state is Step of the old |
| AsymmetricContinuous.Timer.ClearTick | timedefs.h:621-623 | clears the flag only |
| AsymmetricSinglePulse.Step | timedefs.h:729-748 | inactive: untouched; settings never change; away from a counter hit only the counter moves; once in the second semi-period it stays there; the state changes only when a first semi-period ends with a non-zero second one; a timer that stops is expired with counter 0; ending the first semi-period marks it elapsed |
| AsymmetricSinglePulse.InactiveIsInert | timedefs.h:729-730 | ticks on an inactive timer change nothing |
| AsymmetricSinglePulse.Countdown | timedefs.h:729-748 | before Period(counter) ticks only the counter moves |
| AsymmetricSinglePulse.PulseStages | timedefs.h:662-687 | after Set(first, second, istate) the first semi-period lasts first ticks and the second one second ticks, after which the timer is expired and inactive |
| AsymmetricSinglePulse.PulseShape | timedefs.h:662-748 | for first + second ticks after Set the timer is active and unexpired, in istate for the first `first` ticks and inverted for the rest, so the state flips at most once |
| AsymmetricSinglePulse.ExpiresAfterPulse | timedefs.h:729-748 | from tick first + second on the timer is expired and inactive and nothing changes |
| AsymmetricSinglePulse.NoPulse | timedefs.h:682-686 | Set with both semi-periods zero leaves the timer inactive with all flags false, for good |
| AsymmetricSinglePulse.SetIWithoutZeroChecks | timedefs.h:689-698 | the I form equals Set when first is non-zero; with first 0 it skips the checks and the counter wraps, keeping the timer in istate for WORD ticks |
| AsymmetricSinglePulse.UnnarrowedZeroCheck | timedefs.h:662-687 | the zero checks see the argument before conversion: Set(WORD, second, istate) passes the first check, stores setting 0 and stays active in istate in the first semi-period for WORD ticks; Set(0, second, istate) with second non-zero starts the second semi-period at once, inverted |
| AsymmetricSinglePulse.Timer.constructor | timedefs.h:652-659 | a new timer is all zero |
| AsymmetricSinglePulse.Timer.Set | timedefs.h:662-687 | the three cases, tested on the arguments as passed and stored converted to `ttype`: first non-zero starts in istate; only second non-zero starts inverted with the first semi-period marked elapsed; both zero leaves it inactive with all flags false |
| AsymmetricSinglePulse.Timer.SetI | timedefs.h:689-698 | stores the settings converted to `ttype` and starts the first semi-period with no checks |
| AsymmetricSinglePulse.Timer.Stop | timedefs.h:700-708 | deactivates, state low, all flags false |
| AsymmetricSinglePulse.Timer.Reset | timedefs.h:710-716 | same effect as Stop |
| AsymmetricSinglePulse.Timer.Clear | timedefs.h:718-727 | all variables zero |
| AsymmetricSinglePulse.Timer.Tick | timedefs.h:729-748 | the new state is Step of the old |
| BurstGenerator.Step | timedefs.h:845-865 | inactive: untouched; settings never change; the level changes iff the counter hits zero, and the flag is raised then; low to high loads ht and refills an empty pulse counter from pulses; high to low counts the pulse down and loads lt, or it after the last pulse; the pulse-counter bound is preserved |
| BurstGenerator.InactiveIsInert | timedefs.h:846 | ticks on a stopped generator change nothing |
| BurstGenerator.PcStaysBounded | timedefs.h:795-865 | after Set, the pulse counter never exceeds pulses and is at least 1 while high (for pulses >= 1) |
| BurstGenerator.StopRaisesResetClears | timedefs.h:820-843 | Stop and Reset both leave the generator low and stopped for good, but Stop raises the flag and Reset clears it |
| BurstGenerator.Countdown | timedefs.h:845-847 | before Period(counter) ticks only the counter moves |
| BurstGenerator.Phase | timedefs.h:845-865 | a level lasts Period(counter) ticks before it changes |
| BurstGenerator.BurstTicksClosed | timedefs.h:750-762 | a train of r pulses lasts r * high + (r - 1) * low ticks |
| BurstGenerator.EndOfPulse | timedefs.h:856-862 | a pulse is Period(ht) ticks high, then the pulse counter is decremented and lt, or it after the last pulse, is loaded |
| BurstGenerator.BetweenPulses | timedefs.h:849-854 | a gap is Period(lt) ticks low, then the next pulse starts with the pulse counter unchanged |
| BurstGenerator.PulseTrain | timedefs.h:845-865 | from a pulse start, the level follows the reference waveform Level for the whole train, which ends low with the pulse counter 0 and the idle time loaded |
| BurstGenerator.PackageReturns | timedefs.h:845-865 | after the train the generator is low for Period(it) ticks and then back where the package began |
| BurstGenerator.BurstShape | timedefs.h:795-865 | the first tick after Set goes high with the pulse counter full; each package is PulsesLeft(pulses) pulses of Period(ht) high ticks separated by Period(lt) low ticks, then Period(it) low ticks, and returns to its start |
| BurstGenerator.PackagesRepeat | timedefs.h:845-865 | the generator any whole number of packages later is where it was |
| BurstGenerator.OutputAfter | timedefs.h:911-933 | the pin after a WithOutput tick: driven to the new level on a counter hit, untouched otherwise |
| BurstGenerator.OutputFollowsLevel | timedefs.h:869-933 | Set, Reset and Stop drive pin and level low together, and a WithOutput tick keeps the pin equal to the level |
| BurstGenerator.Pin.constructor | timedefs.h:869-933 | the output lvalue that the WithOutput macros drive; a new pin reads low |
| BurstGenerator.Generator.constructor | timedefs.h:784-792 | a new generator is all zero, low |
| BurstGenerator.Generator.Set | timedefs.h:795-818 | Set and SetI store the shape, load counter 1, low, empty pulse counter, flag clear, running |
| BurstGenerator.Generator.Reset | timedefs.h:820-824 | low, stopped, flag cleared |
| BurstGenerator.Generator.Clear | timedefs.h:826-836 | all variables zero, low, stopped |
| BurstGenerator.Generator.Stop | timedefs.h:837-843 | low, stopped, flag raised |
| BurstGenerator.Generator.Tick | timedefs.h:845-865 | the new state is Step of the old |
| BurstGenerator.Generator.SetWithOutput | timedefs.h:869-894 | as Set, and the pin is driven low |
| BurstGenerator.Generator.ResetWithOutput | timedefs.h:896-901 | as Reset, and the pin is driven low |
| BurstGenerator.Generator.StopWithOutput | timedefs.h:902-909 | as Stop, and the pin is driven low |
| BurstGenerator.Generator.TickWithOutput | timedefs.h:911-933 | the new state is Step of the old, and the pin is OutputAfter of the old state and pin |

## Left out

- Interrupt masking (`DisableInterrupts`/`EnableInterrupts`) and the
  interrupt-level concurrency it guards: each macro is one atomic method, so
  the enabled-interrupt and `I` forms share one method, except where their
  bodies differ (asymmetric single-pulse Set and SetI).
- cdefs.h: `B1` and `U1` are `bool`, `lowstate`/`highstate` are
  `false`/`true`.
- The sample application (register set-up, the timer interrupt vector, the
  demo loop): hardware glue.
- Token-pasting name generation and the `EXTERN_*`/`DEFINE_*` storage
  macros: one class instance stands for one named timer, and its
  constructor gives the zero values of static storage.
- Counters: `ttype` is fixed to uint8_t (WORD = 256), the only
  instantiation in the sample; other widths differ only in WORD.
- Argument conversion: the model applies `Narrow` explicitly only in the
  asymmetric single-pulse Set and SetI, the only macros that test an argument
  before storing it (timedefs.h:666, 673). Every other macro, including the
  ChangeSetting forms that compare the counter with the stored setting, only
  uses the stored value, so its arguments are given as `Count`, already
  converted.
- The periodic interrupt that calls the Tick macros: a run of n ticks is
  `Run(t, n)`.
- BurstGenerator.PcStaysBounded: stated for pulses >= 1 only, because with
  pulses = 0 the pulse counter wraps to 255 and no bound by pulses holds.
- BurstGenerator.OutputFollowsLevel: ClearBurstGenerator has no WithOutput form and
  leaves the pin untouched, so after Clear the pin and the level may differ.

## Notes on the source

Each name below is written where the other macros of its family use a
different one. At 143, 576 and 582 a macro writes a variable that the library
never declares, so a call of that macro fails to compile. At 396 the
definition macro itself compiles, but it defines `FBVET_Flag_##x` instead of
the `FBVS_Flag_##x` that EXTERN_FBVSINGLE_PULSE_TIMER declares (388) and every
other macro uses. A program using the timer then has an undefined
`FBVS_Flag_##x` at link time. The model gives each macro the evidently
intended effect on the timer's own flag:

| source | as written | modelled as |
|---|---|---|
| timedefs.h:143 | SuspendContinuousTimer writes `PT_Flag_##x` | `CT_Flag_##x := false` (Continuous.Timer.Suspend) |
| timedefs.h:576 | SuspendAsymmetricContinuousTimer writes `PeriodTimerFlag_##x` | `ACT_Flag_##x := false` (AsymmetricContinuous.Timer.Suspend) |
| timedefs.h:582 | ResumeAsymmetricContinuousTimer writes `PeriodTimerFlag_##x` | `ACT_Flag_##x := true` (AsymmetricContinuous.Timer.Resume) |
| timedefs.h:396 | DEFINE_FBVSINGLE_PULSE_TIMER defines `FBVET_Flag_##x` although every other macro uses `FBVS_Flag_##x` | one `active` field (VariableStep.Timer) |

Several macro names carry typos: ClearSinglrPulseTimer (60), SetConstContinuosTimerI,
StopConstContinuosTimer, ResetConstContinuosTimer and ClearConstContinuosTimer (186-204),
and SuspendContinuosTimer for the constant-period timer (210). Each is modelled as its family's method of the
intended name.
