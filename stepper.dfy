/**
 * The stepper-motor motion controller (MegaBoardLib/stepper.c): Stepper_Init,
 * the three move commands, Stepper_WaitForStop and the timer-1 compare-A
 * interrupt handler that emits step pulses along a trapezoidal speed ramp.
 *
 * Each interrupt is one call of `Controller.Tick`; its effect is the pure
 * function `TickState`, and the multi-tick behaviour (a move of s steps takes
 * exactly 2s ticks, one wheel can be held still) is proved about `Run`.
 */
module Stepper {
  import opened Registers

  /** PORTA bits 6 and 3: the step-pulse lines of the two motors. */
  const PulseBits: Byte := 0x48
  /** PORTA bits 5 and 2: the direction lines of the two motors. */
  const DirBits: Byte := 0x24
  /** stepperFilter values: both motors step, only bit 6 pulses, only bit 3 pulses. */
  const BothMotors: Byte := 0xFF
  const LeftWheelFilter: Byte := 0x40
  const RightWheelFilter: Byte := 0x08
  /** OCIE1A is bit 4 of TIMSK on the ATmega128. */
  const OCIE1A: nat := 4

  /** The two values of Stepper_Init's steppingMode argument. */
  datatype SteppingMode = HalfStepping | FullStepping

  /**
   * The build-time ramp constants: `table` is RAMPARRAY (RAMPSTAGES entries
   * of type `int`), `duration` is RAMPDURATION and `interval` RAMPINTERVAL.
   */
  datatype RampConfig = RampConfig(table: seq<I16>, duration: nat, interval: nat)
  {
    /**
     * What the handler relies on: an interval of at least one step, a table
     * that the `unsigned char` rampStage can index, and a ramp window that the
     * table covers (RAMPDURATION <= RAMPSTAGES * RAMPINTERVAL).
     */
    predicate Valid() {
      1 <= |table| <= 0x100 && 1 <= interval && duration <= |table| * interval
    }

    /** `ICR1 = rampArray[k]`: the table entry as the 16-bit timer register receives it. */
    function Period(k: nat): U16
      requires k < |table|
    {
      ToU16(table[k])
    }
  }

  /** Any step count inside the ramp window selects a stage inside the table. */
  lemma StageInTable(cfg: RampConfig, x: nat)
    requires cfg.Valid() && x < cfg.duration
    ensures x / cfg.interval < |cfg.table|
  {
    var q := x / cfg.interval;
    assert q * cfg.interval <= x;
    assert q * cfg.interval < |cfg.table| * cfg.interval;
    assert (|cfg.table| - q) * cfg.interval > 0;
  }

  /**
   * The stage chosen by the handler's ramp update, as its two branches are
   * written (stepsTaken inside the window and short of the midpoint, or
   * stepsToTake inside the window at or past it); None when neither branch runs
   * and ICR1 keeps its value.
   */
  function RampSelect(cfg: RampConfig, taken: U16, toTake: U16): (r: Option<nat>)
    requires cfg.Valid()
    ensures r.Some? ==> r.value < |cfg.table|
  {
    if taken < cfg.duration && taken < toTake then
      StageInTable(cfg, taken);
      Some(taken / cfg.interval)
    else if toTake < cfg.duration && toTake <= taken then
      StageInTable(cfg, toTake);
      Some(toTake / cfg.interval)
    else
      None
  }

  /**
   * The two branches are the single symmetric rule: ramp while the nearer end
   * of the move is inside the window, at stage min(taken, toTake) / RAMPINTERVAL,
   * including the midpoint taken == toTake.
   */
  lemma RampSelectIsMinRule(cfg: RampConfig, taken: U16, toTake: U16)
    requires cfg.Valid()
    ensures RampSelect(cfg, taken, toTake)
         == if Min(taken, toTake) < cfg.duration then Some(Min(taken, toTake) / cfg.interval) else None
  {
  }

  /** Ramp symmetry: j steps into a move of s steps gets the same stage as j steps before its end. */
  lemma RampSymmetric(cfg: RampConfig, s: U16, j: U16)
    requires cfg.Valid() && j <= s
    ensures RampSelect(cfg, j, s - j) == RampSelect(cfg, s - j, j)
  {
    RampSelectIsMinRule(cfg, j, s - j);
    RampSelectIsMinRule(cfg, s - j, j);
  }

  /** Cruise: with both ends outside the window the period is left alone. */
  lemma CruiseKeepsPeriod(cfg: RampConfig, taken: U16, toTake: U16)
    requires cfg.Valid() && cfg.duration <= taken && cfg.duration <= toTake
    ensures RampSelect(cfg, taken, toTake) == None
  {
  }

  /** The part of the controller's state that the move commands and the handler touch. */
  datatype MotionState = MotionState(
    portA: Byte,
    icr1: U16,
    ocr1a: U16,
    running: bool,
    stepsToTake: U16,
    stepsTaken: U16,
    rampStage: U8,
    filter: Byte)

  /**
   * The first half of the handler: StopSteppers() when no steps are left
   * (without returning), then the trailing edge (clear both pulse lines,
   * counts untouched) or the leading edge (raise the lines the filter lets
   * through, count one step).
   */
  function EdgeStep(s: MotionState): (t: MotionState)
    ensures t.icr1 == s.icr1 && t.ocr1a == s.ocr1a && t.rampStage == s.rampStage && t.filter == s.filter
  {
    var running := if s.stepsToTake == 0 then false else s.running;
    if s.portA & PulseBits != 0 then
      s.(portA := s.portA & !PulseBits, running := running)
    else
      s.(portA := s.portA | (PulseBits & s.filter), running := running,
         stepsToTake := Dec16(s.stepsToTake), stepsTaken := Inc16(s.stepsTaken))
  }

  /**
   * The second half: the ramp update, which reprograms only the stage and the
   * timer period registers.
   */
  function RampStep(cfg: RampConfig, s: MotionState): (t: MotionState)
    requires cfg.Valid()
    ensures t.portA == s.portA && t.running == s.running && t.filter == s.filter
    ensures t.stepsToTake == s.stepsToTake && t.stepsTaken == s.stepsTaken
  {
    match RampSelect(cfg, s.stepsTaken, s.stepsToTake)
    case None => s
    case Some(k) => s.(rampStage := k, icr1 := cfg.Period(k), ocr1a := cfg.Period(k) / 2)
  }

  /**
   * One SIG_OUTPUT_COMPARE1A interrupt. It never restarts the timer, never
   * changes the filter or a PORTA bit other than the two pulse lines, and
   * keeps rampStage inside the table.
   */
  function TickState(cfg: RampConfig, s: MotionState): (t: MotionState)
    requires cfg.Valid()
    ensures t.running ==> s.running
    ensures t.filter == s.filter && t.portA & !PulseBits == s.portA & !PulseBits
    ensures s.rampStage < |cfg.table| ==> t.rampStage < |cfg.table|
  {
    RampStep(cfg, EdgeStep(s))
  }

  /** n consecutive interrupts. */
  function Run(cfg: RampConfig, s: MotionState, n: nat): MotionState
    requires cfg.Valid()
    decreases n
  {
    if n == 0 then s else Run(cfg, TickState(cfg, s), n - 1)
  }

  lemma {:induction false} RunAdd(cfg: RampConfig, s: MotionState, a: nat, b: nat)
    requires cfg.Valid()
    ensures Run(cfg, s, a + b) == Run(cfg, Run(cfg, s, a), b)
    decreases a
  {
    if a > 0 {
      RunAdd(cfg, TickState(cfg, s), a - 1, b);
    }
  }

  /**
   * Edge alternation. A tick that finds a pulse line high clears both pulse
   * lines and leaves the counts alone; otherwise it raises the lines the
   * filter selects and moves one step from stepsToTake to stepsTaken, so their
   * sum (mod 2^16) is kept. No other PORTA bit and not the filter changes.
   */
  lemma TickAlternates(cfg: RampConfig, s: MotionState)
    requires cfg.Valid()
    ensures var t := TickState(cfg, s);
      t.portA & !PulseBits == s.portA & !PulseBits && t.filter == s.filter &&
      (s.portA & PulseBits != 0 ==>
        t.portA & PulseBits == 0 && t.stepsToTake == s.stepsToTake && t.stepsTaken == s.stepsTaken) &&
      (s.portA & PulseBits == 0 ==>
        t.portA & PulseBits == s.filter & PulseBits &&
        (t.stepsToTake + 1) % 0x1_0000 == s.stepsToTake &&
        t.stepsTaken == (s.stepsTaken + 1) % 0x1_0000 &&
        (t.stepsToTake + t.stepsTaken) % 0x1_0000 == (s.stepsToTake + s.stepsTaken) % 0x1_0000)
  {
  }

  /** The handler only ever stops the timer, and it does so exactly when it finds no steps left. */
  lemma TickStopsWhenDone(cfg: RampConfig, s: MotionState)
    requires cfg.Valid()
    ensures TickState(cfg, s).running <==> s.running && s.stepsToTake != 0
  {
  }

  /**
   * The ramp update after the counts have moved: inside the window the stage
   * is min(stepsTaken, stepsToTake) / RAMPINTERVAL, ICR1 the table entry and
   * OCR1A half of it; outside it the timer registers and stage are kept.
   */
  lemma TickRamp(cfg: RampConfig, s: MotionState)
    requires cfg.Valid()
    ensures var t := TickState(cfg, s);
      var m := Min(t.stepsTaken, t.stepsToTake);
      (m < cfg.duration ==>
        m / cfg.interval < |cfg.table| &&
        t.rampStage == m / cfg.interval && t.icr1 == cfg.Period(m / cfg.interval) && t.ocr1a == t.icr1 / 2) &&
      (m >= cfg.duration ==> t.icr1 == s.icr1 && t.ocr1a == s.ocr1a && t.rampStage == s.rampStage)
  {
    var t := TickState(cfg, s);
    RampSelectIsMinRule(cfg, t.stepsTaken, t.stepsToTake);
    var m := Min(t.stepsTaken, t.stepsToTake);
    if m < cfg.duration {
      StageInTable(cfg, m);
    }
  }

  /** OCR1A == ICR1 / 2 and an in-table stage survive every tick. */
  lemma TickKeepsHalfPeriod(cfg: RampConfig, s: MotionState)
    requires cfg.Valid() && s.ocr1a == s.icr1 / 2 && s.rampStage < |cfg.table|
    ensures TickState(cfg, s).ocr1a == TickState(cfg, s).icr1 / 2
    ensures TickState(cfg, s).rampStage < |cfg.table|
  {
  }

  /**
   * Zero-step edge case, settled: the handler stops the timer but does not
   * return, so with the pulse lines low it still raises them and stepsToTake
   * wraps from 0 to 65535.
   */
  lemma ZeroStepTick(cfg: RampConfig, s: MotionState)
    requires cfg.Valid() && s.stepsToTake == 0 && s.portA & PulseBits == 0
    ensures var t := TickState(cfg, s);
      !t.running && t.stepsToTake == 0xFFFF && t.portA & PulseBits == s.filter & PulseBits &&
      t.stepsTaken == Inc16(s.stepsTaken)
  {
  }

  /** A state from which the next tick emits a leading edge on at least one line. */
  predicate ReadyToStep(s: MotionState) {
    s.portA & PulseBits == 0 && s.filter & PulseBits != 0
  }

  /** Two ticks of a move with k >= 2 steps left: one whole step, the timer still running. */
  lemma TwoTicks(cfg: RampConfig, s: MotionState)
    requires cfg.Valid() && ReadyToStep(s) && s.stepsToTake >= 2 && s.stepsTaken < 0xFFFF
    ensures var u := Run(cfg, s, 2);
      ReadyToStep(u) && u.stepsToTake == s.stepsToTake - 1 && u.stepsTaken == s.stepsTaken + 1 &&
      u.running == s.running && u.filter == s.filter && u.portA == s.portA
  {
    var s1 := TickState(cfg, s);
    var s2 := TickState(cfg, s1);
    assert Run(cfg, s1, 1) == s2;
  }

  /**
   * Completion. From the pulse lines low with k >= 1 steps to take, exactly 2k
   * ticks perform the move: k leading edges (stepsTaken grows by k), after which
   * stepsToTake is 0, the pulse lines are low and the timer is stopped; the
   * stop happens on tick 2k, the first to find stepsToTake == 0, and with a
   * non-empty ramp window ICR1 is back at the slowest entry, rampArray[0].
   */
  lemma {:induction false} MoveCompletes(cfg: RampConfig, s: MotionState, k: nat)
    requires cfg.Valid() && ReadyToStep(s)
    requires s.stepsToTake == k && 1 <= k && s.stepsTaken + k <= 0xFFFF
    ensures var e := Run(cfg, s, 2 * k);
      e.stepsToTake == 0 && e.stepsTaken == s.stepsTaken + k &&
      e.portA == s.portA && !e.running && e.filter == s.filter &&
      (cfg.duration >= 1 ==> e.icr1 == cfg.Period(0) && e.ocr1a == e.icr1 / 2)
    ensures Run(cfg, s, 2 * k - 1).running == s.running
    ensures Run(cfg, s, 2 * k - 1).stepsToTake == 0
    ensures cfg.duration >= 1 ==> Run(cfg, s, 2 * k - 1).icr1 == cfg.Period(0)
    decreases k
  {
    if k == 1 {
      var s1 := TickState(cfg, s);
      var s2 := TickState(cfg, s1);
      assert Run(cfg, s, 1) == s1 by { assert Run(cfg, s1, 0) == s1; }
      assert Run(cfg, s, 2) == s2 by { assert Run(cfg, s1, 1) == s2; }
      if cfg.duration >= 1 {
        TickRamp(cfg, s);
        TickRamp(cfg, s1);
        assert s2.icr1 == cfg.Period(0);
      }
    } else {
      TwoTicks(cfg, s);
      var u := Run(cfg, s, 2);
      MoveCompletes(cfg, u, k - 1);
      RunAdd(cfg, s, 2, 2 * (k - 1));
      RunAdd(cfg, s, 2, 2 * (k - 1) - 1);
    }
  }

  /**
   * j whole steps of a move with more than j steps left: the counts move by j,
   * the pulse lines are low again and the timer still runs.
   */
  lemma {:induction false} Advance(cfg: RampConfig, s: MotionState, j: nat)
    requires cfg.Valid() && ReadyToStep(s)
    requires j < s.stepsToTake && s.stepsTaken + j <= 0xFFFF
    ensures var u := Run(cfg, s, 2 * j);
      ReadyToStep(u) && u.stepsToTake == s.stepsToTake - j && u.stepsTaken == s.stepsTaken + j &&
      u.portA == s.portA && u.filter == s.filter && u.running == s.running
    decreases j
  {
    if j > 0 {
      TwoTicks(cfg, s);
      var u := Run(cfg, s, 2);
      Advance(cfg, u, j - 1);
      RunAdd(cfg, s, 2, 2 * (j - 1));
    }
  }

  /**
   * The two ticks of one step, seen from the ramp: both leave the counts at
   * stepsTaken + 1 and stepsToTake - 1, so both program the stage of the nearer
   * end of the move when it is inside the window and both keep ICR1 otherwise.
   */
  lemma OneStepRamp(cfg: RampConfig, s: MotionState)
    requires cfg.Valid() && ReadyToStep(s) && s.stepsToTake >= 1 && s.stepsTaken < 0xFFFF
    ensures var m := Min(s.stepsTaken + 1, s.stepsToTake - 1);
      (m < cfg.duration ==>
        (m / cfg.interval < |cfg.table| &&
         Run(cfg, s, 1).icr1 == cfg.Period(m / cfg.interval) &&
         Run(cfg, s, 2).icr1 == cfg.Period(m / cfg.interval))) &&
      (m >= cfg.duration ==> Run(cfg, s, 1).icr1 == s.icr1 && Run(cfg, s, 2).icr1 == s.icr1)
  {
    var s1 := TickState(cfg, s);
    var s2 := TickState(cfg, s1);
    assert Run(cfg, s, 1) == s1 by { assert Run(cfg, s1, 0) == s1; }
    assert Run(cfg, s, 2) == s2 by { assert Run(cfg, s1, 1) == s2; }
    TickRamp(cfg, s);
    TickRamp(cfg, s1);
  }

  /**
   * Ramp symmetry over ticks: in a move of s steps from a standing start, step
   * j (counted from 0) and step s-2-j are paired. The leading edge of step j
   * leaves j+1 steps taken and s-1-j to take, and that of step s-2-j leaves
   * s-1-j taken and j+1 to take. So when the nearer end is inside the window,
   * both program the same period, the one the nearer end's stage selects.
   */
  lemma RunSymmetric(cfg: RampConfig, st: MotionState, j: nat)
    requires cfg.Valid() && ReadyToStep(st) && st.stepsTaken == 0
    requires j + 2 <= st.stepsToTake
    requires Min(j + 1, st.stepsToTake - 1 - j) < cfg.duration
    ensures Min(j + 1, st.stepsToTake - 1 - j) / cfg.interval < |cfg.table|
    ensures Run(cfg, st, 2 * j + 1).icr1 == cfg.Period(Min(j + 1, st.stepsToTake - 1 - j) / cfg.interval)
    ensures Run(cfg, st, 2 * j + 1).icr1 == Run(cfg, st, 2 * (st.stepsToTake - 2 - j) + 1).icr1
  {
    var k := st.stepsToTake - 2 - j;
    Advance(cfg, st, j);
    OneStepRamp(cfg, Run(cfg, st, 2 * j));
    RunAdd(cfg, st, 2 * j, 1);
    Advance(cfg, st, k);
    OneStepRamp(cfg, Run(cfg, st, 2 * k));
    RunAdd(cfg, st, 2 * k, 1);
  }

  /**
   * Where the plateau starts: after the 2 (RAMPDURATION - 1) ticks of the
   * first RAMPDURATION - 1 steps, ICR1 holds the period of the stage that step
   * RAMPDURATION - 1 programmed (for RAMPDURATION == 1, the one held at start).
   */
  lemma PlateauStart(cfg: RampConfig, st: MotionState)
    requires cfg.Valid() && ReadyToStep(st) && st.stepsTaken == 0
    requires 1 <= cfg.duration && 2 * cfg.duration < st.stepsToTake
    requires cfg.duration >= 2 || st.icr1 == cfg.Period(0)
    ensures (cfg.duration - 1) / cfg.interval < |cfg.table|
    ensures Run(cfg, st, 2 * (cfg.duration - 1)).icr1 == cfg.Period((cfg.duration - 1) / cfg.interval)
  {
    var d := cfg.duration;
    StageInTable(cfg, d - 1);
    if d >= 2 {
      Advance(cfg, st, d - 2);
      var w := Run(cfg, st, 2 * (d - 2));
      OneStepRamp(cfg, w);
      RunAdd(cfg, st, 2 * (d - 2), 2);
      assert 2 * (d - 2) + 2 == 2 * (d - 1);
    }
  }

  /**
   * One cruise step: with ICR1 at p when step j begins, a step j whose both ends
   * are outside the ramp window leaves ICR1 at p on both of its ticks.
   */
  lemma PlateauStep(cfg: RampConfig, st: MotionState, j: nat, p: U16)
    requires cfg.Valid() && ReadyToStep(st) && st.stepsTaken == 0
    requires 1 <= cfg.duration <= j <= st.stepsToTake - cfg.duration
    requires Run(cfg, st, 2 * (j - 1)).icr1 == p
    ensures Run(cfg, st, 2 * j - 1).icr1 == p && Run(cfg, st, 2 * j).icr1 == p
  {
    Advance(cfg, st, j - 1);
    var u := Run(cfg, st, 2 * (j - 1));
    OneStepRamp(cfg, u);
    RunAdd(cfg, st, 2 * (j - 1), 1);
    RunAdd(cfg, st, 2 * (j - 1), 2);
  }

  /**
   * The plateau, step by step: in a move of s > 2 RAMPDURATION steps, both
   * ticks of every step j with RAMPDURATION <= j <= s - RAMPDURATION leave ICR1
   * at the period programmed by step RAMPDURATION - 1.
   */
  lemma {:induction false} PlateauAt(cfg: RampConfig, st: MotionState, j: nat)
    requires cfg.Valid() && ReadyToStep(st) && st.stepsTaken == 0
    requires 1 <= cfg.duration && 2 * cfg.duration < st.stepsToTake
    requires cfg.duration >= 2 || st.icr1 == cfg.Period(0)
    requires cfg.duration <= j <= st.stepsToTake - cfg.duration
    ensures (cfg.duration - 1) / cfg.interval < |cfg.table|
    ensures Run(cfg, st, 2 * j - 1).icr1 == cfg.Period((cfg.duration - 1) / cfg.interval)
    ensures Run(cfg, st, 2 * j).icr1 == cfg.Period((cfg.duration - 1) / cfg.interval)
    decreases j
  {
    PlateauStart(cfg, st);
    var p := cfg.Period((cfg.duration - 1) / cfg.interval);
    if j > cfg.duration {
      PlateauAt(cfg, st, j - 1);
    }
    PlateauStep(cfg, st, j, p);
  }

  /**
   * Cruise. From a standing start, a move of s > 2 RAMPDURATION steps holds ICR1
   * constant from tick 2 RAMPDURATION - 1 through tick 2 (s - RAMPDURATION), at
   * rampArray[(RAMPDURATION - 1) / RAMPINTERVAL], the stage the acceleration
   * reached. (With RAMPDURATION == 1 the acceleration programs nothing, so the
   * plateau is whatever ICR1 held; Stepper_Init and every finished move leave
   * rampArray[0] there.)
   */
  lemma CruisePlateau(cfg: RampConfig, st: MotionState, n: nat)
    requires cfg.Valid() && ReadyToStep(st) && st.stepsTaken == 0
    requires 1 <= cfg.duration && 2 * cfg.duration < st.stepsToTake
    requires cfg.duration >= 2 || st.icr1 == cfg.Period(0)
    requires 2 * cfg.duration - 1 <= n <= 2 * (st.stepsToTake - cfg.duration)
    ensures (cfg.duration - 1) / cfg.interval < |cfg.table|
    ensures Run(cfg, st, n).icr1 == cfg.Period((cfg.duration - 1) / cfg.interval)
  {
    PlateauAt(cfg, st, (n + 1) / 2);
  }

  /**
   * When the window reaches the last stage (RAMPDURATION > (RAMPSTAGES - 1) *
   * RAMPINTERVAL) the plateau is the table's terminal entry; a shorter window
   * cruises at an earlier entry.
   */
  lemma CruiseAtTerminalEntry(cfg: RampConfig, st: MotionState, n: nat)
    requires cfg.Valid() && ReadyToStep(st) && st.stepsTaken == 0
    requires (|cfg.table| - 1) * cfg.interval < cfg.duration && 2 * cfg.duration < st.stepsToTake
    requires cfg.duration >= 2 || st.icr1 == cfg.Period(0)
    requires 2 * cfg.duration - 1 <= n <= 2 * (st.stepsToTake - cfg.duration)
    ensures Run(cfg, st, n).icr1 == cfg.Period(|cfg.table| - 1)
  {
    var x, t, d := cfg.duration - 1, |cfg.table|, cfg.interval;
    assert (t - 1) * d <= x < t * d;
    LastStage(x, t, d);
    CruisePlateau(cfg, st, n);
  }

  /** A count at or past the start of the last of t stages of width d selects that stage. */
  lemma LastStage(x: nat, t: nat, d: nat)
    requires 1 <= d && 1 <= t && (t - 1) * d <= x < t * d
    ensures x / d == t - 1
  {
    DivLower(x, t - 1, d);
    DivUpper(x, t, d);
  }

  lemma DivLower(x: nat, a: nat, d: nat)
    requires 1 <= d && a * d <= x
    ensures a <= x / d
  {
    var q := x / d;
    if q < a {
      MulLe(q + 1, a, d);
      assert false;
    }
  }

  lemma MulLe(a: nat, b: nat, d: nat)
    requires a <= b
    ensures a * d <= b * d
  {
    assert b * d == a * d + (b - a) * d;
  }

  lemma DivUpper(x: nat, b: nat, d: nat)
    requires 1 <= d && x < b * d
    ensures x / d < b
  {
  }

  /** Once the timer is stopped it stays stopped: a later tick running means every earlier one did. */
  lemma {:induction false} RunningEarlier(cfg: RampConfig, s: MotionState, i: nat, m: nat)
    requires cfg.Valid() && i <= m && Run(cfg, s, m).running
    ensures Run(cfg, s, i).running
    decreases m
  {
    if m > 0 {
      var t := TickState(cfg, s);
      if i > 0 {
        RunningEarlier(cfg, t, i - 1, m - 1);
      } else {
        RunningEarlier(cfg, t, 0, m - 1);
        assert t.running;
      }
    }
  }

  /**
   * The first tick after which the timer is stopped is unique: a count a of
   * ticks with the timer running before each and stopped after the last is
   * any b whose tick b - 1 still ran and after which it is stopped.
   */
  lemma StopTimeUnique(cfg: RampConfig, s: MotionState, a: nat, b: nat)
    requires cfg.Valid()
    requires forall i :: 0 <= i < a ==> Run(cfg, s, i).running
    requires !Run(cfg, s, a).running
    requires 1 <= b && Run(cfg, s, b - 1).running && !Run(cfg, s, b).running
    ensures a == b
  {
    if a < b {
      RunningEarlier(cfg, s, a, b - 1);
      assert false;
    }
  }

  /**
   * How many more interrupts a running timer sees before the handler stops
   * it: one when no steps are left, otherwise two per step plus the trailing
   * edge of a pulse still high.
   */
  function TicksToStop(s: MotionState): nat {
    if s.stepsToTake == 0 then 1
    else 2 * s.stepsToTake + (if s.portA & PulseBits != 0 then 1 else 0)
  }

  /** Every tick that leaves the timer running brings the stop nearer. */
  lemma TickApproachesStop(cfg: RampConfig, s: MotionState)
    requires cfg.Valid() && s.running
    ensures TickState(cfg, s).running ==> TicksToStop(TickState(cfg, s)) < TicksToStop(s)
  {
  }

  /**
   * Single-wheel isolation: a pulse line that the filter masks out and that
   * starts low stays low on every tick (with filter 0x40 bit 3 is never raised,
   * with 0x08 bit 6 never).
   */
  lemma {:induction false} MaskedLineStaysLow(cfg: RampConfig, s: MotionState, line: Byte, n: nat)
    requires cfg.Valid() && line & PulseBits == line
    requires s.filter & line == 0 && s.portA & line == 0
    ensures Run(cfg, s, n).portA & line == 0
    decreases n
  {
    if n > 0 {
      var t := TickState(cfg, s);
      assert t.filter == s.filter && t.portA & line == 0;
      MaskedLineStaysLow(cfg, t, line, n - 1);
    }
  }

  /** The controller: stepperStruct together with the PORTA, DDRA and timer-1 registers it drives. */
  class Controller {
    const cfg: RampConfig
    var DDRA: Byte
    var PORTA: Byte
    var ICR1: U16
    var OCR1A: U16
    var TCNT1: U16
    var TIMSK: Byte
    /** Timer 1 is clocked: StartSteppers ran and StopSteppers has not run since. */
    var running: bool
    var stepsToTake: U16
    var stepsTaken: U16
    var rampStage: U8
    var stepperFilter: Byte

    ghost predicate Valid()
      reads this
    {
      cfg.Valid() && rampStage < |cfg.table| && OCR1A == ICR1 / 2
    }

    function Motion(): MotionState
      reads this
    {
      MotionState(PORTA, ICR1, OCR1A, running, stepsToTake, stepsTaken, rampStage, stepperFilter)
    }

    /** Power-on state: I/O registers reset to 0, static variables zero-initialised. */
    constructor (cfg: RampConfig)
      requires cfg.Valid()
      ensures Valid() && this.cfg == cfg
      ensures Motion() == MotionState(0, 0, 0, false, 0, 0, 0, 0)
      ensures DDRA == 0 && TCNT1 == 0 && TIMSK == 0
    {
      this.cfg := cfg;
      DDRA, PORTA, ICR1, OCR1A, TCNT1, TIMSK := 0, 0, 0, 0, 0, 0;
      running := false;
      stepsToTake, stepsTaken, rampStage, stepperFilter := 0, 0, 0, 0;
    }

    /**
     * Stepper_Init: PORTA all outputs, idle pattern per stepping mode, counts
     * and stage zero, both motors selected, the slowest period loaded and the
     * timer left stopped (clock-select bits clear), its compare interrupt enabled.
     */
    method Init(mode: SteppingMode)
      requires Valid()
      modifies this
      ensures Valid()
      ensures DDRA == 0xFF && PORTA == (if mode == HalfStepping then 0 else 0x90)
      ensures stepsToTake == 0 && stepsTaken == 0 && rampStage == 0 && stepperFilter == BothMotors
      ensures ICR1 == cfg.Period(0) && OCR1A == ICR1 / 2 && TCNT1 == 0 && !running
      ensures TIMSK == old(TIMSK) | Bv(OCIE1A)
    {
      DDRA := 0xFF;
      if mode == HalfStepping {
        PORTA := 0;
      } else {
        PORTA := 0x90;
      }
      stepsToTake := 0;
      rampStage := 0;
      stepsTaken := 0;
      stepperFilter := 0xFF;
      ICR1 := cfg.Period(0);
      OCR1A := ICR1 / 2;
      TCNT1 := 0;
      running := false;
      TIMSK := TIMSK | Bv(OCIE1A);
    }

    /**
     * Stepper_MoveStraight (forward is `dir == FORWARD`): bit 5 up and bit 2
     * down for FORWARD, the reverse otherwise, no other PORTA bit touched; the
     * move in progress, if any, is replaced by one of `steps` steps on both
     * motors and the timer is started.
     */
    method MoveStraight(steps: U16, forward: bool)
      requires Valid()
      modifies this
      ensures Valid()
      ensures PORTA & DirBits == (if forward then 0x20 else 0x04)
      ensures PORTA & !DirBits == old(PORTA) & !DirBits
      ensures stepperFilter == BothMotors && stepsTaken == 0 && stepsToTake == steps && running
      ensures ICR1 == old(ICR1) && OCR1A == old(OCR1A) && rampStage == old(rampStage)
      ensures DDRA == old(DDRA) && TCNT1 == old(TCNT1) && TIMSK == old(TIMSK)
    {
      if forward {
        PORTA := PORTA | Bv(5);
        PORTA := PORTA & !Bv(2);
      } else {
        PORTA := PORTA | Bv(2);
        PORTA := PORTA & !Bv(5);
      }
      stepperFilter := 0xFF;
      stepsTaken := 0;
      stepsToTake := steps;
      running := true;
    }

    /**
     * Stepper_RotateAboutCenter: both direction bits up for dir == 0, both
     * down otherwise; both motors step.
     */
    method RotateAboutCenter(steps: U16, dir: Byte)
      requires Valid()
      modifies this
      ensures Valid()
      ensures PORTA & DirBits == (if dir == 0 then DirBits else 0)
      ensures PORTA & !DirBits == old(PORTA) & !DirBits
      ensures stepperFilter == BothMotors && stepsTaken == 0 && stepsToTake == steps && running
      ensures ICR1 == old(ICR1) && OCR1A == old(OCR1A) && rampStage == old(rampStage)
      ensures DDRA == old(DDRA) && TCNT1 == old(TCNT1) && TIMSK == old(TIMSK)
    {
      if dir == 0 {
        PORTA := PORTA | (Bv(5) | Bv(2));
      } else {
        PORTA := PORTA & !(Bv(5) | Bv(2));
      }
      stepperFilter := 0xFF;
      stepsTaken := 0;
      stepsToTake := steps;
      running := true;
    }

    /**
     * Stepper_RotateAboutWheel (leftWheel is `wheel == LEFT`): direction bits
     * as RotateAboutCenter; only pulse line 6 (LEFT) or only line 3 (otherwise)
     * is let through.
     */
    method RotateAboutWheel(steps: U16, leftWheel: bool, dir: Byte)
      requires Valid()
      modifies this
      ensures Valid()
      ensures PORTA & DirBits == (if dir == 0 then DirBits else 0)
      ensures PORTA & !DirBits == old(PORTA) & !DirBits
      ensures stepperFilter == (if leftWheel then LeftWheelFilter else RightWheelFilter)
      ensures stepsTaken == 0 && stepsToTake == steps && running
      ensures ICR1 == old(ICR1) && OCR1A == old(OCR1A) && rampStage == old(rampStage)
      ensures DDRA == old(DDRA) && TCNT1 == old(TCNT1) && TIMSK == old(TIMSK)
    {
      if dir == 0 {
        PORTA := PORTA | (Bv(5) | Bv(2));
      } else {
        PORTA := PORTA & !(Bv(5) | Bv(2));
      }
      if leftWheel {
        stepperFilter := 0x40;
      } else {
        stepperFilter := 0x08;
      }
      stepsTaken := 0;
      stepsToTake := steps;
      running := true;
    }

    /**
     * Stepper_WaitForStop: spins while the timer's clock-select bits are set.
     * The compare interrupt keeps firing meanwhile, so each pass of the loop is
     * one handler call; ticks is how many ran before the handler stopped the
     * timer, and the timer ran before each of them.
     */
    method WaitForStop() returns (ticks: nat)
      requires Valid()
      modifies this
      ensures Valid() && !running
      ensures Motion() == Run(cfg, old(Motion()), ticks)
      ensures forall i :: 0 <= i < ticks ==> Run(cfg, old(Motion()), i).running
      ensures DDRA == old(DDRA) && TCNT1 == old(TCNT1) && TIMSK == old(TIMSK)
    {
      ghost var start := Motion();
      ticks := 0;
      while running
        invariant Valid() && Motion() == Run(cfg, start, ticks)
        invariant forall i :: 0 <= i < ticks ==> Run(cfg, start, i).running
        invariant DDRA == old(DDRA) && TCNT1 == old(TCNT1) && TIMSK == old(TIMSK)
        decreases if running then TicksToStop(Motion()) else 0
      {
        TickApproachesStop(cfg, Motion());
        RunAdd(cfg, start, ticks, 1);
        assert Run(cfg, Motion(), 1) == TickState(cfg, Motion());
        Tick();
        ticks := ticks + 1;
      }
    }

    /** The SIG_OUTPUT_COMPARE1A handler: the pulse edge, then the ramp update. */
    method Tick()
      requires Valid()
      modifies this
      ensures Valid()
      ensures Motion() == TickState(cfg, old(Motion()))
      ensures DDRA == old(DDRA) && TCNT1 == old(TCNT1) && TIMSK == old(TIMSK)
    {
      PulseEdge();
      UpdateRamp();
    }

    /** Lines 191-201 of the handler: stop when no steps are left, then one pulse edge. */
    method PulseEdge()
      requires Valid()
      modifies this
      ensures Valid()
      ensures Motion() == EdgeStep(old(Motion()))
      ensures DDRA == old(DDRA) && TCNT1 == old(TCNT1) && TIMSK == old(TIMSK)
    {
      if stepsToTake == 0 {
        running := false;
      }
      if PORTA & 0x48 != 0 {
        PORTA := PORTA & !(Bv(6) | Bv(3));
      } else {
        PORTA := PORTA | (0x48 & stepperFilter);
        stepsToTake := Dec16(stepsToTake);
        stepsTaken := Inc16(stepsTaken);
      }
    }

    /** Lines 202-213 of the handler: the ramp update from the new counts. */
    method UpdateRamp()
      requires Valid()
      modifies this
      ensures Valid()
      ensures Motion() == RampStep(cfg, old(Motion()))
      ensures DDRA == old(DDRA) && TCNT1 == old(TCNT1) && TIMSK == old(TIMSK)
    {
      if stepsTaken < cfg.duration && stepsTaken < stepsToTake {
        StageInTable(cfg, stepsTaken);
        rampStage := stepsTaken / cfg.interval;
        ICR1 := cfg.Period(rampStage);
        OCR1A := ICR1 / 2;
      } else if stepsToTake < cfg.duration && stepsToTake <= stepsTaken {
        StageInTable(cfg, stepsToTake);
        rampStage := stepsToTake / cfg.interval;
        ICR1 := cfg.Period(rampStage);
        OCR1A := ICR1 / 2;
      }
    }
  }

  /**
   * A whole move through the class interface: after a move command of s >= 1
   * steps from a state with the pulse lines low, Stepper_WaitForStop returns
   * after exactly 2s handler calls, with the move done and the pulse lines low.
   */
  method MoveThenWait(c: Controller, s: U16) returns (ticks: nat)
    requires c.Valid() && c.PORTA & PulseBits == 0 && 1 <= s
    modifies c
    ensures ticks == 2 * s
    ensures c.Valid() && !c.running
    ensures c.stepsToTake == 0 && c.stepsTaken == s && c.PORTA & PulseBits == 0
    ensures c.cfg.duration >= 1 ==> c.ICR1 == c.cfg.Period(0)
  {
    c.MoveStraight(s, true);
    ghost var start := c.Motion();
    assert ReadyToStep(start);
    ticks := c.WaitForStop();
    MoveCompletes(c.cfg, start, s);
    StopTimeUnique(c.cfg, start, ticks, 2 * s);
  }
}
