/**
 * The hobby-servo pulse generator (MegaBoardLib/servo.c). A frame holds eight
 * slots, one per servo; the timer-1 compare-B interrupt alternates between
 * raising a servo's line at the start of its slot and lowering it after the
 * servo's pulse width, then moving on to the next servo.
 */
module Servo {
  import opened Registers

  const ServoCount: nat := 8

  /** servoTimerConstants: where each servo's slot starts in the frame, in timer counts. */
  const TimerConstants: seq<U16> := [200, 5200, 10200, 15200, 20200, 25200, 30200, 35200]

  /** Servo_Init's frame period, OCR1A. */
  const FramePeriod: U16 := 40500

  /** Slot i starts at 200 + 5000 i: every slot is 5000 counts long. */
  lemma TimerConstantsFormula()
    ensures |TimerConstants| == ServoCount
    ensures forall i :: 0 <= i < ServoCount ==> TimerConstants[i] == 200 + 5000 * i
  {
  }

  /** The slot start offsets strictly increase and all fall inside the frame. */
  lemma TimerConstantsIncrease()
    ensures forall i, j :: 0 <= i < j < ServoCount ==> TimerConstants[i] < TimerConstants[j]
    ensures forall i :: 0 <= i < ServoCount ==> TimerConstants[i] < FramePeriod
  {
    TimerConstantsFormula();
  }

  /**
   * The interrupt's state: the servo output port, servoFlag (1 while between
   * pulses), servoNumber and the compare register OCR1B.
   */
  datatype PulseState = PulseState(port: Byte, flag: U8, number: U8, ocr1b: U16)

  /**
   * The handler's invariant: the number names a servo, the flag is 0 or 1,
   * between pulses every servo line is low and OCR1B holds the start of the
   * current servo's slot, and during a pulse exactly the current servo's line
   * is high. So at most one servo pulse is active at a time.
   */
  predicate Consistent(s: PulseState) {
    s.number < ServoCount && s.flag <= 1 &&
    (s.flag == 1 ==> s.port == 0 && s.ocr1b == TimerConstants[s.number]) &&
    (s.flag == 0 ==> s.port == Bv(s.number))
  }

  /** One SIG_OUTPUT_COMPARE1B interrupt, with servoValues as `values`. */
  function Step(values: seq<U16>, s: PulseState): (t: PulseState)
    requires |values| == ServoCount && s.number < ServoCount
    ensures t.number < ServoCount
  {
    if s.flag == 0 then
      // falling edge: lower the line, select the next servo, wait for its slot
      var next := ((s.number + 1) % 0x100) % 8;
      PulseState(s.port & !Bv(s.number), 1, next, TimerConstants[next])
    else
      // rising edge: raise the line, wait for the servo's pulse width
      PulseState(s.port | Bv(s.number), 0, s.number, Add16(s.ocr1b, values[s.number]))
  }

  /** n consecutive interrupts. */
  function Steps(values: seq<U16>, s: PulseState, n: nat): (t: PulseState)
    requires |values| == ServoCount && s.number < ServoCount
    ensures t.number < ServoCount
    decreases n
  {
    if n == 0 then s else Steps(values, Step(values, s), n - 1)
  }

  /**
   * The rising edge sets only the current servo's bit and clears the flag
   * (OCR1B advanced by its pulse width); the falling edge clears that bit,
   * sets the flag and moves to servo (n + 1) mod 8 at the start of its slot.
   */
  lemma StepEdges(values: seq<U16>, s: PulseState)
    requires |values| == ServoCount && Consistent(s)
    ensures var t := Step(values, s);
      (s.flag == 1 ==> t.flag == 0 && t.number == s.number && t.port == Bv(s.number) &&
                       t.ocr1b == (s.ocr1b + values[s.number]) % 0x1_0000) &&
      (s.flag == 0 ==> t.flag == 1 && t.number == (s.number + 1) % ServoCount && t.port == 0 &&
                       t.ocr1b == TimerConstants[t.number])
  {
  }

  /** Every interrupt keeps the invariant. */
  lemma StepKeepsConsistent(values: seq<U16>, s: PulseState)
    requires |values| == ServoCount && Consistent(s)
    ensures Consistent(Step(values, s))
  {
  }

  /** Two interrupts move on to the next servo in the same phase. */
  lemma TwoSteps(values: seq<U16>, s: PulseState)
    requires |values| == ServoCount && Consistent(s)
    ensures var u := Steps(values, s, 2);
      Consistent(u) && u.flag == s.flag && u.number == (s.number + 1) % ServoCount
  {
    var t := Step(values, s);
    StepKeepsConsistent(values, s);
    StepEdges(values, s);
    var u := Step(values, t);
    StepKeepsConsistent(values, t);
    StepEdges(values, t);
    assert Steps(values, s, 2) == u by {
      assert Steps(values, t, 1) == Steps(values, u, 0);
    }
  }

  lemma {:induction false} StepsAdd(values: seq<U16>, s: PulseState, a: nat, b: nat)
    requires |values| == ServoCount && s.number < ServoCount
    ensures Steps(values, s, a + b) == Steps(values, Steps(values, s, a), b)
    decreases a
  {
    if a > 0 {
      StepsAdd(values, Step(values, s), a - 1, b);
    }
  }

  lemma ModStep(n: nat, k: nat, u: nat)
    requires u == (n + k) % 8
    ensures (u + 1) % 8 == (n + k + 1) % 8
  {
  }

  /** 2k interrupts advance the servo number by k (mod 8) and keep the phase. */
  lemma {:induction false} PairsAdvance(values: seq<U16>, s: PulseState, k: nat)
    requires |values| == ServoCount && Consistent(s)
    ensures var u := Steps(values, s, 2 * k);
      Consistent(u) && u.flag == s.flag && u.number == (s.number + k) % ServoCount
    decreases k
  {
    if k > 0 {
      var m := 2 * (k - 1);
      PairsAdvance(values, s, k - 1);
      var u := Steps(values, s, m);
      TwoSteps(values, u);
      StepsAdd(values, s, m, 2);
      assert m + 2 == 2 * k;
      ModStep(s.number, k - 1, u.number);
    }
  }

  /**
   * Sixteen interrupts, one frame, bring servoNumber, servoFlag and the port
   * back to where they were (and OCR1B too when the frame starts between pulses).
   */
  lemma FrameReturns(values: seq<U16>, s: PulseState)
    requires |values| == ServoCount && Consistent(s)
    ensures var u := Steps(values, s, 2 * ServoCount);
      u.number == s.number && u.flag == s.flag && u.port == s.port &&
      (s.flag == 1 ==> u.ocr1b == s.ocr1b)
  {
    PairsAdvance(values, s, 8);
  }

  /**
   * Slot written by Servo_SetAngle for motor number m AS WRITTEN: the guard
   * admits 1..8 and the code writes servoValues[m], so motor 8 writes one past
   * the eight-element array and motor 1 writes the slot Servo_SetAngles gives
   * to servo 2.
   */
  function SetAngleSlotAsWritten(motor: U8): (r: Option<nat>)
    ensures r.Some? <==> 1 <= motor <= ServoCount
  {
    if motor > 0 && motor < 9 then Some(motor) else None
  }

  /** Motor 8 passes the guard and indexes servoValues[8], outside the array. */
  lemma SetAngleAsWrittenOverruns()
    ensures SetAngleSlotAsWritten(8) == Some(8) && 8 >= ServoCount
  {
  }

  /**
   * Slot for motor number m as intended: motors 1..8 are servoValues[0..7],
   * matching Servo_SetAngles; any other number selects nothing.
   */
  function SetAngleSlot(motor: U8): (r: Option<nat>)
    ensures r.Some? <==> 1 <= motor <= ServoCount
    ensures r.Some? ==> r.value < ServoCount && r.value + 1 == motor
  {
    if motor > 0 && motor < 9 then Some(motor - 1) else None
  }

  /** C's `/ 2` on a signed `int`: the quotient is truncated toward zero. */
  function HalfTowardZero(x: int): (r: int)
    ensures x >= 0 ==> 0 <= x - 2 * r <= 1
    ensures x < 0 ==> 0 <= 2 * r - x <= 1
  {
    if x >= 0 then x / 2 else -((-x) / 2)
  }

  /**
   * The initialiser `(END_VALUE-START_VALUE)/2` of servoValues: the difference
   * and its half are `int`, and the half is stored in an `unsigned int`. With
   * END_VALUE below START_VALUE - 1 it wraps around to a width of at least 0x8000.
   */
  function CenterValue(startValue: I16, endValue: I16): (c: U16)
    requires -0x8000 <= endValue - startValue < 0x8000
    ensures startValue <= endValue ==> c == (endValue - startValue) / 2
    ensures endValue < startValue - 1 ==> c >= 0x8000
  {
    ToU16(HalfTowardZero(endValue - startValue))
  }

  /**
   * At power-on servoFlag and servoNumber are 0 and the port is low, which is
   * not a state the handler keeps: the handler must not run before Servo_Init.
   */
  lemma PowerOnNotConsistent()
    ensures !Consistent(PulseState(0, 0, 0, 0))
    ensures Consistent(PulseState(0, 1, 0, TimerConstants[0]))
  {
  }

  /** OCIE1B is bit 3 of TIMSK on the ATmega128. */
  const OCIE1B: nat := 3

  /** The servo driver: its globals, the servo port and the timer-1 registers it writes. */
  class Controller {
    /** servoValues: each servo's pulse width in timer counts. */
    const values: array<U16>
    /** (END_VALUE - START_VALUE) / 2, the centre position. */
    const center: U16
    var dirPort: Byte
    var port: Byte
    var flag: U8
    var number: U8
    var OCR1A: U16
    var OCR1B: U16
    var TCNT1: U16
    var TIMSK: Byte

    /** servoValues has its eight entries. */
    ghost predicate HasTable()
      reads this
    {
      values.Length == ServoCount
    }

    /** After Servo_Init: the table and the handler's invariant. */
    ghost predicate Valid()
      reads this
    {
      HasTable() && Consistent(Pulse())
    }

    function Pulse(): PulseState
      reads this
    {
      PulseState(port, flag, number, OCR1B)
    }

    /**
     * Power-on state: servoValues statically initialised to the centre, byte
     * globals zero, registers reset to 0 and so the compare-B interrupt off.
     * START_VALUE and END_VALUE are build-time `int` constants.
     */
    constructor (startValue: I16, endValue: I16)
      requires -0x8000 <= endValue - startValue < 0x8000
      ensures HasTable() && fresh(values)
      ensures center == CenterValue(startValue, endValue)
      ensures forall i :: 0 <= i < ServoCount ==> values[i] == center
      ensures Pulse() == PulseState(0, 0, 0, 0) && dirPort == 0 && OCR1A == 0 && TCNT1 == 0
      ensures TIMSK == 0 && !BitSet(TIMSK, OCIE1B)
    {
      center := CenterValue(startValue, endValue);
      values := new U16[8]((i: int) => CenterValue(startValue, endValue));
      dirPort, port, flag, number := 0, 0, 0, 0;
      OCR1A, OCR1B, TCNT1, TIMSK := 0, 0, 0, 0;
    }

    /**
     * Servo_Init: port outputs and low, flag 1, servo 0, the compare-B
     * interrupt enabled, the timer cleared, the frame period in OCR1A and the
     * first slot start in OCR1B; from here on the handler's invariant holds.
     */
    method Init()
      requires HasTable()
      modifies this
      ensures Valid()
      ensures Pulse() == PulseState(0, 1, 0, TimerConstants[0])
      ensures dirPort == 0xFF && OCR1A == FramePeriod && TCNT1 == 0
      ensures TIMSK == old(TIMSK) | Bv(OCIE1B) && BitSet(TIMSK, OCIE1B)
    {
      dirPort := 0xFF;
      port := 0;
      flag := 1;
      number := 0;
      TIMSK := TIMSK | Bv(OCIE1B);
      TCNT1 := 0;
      OCR1A := 40500;
      OCR1B := 200;
    }

    /** Servo_CenterAll: every pulse width back to the centre, nothing else touched. */
    method CenterAll()
      requires HasTable()
      modifies values
      ensures old(Valid()) ==> Valid()
      ensures forall i :: 0 <= i < ServoCount ==> values[i] == center
    {
      for i := 0 to 8
        invariant forall j :: 0 <= j < i ==> values[j] == center
      {
        values[i] := center;
      }
    }

    /**
     * Servo_SetAngle with the off-by-one corrected; `pulse` is the width the
     * source computes in floating point from the angle. Motor numbers outside
     * 1..8 change nothing.
     */
    method SetAngle(pulse: U16, motor: U8)
      requires HasTable()
      modifies values
      ensures old(Valid()) ==> Valid()
      ensures SetAngleSlot(motor).Some? ==> values[..] == old(values[..])[motor - 1 := pulse]
      ensures SetAngleSlot(motor).None? ==> values[..] == old(values[..])
    {
      match SetAngleSlot(motor)
      case Some(i) => values[i] := pulse;
      case None =>
    }

    /** The SIG_OUTPUT_COMPARE1B handler. */
    method Tick()
      requires Valid()
      modifies this
      ensures Valid()
      ensures Pulse() == Step(values[..], old(Pulse()))
      ensures dirPort == old(dirPort) && OCR1A == old(OCR1A) && TCNT1 == old(TCNT1) && TIMSK == old(TIMSK)
    {
      ghost var before := Pulse();
      StepKeepsConsistent(values[..], before);
      if flag == 0 {
        port := port & !Bv(number);
        flag := 1;
        number := (number + 1) % 0x100;
        number := number % 8;
        OCR1B := TimerConstants[number];
      } else {
        OCR1B := Add16(OCR1B, values[number]);
        port := port | Bv(number);
        flag := 0;
      }
    }
  }
}
