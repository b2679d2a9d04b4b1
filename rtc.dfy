/**
 * The real-time counter (ATmega128Lib/rtc.c): timer 0 clocked from the watch
 * crystal, with a user callback run every `count` overflow ticks. The callback
 * is modelled by whether one is installed and how often it has run.
 */
module Rtc {
  import opened Registers

  /** Bit positions on the ATmega128: TOIE0 and OCIE0 in TIMSK, AS0 in ASSR. */
  const TOIE0: nat := 0
  const OCIE0: nat := 1
  const AS0: nat := 3

  /**
   * `~_BV(a) | ~_BV(b)` for two different bits is all ones: each complement
   * keeps the other's bit, so `TIMSK &= ~_BV(OCIE0)|~_BV(TOIE0)` clears nothing.
   */
  lemma ComplementUnionIsAllOnes(a: nat, b: nat)
    requires a < 8 && b < 8 && a != b
    ensures !Bv(a) | !Bv(b) == 0xFF
  {
  }

  /** rtcInterrupt (installed or NULL), rtcCount, rtcMax and the number of callback runs. */
  datatype Counter = Counter(installed: bool, count: U16, max: U16, fired: nat)

  /**
   * One SIG_OVERFLOW0 interrupt: `if (rtcInterrupt != NULL && --rtcCount == 0)`.
   * Without a callback nothing happens; with one, the callback runs exactly
   * when the count was 1, and then the count is reloaded from rtcMax.
   */
  function RtcTick(s: Counter): (t: Counter)
    ensures !s.installed ==> t == s
    ensures t.installed == s.installed && t.max == s.max
    ensures t.fired == s.fired || t.fired == s.fired + 1
    ensures t.fired == s.fired + 1 <==> s.installed && s.count == 1
    ensures t.fired == s.fired + 1 ==> t.count == s.max
    ensures s.installed && s.count != 1 ==> t.count == Dec16(s.count)
  {
    if !s.installed then
      s  // the && short-circuits: no decrement
    else if Dec16(s.count) == 0 then
      s.(count := s.max, fired := s.fired + 1)
    else
      s.(count := Dec16(s.count))
  }

  /** n consecutive interrupts. */
  function RtcRun(s: Counter, n: nat): Counter
    decreases n
  {
    if n == 0 then s else RtcRun(RtcTick(s), n - 1)
  }

  lemma {:induction false} RtcRunAdd(s: Counter, a: nat, b: nat)
    ensures RtcRun(s, a + b) == RtcRun(RtcRun(s, a), b)
    decreases a
  {
    if a > 0 {
      RtcRunAdd(RtcTick(s), a - 1, b);
    }
  }

  /** With no callback installed the counter never moves and nothing fires. */
  lemma {:induction false} UninstalledIsFrozen(s: Counter, n: nat)
    requires !s.installed
    ensures RtcRun(s, n) == s
    decreases n
  {
    if n > 0 {
      UninstalledIsFrozen(RtcTick(s), n - 1);
    }
  }

  /** With a callback installed and j < rtcCount, j ticks count down by j without firing. */
  lemma {:induction false} CountsDown(s: Counter, j: nat)
    requires s.installed && j < s.count
    ensures RtcRun(s, j) == s.(count := s.count - j)
    decreases j
  {
    if j > 0 {
      var t := RtcTick(s);
      assert t == s.(count := s.count - 1);
      CountsDown(t, j - 1);
    }
  }

  /** The tick that takes rtcCount from 1 to 0 reloads rtcMax and runs the callback once. */
  lemma ReloadTick(s: Counter)
    requires s.installed && s.count == 1
    ensures RtcTick(s) == s.(count := s.max, fired := s.fired + 1)
  {
  }

  /** A count in 1..rtcMax stays in 1..rtcMax across a tick. */
  lemma TickKeepsRange(s: Counter)
    requires s.installed && 1 <= s.count <= s.max
    ensures 1 <= RtcTick(s).count <= RtcTick(s).max == s.max
  {
  }

  /** One period: c ticks from a freshly loaded count c >= 1 fire once and reload c. */
  lemma OnePeriod(s: Counter)
    requires s.installed && 1 <= s.count == s.max
    ensures RtcRun(s, s.max) == s.(fired := s.fired + 1)
  {
    var c: nat := s.max - 1;
    CountsDown(s, c);
    var u := RtcRun(s, c);
    assert u == s.(count := 1);
    ReloadTick(u);
    RunOne(u);
    RtcRunAdd(s, c, 1);
  }

  lemma RunOne(s: Counter)
    ensures RtcRun(s, 1) == RtcTick(s)
  {
    assert RtcRun(RtcTick(s), 0) == RtcTick(s);
  }

  /**
   * After RTC_SetInterrupt(f, c) with c >= 1, the callback runs exactly on
   * every c-th tick: after q*c + r ticks (r < c) it has run q more times and
   * rtcCount is c - r, so it stays in 1..c between ticks.
   */
  lemma {:induction false} FiresEveryCthTick(s: Counter, q: nat, r: nat)
    requires s.installed && 1 <= s.count == s.max && r < s.max
    ensures RtcRun(s, q * s.max + r) == s.(count := s.max - r, fired := s.fired + q)
    decreases q
  {
    var c := s.max;
    if q == 0 {
      CountsDown(s, r);
    } else {
      OnePeriod(s);
      var t := RtcRun(s, c);
      FiresEveryCthTick(t, q - 1, r);
      assert q * c + r == c + ((q - 1) * c + r);
      RtcRunAdd(s, c, (q - 1) * c + r);
    }
  }

  /**
   * RTC_SetInterrupt(f, 0): the 16-bit pre-decrement wraps 0 to 65535, so no
   * call happens for 65535 ticks, the first comes on tick 65536, and the reload
   * puts 0 back so the period repeats.
   */
  lemma ZeroCountWraps(s: Counter)
    requires s.installed && s.count == 0 && s.max == 0
    ensures RtcRun(s, 0xFFFF).fired == s.fired
    ensures RtcRun(s, 0x1_0000) == s.(fired := s.fired + 1)
  {
    var t := RtcTick(s);
    assert t == s.(count := 0xFFFF);
    CountsDown(t, 0xFFFE);
    RtcRunAdd(s, 1, 0xFFFE);
    RunOne(s);
    var u := RtcRun(s, 0xFFFF);
    assert u == s.(count := 1);
    ReloadTick(u);
    RtcRunAdd(s, 0xFFFF, 1);
    RunOne(u);
  }

  /** The driver's registers and globals. */
  class Counter0 {
    var TCCR0: Byte
    var TCNT0: Byte
    var OCR0: Byte
    var ASSR: Byte
    var TIMSK: Byte
    /** rtcInterrupt != NULL */
    var installed: bool
    var rtcCount: U16
    var rtcMax: U16
    /** How many times the installed callback has been called. */
    var fired: nat

    function State(): Counter
      reads this
    {
      Counter(installed, rtcCount, rtcMax, fired)
    }

    /** Power-on state: registers reset to 0, globals zero-initialised. */
    constructor ()
      ensures State() == Counter(false, 0, 0, 0)
      ensures TCCR0 == 0 && TCNT0 == 0 && OCR0 == 0 && ASSR == 0 && TIMSK == 0
    {
      TCCR0, TCNT0, OCR0, ASSR, TIMSK := 0, 0, 0, 0, 0;
      installed := false;
      rtcCount, rtcMax, fired := 0, 0, 0;
    }

    /**
     * RTC_Init: timer 0 stopped and cleared, asynchronous clock selected, no
     * callback, rtcCount 0. Its TIMSK mask is all ones, so TIMSK is unchanged;
     * rtcMax is not touched.
     */
    method Init()
      modifies this
      ensures TCCR0 == 0 && TCNT0 == 0 && OCR0 == 0 && ASSR == Bv(AS0)
      ensures TIMSK == old(TIMSK)
      ensures !installed && rtcCount == 0 && rtcMax == old(rtcMax) && fired == old(fired)
    {
      TCCR0 := 0;
      TCNT0 := 0;
      ComplementUnionIsAllOnes(OCIE0, TOIE0);
      TIMSK := TIMSK & (!Bv(OCIE0) | !Bv(TOIE0));
      OCR0 := 0;
      ASSR := Bv(AS0);
      installed := false;
      rtcCount := 0;
    }

    /**
     * RTC_SetInterrupt(fptr, count): overflow interrupt on, fptr installed
     * (true when non-NULL), rtcMax = rtcCount = count.
     */
    method SetInterrupt(fptr: bool, count: U16)
      modifies this
      ensures TIMSK == old(TIMSK) | Bv(TOIE0)
      ensures installed == fptr && rtcMax == count && rtcCount == count && fired == old(fired)
      ensures TCCR0 == old(TCCR0) && TCNT0 == old(TCNT0) && OCR0 == old(OCR0) && ASSR == old(ASSR)
    {
      TIMSK := TIMSK | Bv(TOIE0);
      installed := fptr;
      rtcMax := count;
      rtcCount := count;
    }

    /** RTC_ResetInterrupt: overflow interrupt off and the callback removed. */
    method ResetInterrupt()
      modifies this
      ensures TIMSK == old(TIMSK) & !Bv(TOIE0)
      ensures !installed && rtcCount == old(rtcCount) && rtcMax == old(rtcMax) && fired == old(fired)
      ensures TCCR0 == old(TCCR0) && TCNT0 == old(TCNT0) && OCR0 == old(OCR0) && ASSR == old(ASSR)
    {
      TIMSK := TIMSK & !Bv(TOIE0);
      installed := false;
    }

    /**
     * The state setup of RTC_Delay(delayUnits) before its busy wait: overflow
     * interrupt on, the callback removed (and not restored), rtcCount =
     * delayUnits. The source saves the old callback in a local that it never
     * reads again, so the saved value has no effect and is not modelled. See
     * DelayNeverElapses for what the wait then sees.
     */
    method DelaySetup(delayUnits: U16)
      modifies this
      ensures TIMSK == old(TIMSK) | Bv(TOIE0)
      ensures !installed && rtcCount == delayUnits && rtcMax == old(rtcMax) && fired == old(fired)
      ensures TCCR0 == old(TCCR0) && TCNT0 == old(TCNT0) && OCR0 == old(OCR0) && ASSR == old(ASSR)
    {
      TIMSK := TIMSK | Bv(TOIE0);
      installed := false;
      rtcCount := delayUnits;
    }

    /** The SIG_OVERFLOW0 handler. */
    method Tick()
      modifies this
      ensures State() == RtcTick(old(State()))
      ensures TIMSK == old(TIMSK) && TCCR0 == old(TCCR0) && TCNT0 == old(TCNT0)
      ensures OCR0 == old(OCR0) && ASSR == old(ASSR)
    {
      if installed {
        rtcCount := Dec16(rtcCount);
        if rtcCount == 0 {
          rtcCount := rtcMax;
          fired := fired + 1;
        }
      }
    }
  }

  /**
   * RTC_Delay's wait `while (rtcCount > 0)`: once the setup has removed the
   * callback, no number of ticks changes rtcCount, so for delayUnits > 0 the
   * loop never ends.
   */
  lemma DelayNeverElapses(s: Counter, delayUnits: U16, n: nat)
    requires !s.installed && s.count == delayUnits && delayUnits > 0
    ensures RtcRun(s, n).count == delayUnits > 0
  {
    UninstalledIsFrozen(s, n);
  }
}
