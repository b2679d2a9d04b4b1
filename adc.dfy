/**
 * The analog-to-digital converter driver (ATmega128Lib/adc.c): single
 * readings, a sweep over the eight channels, and free-running mode in which
 * the conversion-complete interrupt stores each result and moves the
 * multiplexer on to the next channel. Each conversion result is an input: the
 * pair of data registers ADCL and ADCH the hardware presents when the
 * conversion ends.
 */
module Adc {
  import opened Registers

  const ChannelCount: nat := 8

  /** Bit positions in ADCSRA on the ATmega128. */
  const ADEN: nat := 7
  const ADSC: nat := 6
  const ADIE: nat := 3
  const ADPS2: nat := 2
  const ADPS1: nat := 1

  /** `_BV(ADEN)|_BV(ADPS2)|_BV(ADPS1)`: converter enabled, clock prescaler 64. */
  function EnabledControl(): (r: Byte)
    ensures BitSet(r, ADEN) && !BitSet(r, ADSC) && !BitSet(r, ADIE)
  {
    Bv(ADEN) | Bv(ADPS2) | Bv(ADPS1)
  }

  /** The data registers at the end of one conversion. */
  datatype Conversion = Conversion(adcl: Byte, adch: Byte)

  /**
   * `ADCL | (ADCH << 8)`: the two registers side by side. The shifted ADCH
   * has no bit in common with ADCL, so the OR is ADCL + 256 * ADCH (OrIsSum).
   * With the
   * result right-adjusted the hardware puts at most two bits in ADCH, so the
   * value is a 10-bit reading.
   */
  function Result(c: Conversion): (r: U16)
    ensures r % 256 == c.adcl as int && r / 256 == c.adch as int
    ensures c.adch <= 3 ==> r < 1024
  {
    c.adcl as int + 256 * c.adch as int
  }

  /** The C expression itself, on 16-bit values, is the sum Result computes. */
  lemma OrIsSum(c: Conversion)
    ensures ((c.adcl as bv16) | ((c.adch as bv16) << 8)) as int == Result(c)
  {
    Disjoint(c.adcl, c.adch);
    OrLowByte((c.adch as bv16) << 8, c.adcl);
    HighByte(c.adch);
  }

  /** The shifted high byte leaves the low byte clear, and the OR may be taken either way round. */
  lemma Disjoint(l: Byte, h: Byte)
    ensures ((h as bv16) << 8) & 0xFF == 0
    ensures (l as bv16) | ((h as bv16) << 8) == ((h as bv16) << 8) | l as bv16
  {
  }

  /** A byte ORed into a 16-bit value whose low byte is clear is added to it. */
  lemma OrLowByte(hi: bv16, l: Byte)
    requires hi & 0xFF == 0
    ensures (hi | l as bv16) as int == hi as int + l as int
  {
  }

  /** `b << 8` in 16 bits is 256 * b. */
  lemma HighByte(b: Byte)
    ensures ((b as bv16) << 8) as int == 256 * b as int
  {
  }

  /** The result stored in the 16-bit `int` Adc_ReadInput returns. */
  function AsInt16(u: U16): (r: I16)
    ensures r % 0x1_0000 == u % 0x1_0000
    ensures u < 0x8000 ==> r == u
  {
    if u < 0x8000 then u else u - 0x1_0000
  }

  /** A 10-bit sample split by the hardware into ADCL (low 8 bits) and ADCH reads back unchanged. */
  lemma SampleRoundTrip(sample: nat)
    requires sample < 1024
    ensures var c := Conversion((sample % 256) as Byte, (sample / 256) as Byte);
      c.adch <= 3 && Result(c) == sample
  {
  }

  /** `(++muxValue) & 0x07` for the byte muxValue: the next channel. */
  function NextChannel(mux: Byte): (r: Byte)
    requires mux < 8
    ensures r < 8 && r as int == (mux as int + 1) % ChannelCount
  {
    (mux + 1) & 0x07
  }

  /** The results of a sweep over conversions cs, in order. */
  function Results(cs: seq<Conversion>): (r: seq<U16>)
    ensures |r| == |cs| && forall i :: 0 <= i < |cs| ==> r[i] == Result(cs[i])
  {
    seq(|cs|, i requires 0 <= i < |cs| => Result(cs[i]))
  }

  /** adcInputs and ADMUX as the interrupt sees them. */
  datatype Sweep = Sweep(inputs: seq<U16>, mux: Byte)

  predicate WellFormed(s: Sweep) {
    |s.inputs| == ChannelCount && s.mux < 8
  }

  /** One SIG_ADC interrupt with conversion c. */
  function HandlerStep(s: Sweep, c: Conversion): (t: Sweep)
    requires WellFormed(s)
    ensures WellFormed(t)
  {
    Sweep(s.inputs[s.mux := Result(c)], NextChannel(s.mux))
  }

  /** The interrupts for conversions cs, in order. */
  function HandlerRun(s: Sweep, cs: seq<Conversion>): (t: Sweep)
    requires WellFormed(s)
    ensures WellFormed(t)
    decreases |cs|
  {
    if |cs| == 0 then s else HandlerRun(HandlerStep(s, cs[0]), cs[1..])
  }

  lemma {:induction false} HandlerRunAppend(s: Sweep, cs: seq<Conversion>, c: Conversion)
    requires WellFormed(s)
    ensures HandlerRun(s, cs + [c]) == HandlerStep(HandlerRun(s, cs), c)
    decreases |cs|
  {
    if |cs| == 0 {
      assert cs + [c] == [c];
      assert HandlerRun(HandlerStep(s, c), []) == HandlerStep(s, c);
    } else {
      assert (cs + [c])[1..] == cs[1..] + [c];
      HandlerRunAppend(HandlerStep(s, cs[0]), cs[1..], c);
    }
  }

  /**
   * Free-running mode from channel 0 (Adc_TakeContinousReadings): after k <= 8
   * interrupts the first k slots hold the k results in channel order, the
   * rest are untouched, and the multiplexer is on channel k mod 8.
   */
  lemma {:induction false} ContinuousFillsInOrder(s: Sweep, cs: seq<Conversion>)
    requires WellFormed(s) && s.mux == 0 && |cs| <= ChannelCount
    ensures var t := HandlerRun(s, cs);
      t.mux as int == |cs| % ChannelCount &&
      (forall i :: 0 <= i < |cs| ==> t.inputs[i] == Result(cs[i])) &&
      (forall i :: |cs| <= i < ChannelCount ==> t.inputs[i] == s.inputs[i])
    decreases |cs|
  {
    if |cs| > 0 {
      var k := |cs| - 1;
      var front := cs[..k];
      assert cs == front + [cs[k]];
      ContinuousFillsInOrder(s, front);
      HandlerRunAppend(s, front, cs[k]);
      var u := HandlerRun(s, front);
      assert front[..] == cs[..k];
      assert forall i :: 0 <= i < k ==> u.inputs[i] == Result(cs[i]);
    }
  }

  /** Eight interrupts from channel 0 fill adcInputs exactly as Adc_ReadAllInputs does and wrap ADMUX to 0. */
  lemma ContinuousSweepMatchesReadAll(s: Sweep, cs: seq<Conversion>)
    requires WellFormed(s) && s.mux == 0 && |cs| == ChannelCount
    ensures HandlerRun(s, cs) == Sweep(Results(cs), 0)
  {
    ContinuousFillsInOrder(s, cs);
    var t := HandlerRun(s, cs);
    assert t.inputs == Results(cs);
  }

  /** The ADC registers and the adcInputs buffer. */
  class Converter {
    /** adcInputs */
    const inputs: array<U16>
    var ADMUX: Byte
    var ADCSRA: Byte

    ghost predicate Valid()
      reads this
    {
      inputs.Length == ChannelCount && ADMUX < 8
    }

    function State(): Sweep
      reads this, inputs
    {
      Sweep(inputs[..], ADMUX)
    }

    /** Reset state: both registers 0 and adcInputs zero-initialised. */
    constructor ()
      ensures Valid() && fresh(inputs)
      ensures inputs[..] == [0, 0, 0, 0, 0, 0, 0, 0] && ADMUX == 0 && ADCSRA == 0
    {
      inputs := new U16[8](_ => 0);
      ADMUX := 0;
      ADCSRA := 0;
    }

    /** Adc_Init's converter state: enabled, prescaler set, channel 0. */
    method Init()
      requires Valid()
      modifies this
      ensures Valid() && ADCSRA == EnabledControl() && ADMUX == 0
    {
      ADCSRA := Bv(ADEN) | Bv(ADPS2) | Bv(ADPS1);
      ADMUX := 0;
    }

    /**
     * Adc_ReadInput(channel): -1 for a channel above 7 with the multiplexer
     * and the buffer untouched; otherwise a conversion on that channel, whose
     * result is returned. The wait for ADSC to clear becomes the conversion c.
     */
    method ReadInput(channel: U8, c: Conversion) returns (r: I16)
      requires Valid()
      modifies this
      ensures Valid() && inputs[..] == old(inputs[..])
      ensures channel > 7 ==> r == -1 && ADMUX == old(ADMUX) && ADCSRA == EnabledControl()
      ensures channel <= 7 ==>
        r == AsInt16(Result(c)) && ADMUX as int == channel && ADCSRA == EnabledControl()
      ensures channel <= 7 && c.adch <= 3 ==> 0 <= r < 1024
    {
      ADCSRA := Bv(ADEN) | Bv(ADPS2) | Bv(ADPS1);
      if channel > 7 {
        return -1;
      }
      ADMUX := channel as Byte;
      ADCSRA := ADCSRA | Bv(ADSC);
      // the conversion runs; the hardware clears ADSC when the result is ready
      ADCSRA := ADCSRA & !Bv(ADSC);
      r := AsInt16(Result(c));
    }

    /**
     * Adc_ReadAllInputs: one conversion per channel in channel order, each
     * stored in its own slot of adcInputs.
     */
    method ReadAllInputs(cs: seq<Conversion>)
      requires Valid() && |cs| == ChannelCount
      modifies this, inputs
      ensures Valid()
      ensures inputs[..] == Results(cs)
      ensures ADMUX == 7 && ADCSRA == EnabledControl()
    {
      ADCSRA := Bv(ADEN) | Bv(ADPS2) | Bv(ADPS1);
      var mux: Byte := 0;
      while mux < 8
        invariant mux <= 8 && ADMUX < 8
        invariant mux > 0 ==> ADMUX == mux - 1
        invariant ADCSRA == EnabledControl()
        invariant forall i :: 0 <= i < mux as int ==> inputs[i] == Result(cs[i])
      {
        ADMUX := mux & 0x07;
        ADCSRA := ADCSRA | Bv(ADSC);
        ADCSRA := ADCSRA & !Bv(ADSC);
        inputs[mux] := Result(cs[mux]);
        mux := mux + 1;
      }
    }

    /** Adc_TakeContinousReadings: channel 0, conversion-complete interrupt on, first conversion started. */
    method TakeContinuousReadings()
      requires Valid()
      modifies this
      ensures Valid() && ADMUX == 0
      ensures ADCSRA == old(ADCSRA) | Bv(ADIE) | Bv(ADSC)
    {
      ADMUX := 0;
      ADCSRA := ADCSRA | Bv(ADIE);
      ADCSRA := ADCSRA | Bv(ADSC);
    }

    /**
     * The SIG_ADC handler with conversion c: only the current channel's slot
     * is written, the multiplexer moves on, the next conversion starts. The
     * local's increment past 7 back to 0 is never read afterwards.
     */
    method Handler(c: Conversion)
      requires Valid()
      modifies this, inputs
      ensures Valid()
      ensures State() == HandlerStep(old(State()), c)
      ensures ADCSRA == old(ADCSRA) | Bv(ADSC)
    {
      var mux := ADMUX;
      inputs[mux] := Result(c);
      mux := mux + 1;
      ADMUX := mux & 0x07;
      if mux == 7 {
        mux := 0;
      }
      ADCSRA := ADCSRA | Bv(ADSC);
    }
  }
}
