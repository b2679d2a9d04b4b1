/**
 * The MegaBoard digital ports (MegaBoardLib/digitalio.c). PORT1 is one logical
 * 8-bit port spread over three AVR ports: bits 0-1 on port B, bits 2-3 on
 * port E and bits 4-7 on port D. PORT2 is the high nibble of port E, whose
 * pins double as the external interrupts INT4-INT7. Each port caches its
 * direction mode, so the data-direction registers are only rewritten on a
 * change of mode. The input pin registers are parameters of the reads.
 */
module DigitalIo {
  import opened Registers

  /** _MODE_INPUT_, _MODE_OUTPUT_ and _MODE_BITMODE_. */
  datatype Mode = Input | Output | BitMode

  /** Which PORT1 bits live on port B, port E and port D. */
  const BMask: Byte := 0x03
  const EMask: Byte := 0x0C
  const DMask: Byte := 0xF0

  /** A byte is determined by its bits under the three PORT1 masks. */
  lemma SlicesDetermine(x: Byte, y: Byte)
    requires x & BMask == y & BMask && x & EMask == y & EMask && x & DMask == y & DMask
    ensures x == y
  {
    assert x == (x & BMask) | (x & EMask) | (x & DMask);
    assert y == (y & BMask) | (y & EMask) | (y & DMask);
  }

  /** `(reg & ~mask) | (value & mask)`: the bits under mask from value, the rest kept. */
  function Merge(reg: Byte, value: Byte, mask: Byte): (r: Byte)
    ensures r & mask == value & mask
    ensures r & !mask == reg & !mask
  {
    (reg & !mask) | (value & mask)
  }

  /** A register with bit k set (bit true) or cleared; for k >= 8 the register is unchanged. */
  function WithBit(reg: Byte, k: nat, bit: bool): (r: Byte)
    ensures k < 8 ==> (BitSet(r, k) <==> bit)
    ensures r & !Bv(k) == reg & !Bv(k)
    ensures k >= 8 ==> r == reg
  {
    if bit then reg | Bv(k) else reg & !Bv(k)
  }

  /** The PORT1 value assembled from the three ports' bytes. */
  function Port1Value(b: Byte, e: Byte, d: Byte): (r: Byte)
    ensures r & BMask == b & BMask && r & EMask == e & EMask && r & DMask == d & DMask
  {
    (b & 0x03) | (e & 0x0C) | (d & 0xF0)
  }

  /** The output latches PORTB, PORTE and PORTD. */
  datatype Latches = Latches(b: Byte, e: Byte, d: Byte)

  /** IO_WritePort1's effect on the latches. */
  function Port1Write(l: Latches, value: Byte): (r: Latches)
    ensures r.b & !BMask == l.b & !BMask && r.e & !EMask == l.e & !EMask && r.d & !DMask == l.d & !DMask
  {
    Latches(Merge(l.b, value, BMask), Merge(l.e, value, EMask), Merge(l.d, value, DMask))
  }

  /** IO_WritePort1Bit's effect on the latches: bit n lives on the port that holds it in PORT1. */
  function Port1BitWrite(l: Latches, n: nat, bit: bool): (r: Latches)
    ensures n >= 8 ==> r == l
  {
    if n < 2 then l.(b := WithBit(l.b, n, bit))
    else if n < 4 then l.(e := WithBit(l.e, n, bit))
    else if n < 8 then l.(d := WithBit(l.d, n, bit))
    else l
  }

  /** Writing PORT1 puts every value bit at the same position of its latch: it reads back as value. */
  lemma Port1WriteReadsBack(l: Latches, value: Byte)
    ensures var r := Port1Write(l, value); Port1Value(r.b, r.e, r.d) == value
  {
    var r := Port1Write(l, value);
    SlicesDetermine(Port1Value(r.b, r.e, r.d), value);
  }

  /**
   * Writing one PORT1 bit changes the assembled PORT1 value in exactly that
   * bit, so the bit and whole-port writes agree on the bit layout.
   */
  lemma Port1BitWriteAgrees(l: Latches, n: nat, bit: bool)
    requires n < 8
    ensures var r := Port1BitWrite(l, n, bit);
      Port1Value(r.b, r.e, r.d) == WithBit(Port1Value(l.b, l.e, l.d), n, bit)
  {
    if n < 2 {
      BitOnPortB(l.b, l.e, l.d, n, bit);
    } else if n < 4 {
      BitOnPortE(l.b, l.e, l.d, n, bit);
    } else {
      BitOnPortD(l.b, l.e, l.d, n, bit);
    }
  }

  lemma BitOnPortB(b: Byte, e: Byte, d: Byte, n: nat, bit: bool)
    requires n < 2
    ensures Port1Value(WithBit(b, n, bit), e, d) == WithBit(Port1Value(b, e, d), n, bit)
  {
    assert Bv(n) & BMask == Bv(n);
  }

  lemma BitOnPortE(b: Byte, e: Byte, d: Byte, n: nat, bit: bool)
    requires 2 <= n < 4
    ensures Port1Value(b, WithBit(e, n, bit), d) == WithBit(Port1Value(b, e, d), n, bit)
  {
    assert Bv(n) & EMask == Bv(n);
  }

  lemma BitOnPortD(b: Byte, e: Byte, d: Byte, n: nat, bit: bool)
    requires 4 <= n < 8
    ensures Port1Value(b, e, WithBit(d, n, bit)) == WithBit(Port1Value(b, e, d), n, bit)
  {
    assert Bv(n) & DMask == Bv(n);
  }

  /** The 2-bit interrupt sense field f (0..3) of EICRB: bits 2f+1:2f. */
  function FieldMask(f: nat): (m: Byte)
    requires f < 4
  {
    (3 as Byte) << (2 * f)
  }

  /** EICRB with field f replaced by mode & 3. */
  function SetSenseField(reg: Byte, f: nat, mode: Byte): (r: Byte)
    requires f < 4
    ensures (r >> (2 * f)) & 3 == mode & 3
    ensures r & !FieldMask(f) == reg & !FieldMask(f)
  {
    (reg & !FieldMask(f)) | ((mode & 3) << (2 * f))
  }

  /** The literal masks IO_SetExtInterrupt uses are the four sense fields. */
  lemma SenseFieldLiterals(reg: Byte, mode: Byte)
    ensures SetSenseField(reg, 0, mode) == (reg & 0xFC) | (mode & 0x03)
    ensures SetSenseField(reg, 1, mode) == (reg & 0xF3) | ((mode & 0x03) << 2)
    ensures SetSenseField(reg, 2, mode) == (reg & 0xCF) | ((mode & 0x03) << 4)
    ensures SetSenseField(reg, 3, mode) == (reg & 0x3F) | ((mode & 0x03) << 6)
  {
    assert FieldMask(0) == 0x03 && FieldMask(1) == 0x0C && FieldMask(2) == 0x30 && FieldMask(3) == 0xC0;
  }

  /**
   * The board's port registers, the cached modes and the four external
   * interrupt handler slots extInterrupt0..3 (true when non-NULL).
   */
  class Board {
    var DDRB: Byte
    var DDRE: Byte
    var DDRD: Byte
    var PORTB: Byte
    var PORTE: Byte
    var PORTD: Byte
    var EICRB: Byte
    var EIMSK: Byte
    var port1Mode: Mode
    var port2Mode: Mode
    var handlers: seq<bool>

    ghost predicate Valid()
      reads this
    {
      |handlers| == 4
    }

    function Port1Latches(): Latches
      reads this
    {
      Latches(PORTB, PORTE, PORTD)
    }

    /** Reset state: registers 0, both modes _MODE_INPUT_, no handlers. */
    constructor ()
      ensures Valid() && handlers == [false, false, false, false]
      ensures DDRB == 0 && DDRE == 0 && DDRD == 0 && PORTB == 0 && PORTE == 0 && PORTD == 0
      ensures EICRB == 0 && EIMSK == 0 && port1Mode == Input && port2Mode == Input
    {
      DDRB, DDRE, DDRD := 0, 0, 0;
      PORTB, PORTE, PORTD := 0, 0, 0;
      EICRB, EIMSK := 0, 0;
      port1Mode, port2Mode := Input, Input;
      handlers := [false, false, false, false];
    }

    /**
     * IO_ReadPort1: on a change of mode the PORT1 pins become inputs; the
     * result takes bits 0-1 from PINB, 2-3 from PINE and 4-7 from PINF.
     */
    method ReadPort1(pinb: Byte, pine: Byte, pinf: Byte) returns (r: Byte)
      modifies this
      ensures r & BMask == pinb & BMask && r & EMask == pine & EMask && r & DMask == pinf & DMask
      ensures port1Mode == Input
      ensures old(port1Mode) != Input ==>
        DDRB == old(DDRB) & !BMask && DDRE == old(DDRE) & !EMask && DDRD == old(DDRD) & !DMask
      ensures old(port1Mode) == Input ==>
        DDRB == old(DDRB) && DDRE == old(DDRE) && DDRD == old(DDRD)
      ensures Port1Latches() == old(Port1Latches()) && port2Mode == old(port2Mode)
      ensures EICRB == old(EICRB) && EIMSK == old(EIMSK) && handlers == old(handlers)
    {
      if port1Mode != Input {
        port1Mode := Input;
        DDRB := DDRB & 0xFC;
        DDRE := DDRE & 0xF3;
        DDRD := DDRD & 0x0F;
      }
      r := (pinb & 0x03) | (pine & 0x0C) | (pinf & 0xF0);
    }

    /**
     * IO_ReadPort1Bit: `PINx & _BV(n)>>(n)` parses as `PINx & (_BV(n)>>n)`,
     * that is `PINx & 1`: the result is bit 0 of the pin register that holds
     * bit n, not bit n. The pin's direction bit is cleared; n >= 8 returns 0.
     */
    method ReadPort1Bit(n: U8, pinb: Byte, pine: Byte, pind: Byte) returns (r: Byte)
      modifies this
      ensures r <= 1
      ensures n < 2 ==> r == pinb & 1 && DDRB == old(DDRB) & !Bv(n) && DDRE == old(DDRE) && DDRD == old(DDRD)
      ensures 2 <= n < 4 ==> r == pine & 1 && DDRE == old(DDRE) & !Bv(n) && DDRB == old(DDRB) && DDRD == old(DDRD)
      ensures 4 <= n < 8 ==> r == pind & 1 && DDRD == old(DDRD) & !Bv(n) && DDRB == old(DDRB) && DDRE == old(DDRE)
      ensures n >= 8 ==> r == 0 && DDRB == old(DDRB) && DDRE == old(DDRE) && DDRD == old(DDRD)
      ensures port1Mode == BitMode
      ensures Port1Latches() == old(Port1Latches()) && port2Mode == old(port2Mode)
      ensures EICRB == old(EICRB) && EIMSK == old(EIMSK) && handlers == old(handlers)
    {
      port1Mode := BitMode;
      if n < 2 {
        DDRB := DDRB & !Bv(n);
        return pinb & (Bv(n) >> n);
      } else if n < 4 {
        DDRE := DDRE & !Bv(n);
        return pine & (Bv(n) >> n);
      } else if n < 8 {
        DDRD := DDRD & !Bv(n);
        return pind & (Bv(n) >> n);
      }
      return 0;
    }

    /**
     * IO_WritePort1: on a change of mode the PORT1 pins become outputs; every
     * value bit goes to the same position of its port, nothing else changes.
     */
    method WritePort1(value: Byte)
      modifies this
      ensures Port1Latches() == Port1Write(old(Port1Latches()), value)
      ensures port1Mode == Output
      ensures old(port1Mode) != Output ==>
        DDRB == old(DDRB) | BMask && DDRE == old(DDRE) | EMask && DDRD == old(DDRD) | DMask
      ensures old(port1Mode) == Output ==>
        DDRB == old(DDRB) && DDRE == old(DDRE) && DDRD == old(DDRD)
      ensures port2Mode == old(port2Mode)
      ensures EICRB == old(EICRB) && EIMSK == old(EIMSK) && handlers == old(handlers)
    {
      if port1Mode != Output {
        port1Mode := Output;
        DDRB := DDRB | 0x03;
        DDRE := DDRE | 0x0C;
        DDRD := DDRD | 0xF0;
      }
      PORTB := (PORTB & 0xFC) | (value & 0x03);
      PORTE := (PORTE & 0xF3) | (value & 0x0C);
      PORTD := (PORTD & 0x0F) | (value & 0xF0);
    }

    /**
     * IO_WritePort1Bit: for n < 8 the pin of PORT1 bit n becomes an output and
     * its latch bit becomes (bitValue != 0); for n >= 8 only the mode changes.
     */
    method WritePort1Bit(bitValue: Byte, n: U8)
      modifies this
      ensures Port1Latches() == Port1BitWrite(old(Port1Latches()), n, bitValue != 0)
      ensures n < 2 ==> DDRB == old(DDRB) | Bv(n) && DDRE == old(DDRE) && DDRD == old(DDRD)
      ensures 2 <= n < 4 ==> DDRE == old(DDRE) | Bv(n) && DDRB == old(DDRB) && DDRD == old(DDRD)
      ensures 4 <= n < 8 ==> DDRD == old(DDRD) | Bv(n) && DDRB == old(DDRB) && DDRE == old(DDRE)
      ensures n >= 8 ==> DDRB == old(DDRB) && DDRE == old(DDRE) && DDRD == old(DDRD)
      ensures port1Mode == BitMode
      ensures port2Mode == old(port2Mode)
      ensures EICRB == old(EICRB) && EIMSK == old(EIMSK) && handlers == old(handlers)
    {
      port1Mode := BitMode;
      if n < 2 {
        DDRB := DDRB | Bv(n);
        PORTB := WithBit(PORTB, n, bitValue != 0);
      } else if n < 4 {
        DDRE := DDRE | Bv(n);
        PORTE := WithBit(PORTE, n, bitValue != 0);
      } else if n < 8 {
        DDRD := DDRD | Bv(n);
        PORTD := WithBit(PORTD, n, bitValue != 0);
      }
    }

    /** IO_ReadPort2: on a change of mode PORT2 becomes input; the result is the high nibble of PINE. */
    method ReadPort2(pine: Byte) returns (r: Byte)
      modifies this
      ensures r < 16 && r as int == pine as int / 16
      ensures port2Mode == Input
      ensures old(port2Mode) != Input ==> DDRE == old(DDRE) & 0x0F
      ensures old(port2Mode) == Input ==> DDRE == old(DDRE)
      ensures DDRB == old(DDRB) && DDRD == old(DDRD) && Port1Latches() == old(Port1Latches())
      ensures port1Mode == old(port1Mode)
      ensures EICRB == old(EICRB) && EIMSK == old(EIMSK) && handlers == old(handlers)
    {
      if port2Mode != Input {
        DDRE := DDRE & 0x0F;
        port2Mode := Input;
      }
      r := pine >> 4;
    }

    /**
     * IO_ReadPort2Bit: for n < 4 the pin PE(n+4) becomes an input, but the bit
     * returned is bit n+4 of PINB; n >= 4 returns 0.
     */
    method ReadPort2Bit(n: U8, pinb: Byte) returns (r: Byte)
      modifies this
      ensures r <= 1
      ensures n < 4 ==> (r == 1 <==> BitSet(pinb, n + 4)) && DDRE == old(DDRE) & !Bv(n + 4)
      ensures n >= 4 ==> r == 0 && DDRE == old(DDRE)
      ensures port2Mode == BitMode
      ensures DDRB == old(DDRB) && DDRD == old(DDRD) && Port1Latches() == old(Port1Latches())
      ensures port1Mode == old(port1Mode)
      ensures EICRB == old(EICRB) && EIMSK == old(EIMSK) && handlers == old(handlers)
    {
      port2Mode := BitMode;
      if n < 4 {
        DDRE := DDRE & !Bv(n + 4);
        return (pinb & Bv(n + 4)) >> (n + 4);
      }
      return 0;
    }

    /**
     * IO_WritePort2: on a change of mode PORT2 becomes output; PORTE becomes
     * exactly the value's low nibble shifted up, so its low nibble is zeroed.
     */
    method WritePort2(value: Byte)
      modifies this
      ensures PORTE >> 4 == value & 0x0F && PORTE & 0x0F == 0
      ensures port2Mode == Output
      ensures old(port2Mode) != Output ==> DDRE == old(DDRE) | 0xF0
      ensures old(port2Mode) == Output ==> DDRE == old(DDRE)
      ensures DDRB == old(DDRB) && DDRD == old(DDRD) && PORTB == old(PORTB) && PORTD == old(PORTD)
      ensures port1Mode == old(port1Mode)
      ensures EICRB == old(EICRB) && EIMSK == old(EIMSK) && handlers == old(handlers)
    {
      if port2Mode != Output {
        DDRE := DDRE | 0xF0;
        port2Mode := Output;
      }
      PORTE := (value & 0x0F) << 4;
    }

    /** IO_WritePort2Bit: for n < 4 pin PE(n+4) becomes an output and its latch bit becomes (value != 0). */
    method WritePort2Bit(value: Byte, n: U8)
      modifies this
      ensures n < 4 ==> PORTE == WithBit(old(PORTE), n + 4, value != 0) && DDRE == old(DDRE) | Bv(n + 4)
      ensures n >= 4 ==> PORTE == old(PORTE) && DDRE == old(DDRE)
      ensures port2Mode == BitMode
      ensures DDRB == old(DDRB) && DDRD == old(DDRD) && PORTB == old(PORTB) && PORTD == old(PORTD)
      ensures port1Mode == old(port1Mode)
      ensures EICRB == old(EICRB) && EIMSK == old(EIMSK) && handlers == old(handlers)
    {
      port2Mode := BitMode;
      if n < 4 {
        DDRE := DDRE | Bv(n + 4);
        PORTE := WithBit(PORTE, n + 4, value != 0);
      }
    }

    /**
     * IO_SetExtInterrupt(n, mode, fptr) for n in 1..4: sense field n-1 of
     * EICRB becomes mode & 3, pin PE(n+4) becomes an input, handler slot n-1
     * is set to fptr and EIMSK bit n+4 is set; for n = 4 that bit is outside
     * the byte, so DDRE and EIMSK do not change. Any other n changes nothing.
     */
    method SetExtInterrupt(n: U8, mode: Byte, fptr: bool)
      requires Valid()
      modifies this
      ensures Valid()
      ensures 1 <= n <= 4 ==>
        EICRB == SetSenseField(old(EICRB), n - 1, mode) &&
        DDRE == old(DDRE) & !Bv(n + 4) && EIMSK == old(EIMSK) | Bv(n + 4) &&
        handlers == old(handlers)[n - 1 := fptr]
      ensures n == 4 ==> DDRE == old(DDRE) && EIMSK == old(EIMSK)
      ensures !(1 <= n <= 4) ==>
        EICRB == old(EICRB) && DDRE == old(DDRE) && EIMSK == old(EIMSK) && handlers == old(handlers)
      ensures DDRB == old(DDRB) && DDRD == old(DDRD) && Port1Latches() == old(Port1Latches())
      ensures port1Mode == old(port1Mode) && port2Mode == old(port2Mode)
    {
      if 1 <= n <= 4 {
        EnableLine(n, mode, fptr);
      }
    }

    /**
     * The common shape of IO_SetExtInterrupt's four branches, for interrupt
     * number n; their literal masks are the sense fields (SenseFieldLiterals).
     */
    method EnableLine(n: U8, mode: Byte, fptr: bool)
      requires Valid() && 1 <= n <= 4
      modifies this
      ensures Valid()
      ensures EICRB == SetSenseField(old(EICRB), n - 1, mode)
      ensures DDRE == old(DDRE) & !Bv(n + 4) && EIMSK == old(EIMSK) | Bv(n + 4)
      ensures handlers == old(handlers)[n - 1 := fptr]
      ensures DDRB == old(DDRB) && DDRD == old(DDRD) && Port1Latches() == old(Port1Latches())
      ensures port1Mode == old(port1Mode) && port2Mode == old(port2Mode)
    {
      EICRB := SetSenseField(EICRB, n - 1, mode);
      DDRE := DDRE & !Bv(n + 4);
      handlers := handlers[n - 1 := fptr];
      EIMSK := EIMSK | Bv(n + 4);
    }

    /** IO_ResetExtInterrupt(n): for n < 4 EIMSK bit n+4 is cleared; otherwise nothing changes. */
    method ResetExtInterrupt(n: U8)
      modifies this
      ensures n < 4 ==> EIMSK == old(EIMSK) & !Bv(n + 4)
      ensures n >= 4 ==> EIMSK == old(EIMSK)
      ensures EICRB == old(EICRB) && handlers == old(handlers)
      ensures DDRB == old(DDRB) && DDRE == old(DDRE) && DDRD == old(DDRD)
      ensures Port1Latches() == old(Port1Latches())
      ensures port1Mode == old(port1Mode) && port2Mode == old(port2Mode)
    {
      if n < 4 {
        EIMSK := EIMSK & !Bv(n + 4);
      }
    }
  }

  /**
   * The mode cache: a second IO_WritePort1 leaves the direction registers as
   * the first one left them, and its latches hold the second value.
   */
  method WritePort1Twice(io: Board, v: Byte, w: Byte)
    modifies io
    ensures io.port1Mode == Output
    ensures io.Port1Latches() == Port1Write(Port1Write(old(io.Port1Latches()), v), w)
    ensures Port1Value(io.PORTB, io.PORTE, io.PORTD) == w
    ensures old(io.port1Mode) == Output ==>
      io.DDRB == old(io.DDRB) && io.DDRE == old(io.DDRE) && io.DDRD == old(io.DDRD)
    ensures old(io.port1Mode) != Output ==>
      io.DDRB == old(io.DDRB) | BMask && io.DDRE == old(io.DDRE) | EMask && io.DDRD == old(io.DDRD) | DMask
  {
    io.WritePort1(v);
    io.WritePort1(w);
    Port1WriteReadsBack(Port1Write(old(io.Port1Latches()), v), w);
  }
}
