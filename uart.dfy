/**
 * The receive side of the two serial ports (ATmega128Lib/uart0.c and
 * ATmega128Lib/uart1.c, which are the same code with 0 and 1 swapped): block
 * reads into the receive buffer, a terminated string read, and the receive
 * interrupt. The bytes the port receives are an input sequence; a read that
 * runs out of input is one still waiting for the next byte.
 */
module Uart {
  import opened Registers

  /** RXCIE0 in UCSR0B and RXCIE1 in UCSR1B are both bit 7 on the ATmega128. */
  const RXCIE: nat := 7

  /** Receive buffer sizes for which the byte-wide indices of the source cannot wrap. */
  predicate BufferSize(cap: nat) {
    1 <= cap <= 0xFF
  }

  /**
   * Where a string read starting at position pos stops, with position limit:
   * the first position p from pos on whose byte is termChar, or p == limit.
   * None when the input runs out first, so the read is still waiting. At the
   * stop, bytes pos..p-1 have been stored, byte p has been consumed, and the
   * '\0' goes to index p.
   */
  function Stop(input: seq<Byte>, term: Byte, limit: nat, pos: nat): (r: Option<nat>)
    requires pos <= limit
    ensures r.Some? ==>
      pos <= r.value <= limit && r.value < |input| &&
      (input[r.value] == term || r.value == limit) &&
      forall j :: pos <= j < r.value ==> input[j] != term
    ensures r.None? ==>
      |input| <= limit && forall j :: pos <= j < |input| ==> input[j] != term
    decreases limit - pos
  {
    if pos >= |input| then None
    else if input[pos] == term || pos == limit then Some(pos)
    else Stop(input, term, limit, pos + 1)
  }

  /** Any stop at or after pos that meets the stopping rule and has no earlier termChar is the stop. */
  lemma {:induction false} StopIsFirst(input: seq<Byte>, term: Byte, limit: nat, pos: nat, p: nat)
    requires pos <= p <= limit && p < |input|
    requires input[p] == term || p == limit
    requires forall j :: pos <= j < p ==> input[j] != term
    ensures Stop(input, term, limit, pos) == Some(p)
    decreases p - pos
  {
    if pos < p {
      StopIsFirst(input, term, limit, pos + 1, p);
    }
  }

  /**
   * The string read AS WRITTEN tests `rxPos == RXnBUFFERSIZE` as its limit.
   * When termChar does not occur among the first cap + 1 bytes, it stops at
   * index cap and writes the '\0' there: one past a buffer of cap bytes.
   */
  lemma ReadStringAsWrittenOverruns(input: seq<Byte>, term: Byte, cap: nat)
    requires BufferSize(cap) && |input| > cap
    requires forall j :: 0 <= j <= cap ==> input[j] != term
    ensures Stop(input, term, cap, 0) == Some(cap)
  {
    StopIsFirst(input, term, cap, 0, cap);
  }

  /**
   * One serial port's receive side: rxnBuffer of cap bytes, UCSRnB, whether
   * a receive handler rxnInterrupt is installed, and the bytes handed to it.
   */
  class Port {
    /** rxnBuffer, RXnBUFFERSIZE bytes */
    const buffer: array<Byte>
    const cap: nat
    var UCSRB: Byte
    var installed: bool
    var delivered: seq<Byte>

    ghost predicate Valid()
      reads this
    {
      BufferSize(cap) && buffer.Length == cap
    }

    /** A port with a zeroed buffer of RXnBUFFERSIZE bytes and no handler. */
    constructor (size: nat)
      requires BufferSize(size)
      ensures Valid() && fresh(buffer) && cap == size
      ensures buffer[..] == seq(size, _ => 0) && UCSRB == 0 && !installed && delivered == []
    {
      cap := size;
      buffer := new Byte[size](_ => 0);
      UCSRB := 0;
      installed := false;
      delivered := [];
    }

    /**
     * UartN_ReadBytes(size): receives min(size, cap) bytes into the front of
     * the buffer, in order, and leaves the later slots alone. done is false
     * when the input ends first, the read still waiting for the next byte.
     */
    method ReadBytes(size: U8, input: seq<Byte>) returns (done: bool, stored: nat)
      requires Valid()
      modifies buffer
      ensures done <==> |input| >= Min(size, cap)
      ensures stored == (if done then Min(size, cap) else |input|)
      ensures buffer[..stored] == input[..stored]
      ensures buffer[stored..] == old(buffer[stored..])
    {
      var i := 0;
      while i < size && i < cap
        invariant i <= Min(size, cap) && i <= |input|
        invariant buffer[..i] == input[..i]
        invariant buffer[i..] == old(buffer[i..])
      {
        if i >= |input| {
          // no further byte arrives: the wait for RXC never ends
          return false, i;
        }
        buffer[i] := input[i];
        i := i + 1;
      }
      return true, i;
    }

    /**
     * UartN_ReadString(termChar) with the limit that keeps the '\0' inside
     * the buffer: bytes are stored until termChar (not stored) or until
     * cap - 1 bytes are stored, then '\0' follows them. done is false when
     * the input ends first, the read still waiting.
     */
    method ReadString(term: Byte, input: seq<Byte>) returns (done: bool, stored: nat)
      requires Valid()
      modifies buffer
      ensures done <==> Stop(input, term, cap - 1, 0).Some?
      ensures done ==> stored == Stop(input, term, cap - 1, 0).value
      ensures !done ==> stored == |input|
      ensures stored < cap && buffer[..stored] == input[..stored]
      ensures done ==> buffer[stored] == 0 && buffer[stored + 1..] == old(buffer[stored + 1..])
      ensures !done ==> buffer[stored..] == old(buffer[stored..])
    {
      var rxPos := 0;
      while rxPos < |input|
        invariant rxPos <= cap - 1 && rxPos <= |input|
        invariant Stop(input, term, cap - 1, rxPos) == Stop(input, term, cap - 1, 0)
        invariant buffer[..rxPos] == input[..rxPos]
        invariant buffer[rxPos..] == old(buffer[rxPos..])
        decreases |input| - rxPos
      {
        var data := input[rxPos];
        if data == term || rxPos == cap - 1 {
          buffer[rxPos] := 0;
          assert buffer[rxPos + 1..] == old(buffer[rxPos..])[1..];
          return true, rxPos;
        }
        buffer[rxPos] := data;
        rxPos := rxPos + 1;
      }
      return false, rxPos;
    }

    /** UartN_SetReceiveInterrupt(fptr): the RXCIE bit set, fptr installed (true when non-NULL). */
    method SetReceiveInterrupt(fptr: bool)
      modifies this
      ensures UCSRB == old(UCSRB) | Bv(RXCIE) && installed == fptr && delivered == old(delivered)
    {
      UCSRB := UCSRB | Bv(RXCIE);
      installed := fptr;
    }

    /** UartN_ResetReceiveInterrupt: the RXCIE bit cleared, no handler. */
    method ResetReceiveInterrupt()
      modifies this
      ensures UCSRB == old(UCSRB) & !Bv(RXCIE) && !installed && delivered == old(delivered)
    {
      UCSRB := UCSRB & !Bv(RXCIE);
      installed := false;
    }

    /** SIG_UARTn_RECV with received byte data: handed to the handler when one is installed. */
    method ReceiveInterrupt(data: Byte)
      modifies this
      ensures delivered == (if old(installed) then old(delivered) + [data] else old(delivered))
      ensures UCSRB == old(UCSRB) && installed == old(installed)
    {
      if installed {
        delivered := delivered + [data];
      }
    }
  }

  /** The stored string never contains termChar, and it is a prefix of what was received. */
  lemma StoredPrefixExcludesTerm(input: seq<Byte>, term: Byte, cap: nat)
    requires BufferSize(cap)
    ensures var r := Stop(input, term, cap - 1, 0);
      r.Some? ==> r.value < cap && term !in input[..r.value]
  {
    var r := Stop(input, term, cap - 1, 0);
    if r.Some? {
      assert forall j :: 0 <= j < r.value ==> input[..r.value][j] == input[j];
    }
  }

  /**
   * When termChar arrives within the first cap - 1 bytes, the corrected read
   * stops exactly there: the stored string is everything before the first
   * termChar, and the terminator is consumed.
   */
  lemma StopsAtFirstTerm(input: seq<Byte>, term: Byte, cap: nat, p: nat)
    requires BufferSize(cap) && p < cap && p < |input| && input[p] == term
    requires term !in input[..p]
    ensures Stop(input, term, cap - 1, 0) == Some(p)
  {
    assert forall j :: 0 <= j < p ==> input[j] == input[..p][j];
    StopIsFirst(input, term, cap - 1, 0, p);
  }
}
