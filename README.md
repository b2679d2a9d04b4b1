# avr_lib drivers, modelled in Dafny

This project models the interrupt-driven core of an ATmega128 robotics board library:

- **Stepper motion controller** (`MegaBoardLib/stepper.c`). Move commands load a step count. The timer-1 compare-A interrupt then alternates leading and trailing step-pulse edges on PORTA bits 6 and 3, masked by a wheel filter. It moves one step from `stepsToTake` to `stepsTaken` on each leading edge, and it reprograms the timer period from a trapezoidal ramp table.
- **Servo pulse generator** (`MegaBoardLib/servo.c`). A round-robin over eight servo outputs, in two phases per servo.
- **Real-time counter** (`ATmega128Lib/rtc.c`). A countdown with reload that calls a user callback every `count` ticks.
- **Digital I/O** (`MegaBoardLib/digitalio.c`). A logical 8-bit port spread over ports B, E and D, a 4-bit port in the high nibble of port E, a cached direction mode per port, and the external-interrupt sense fields.
- **ADC** (`ATmega128Lib/adc.c`). Single reads, an eight-channel sweep, and the free-running interrupt that walks the multiplexer round the channels.
- **UART receive side** (`ATmega128Lib/uart0.c` and `ATmega128Lib/uart1.c`). Block reads, terminated string reads and the receive interrupt.

Registers are `bv8` values (`Registers.Byte`). C `unsigned int` variables are 16-bit subset types, and their wrap-around is written out (`Dec16`, `Inc16`, `Add16`). `_BV(k)` is `Registers.Bv`; when k ≥ 8 its bit falls outside an 8-bit register, so `Bv` returns 0.

Each driver is a class whose fields are the registers and globals the C code updates. Each interrupt handler is a method, and its `ensures` ties the new state to a pure step function (`Stepper.TickState`, `Servo.Step`, `Rtc.RtcTick`, `Adc.HandlerStep`). Behaviour over many ticks is proved as lemmas about repeated application of those functions:

- a move of s steps takes exactly 2s ticks;
- a move of more than twice RAMPDURATION steps cruises at rampArray[(RAMPDURATION-1)/RAMPINTERVAL], which is the table's last entry when the window reaches the last stage;
- sixteen servo interrupts are one frame;
- the RTC callback fires on every c-th tick;
- eight ADC interrupts fill the input table the way `Adc_ReadAllInputs` does.

The following are parameters:

- constants the repository does not define: `RAMPARRAY`, `RAMPDURATION`, `RAMPINTERVAL`, `START_VALUE`, `END_VALUE`, the receive buffer sizes, `FORWARD` and `LEFT`;
- input pin registers;
- conversion results;
- received bytes.

Bit positions of the ATmega128 control registers (OCIE1A = 4, TOIE0 = 0, OCIE0 = 1, AS0 = 3, ADEN = 7, ADSC = 6, ADIE = 3, ADPS2 = 2, ADPS1 = 1, RXCIE0 = RXCIE1 = 7) are named constants with their datasheet values. A callback is modelled as a flag saying whether it is installed, plus a count (or a list) of its calls.

Behaviour of the code as written that the model keeps and states (none of it is corrected):

- A move of 0 steps still emits one pulse, and `stepsToTake` wraps to 65535 (`Stepper.ZeroStepTick`).
- `RTC_Delay` removes the callback, so the count it waits on never changes (`Rtc.DelayNeverElapses`).
- `IO_ReadPort1` takes bits 4-7 from PINF. The PORT1 latches written by `IO_WritePort1` are on port D.
- In `IO_ReadPort1Bit`, `PINx & _BV(n)>>(n)` parses as `PINx & 1`, so the result is bit 0 of the port.
- `IO_ReadPort2Bit` reads PINB rather than PINE.
- `IO_SetExtInterrupt` accepts the numbers 1..4 and enables EIMSK bit n+4. For n = 4 that bit lies outside the byte. `IO_ResetExtInterrupt` accepts 0..3.

## Model

| member | source | states |
|---|---|---|
| `Registers.Dec16` | MegaBoardLib/stepper.c:199 | `x--` on an `unsigned int`: one less, with 0 wrapping to 65535 |
| `Registers.Inc16` | MegaBoardLib/stepper.c:200 | `x++` on an `unsigned int`: one more, with 65535 wrapping to 0 |
| `Registers.Add16` | MegaBoardLib/servo.c:174 | `+=` into an `unsigned int`: the sum mod 2^16 |
| `Registers.ToU16` | MegaBoardLib/stepper.c:52 | an `int` table entry stored in a 16-bit register: equal mod 2^16, unchanged when non-negative |
| `Registers.Bv` | MegaBoardLib/stepper.c:195 | `_BV(k)` in an 8-bit register: for k < 8 the single bit k (`r >> k == 1`), for k >= 8 no bit |
| `Stepper.StageInTable` | MegaBoardLib/stepper.c:202-212 | any step count inside the ramp window, divided by RAMPINTERVAL, indexes inside rampArray when RAMPDURATION <= RAMPSTAGES*RAMPINTERVAL |
| `Stepper.RampSelect` | MegaBoardLib/stepper.c:202-213 | the stage the two ramp branches choose is always inside rampArray |
| `Stepper.RampSelectIsMinRule` | MegaBoardLib/stepper.c:202-213 | the two branches equal one rule: ramp at stage min(stepsTaken, stepsToTake)/RAMPINTERVAL while that minimum is inside the window, including the midpoint; otherwise no update |
| `Stepper.RampSymmetric` | MegaBoardLib/stepper.c:202-213 | j steps into a move of s steps gets the same stage as j steps before its end (acceleration mirrors deceleration) |
| `Stepper.RunSymmetric` | MegaBoardLib/stepper.c:188-214 | over the ticks of a move of s steps from a standing start, the leading edges of steps j and s-2-j program the same ICR1, the period of stage min(j+1, s-1-j)/RAMPINTERVAL, whenever that minimum is inside the window |
| `Stepper.CruiseKeepsPeriod` | MegaBoardLib/stepper.c:202-213 | with both ends of the move outside the window the period is not reprogrammed (the plateau value is `CruisePlateau`) |
| `Stepper.EdgeStep` | MegaBoardLib/stepper.c:191-201 | the edge half of the handler leaves ICR1, OCR1A, the stage and the filter alone |
| `Stepper.RampStep` | MegaBoardLib/stepper.c:202-213 | the ramp half leaves PORTA, the timer state, the filter and both step counts alone |
| `Stepper.TickState` | MegaBoardLib/stepper.c:188-214 | one interrupt never restarts the timer, never changes the filter or a PORTA bit outside the two pulse lines, and keeps rampStage inside the table |
| `Stepper.TickAlternates` | MegaBoardLib/stepper.c:194-201 | a tick with a pulse line high clears both lines and keeps the counts; otherwise it raises exactly 0x48&filter, decrements stepsToTake and increments stepsTaken (16-bit), keeping their sum; no other PORTA bit changes |
| `Stepper.TickStopsWhenDone` | MegaBoardLib/stepper.c:191-192 | after a tick the timer runs exactly when it ran before and stepsToTake was not 0 |
| `Stepper.TickRamp` | MegaBoardLib/stepper.c:202-213 | after the counts move: inside the window rampStage = min/RAMPINTERVAL, ICR1 = rampArray[rampStage], OCR1A = ICR1/2; outside it all three are kept |
| `Stepper.TickKeepsHalfPeriod` | MegaBoardLib/stepper.c:204-212 | OCR1A == ICR1/2 and rampStage < RAMPSTAGES are preserved by every tick |
| `Stepper.ZeroStepTick` | MegaBoardLib/stepper.c:191-200 | with stepsToTake == 0 and the lines low the tick stops the timer, still raises the filtered lines, and stepsToTake wraps to 65535 |
| `Stepper.TwoTicks` | MegaBoardLib/stepper.c:194-201 | two ticks with at least two steps left perform exactly one step and return the pulse lines low |
| `Stepper.MoveCompletes` | MegaBoardLib/stepper.c:191-213 | from lines low and k >= 1 steps, 2k ticks perform k steps, leave stepsToTake 0, PORTA as before and the timer stopped; tick 2k-1, the one that takes stepsToTake to 0, still runs and with a non-empty window already sets ICR1 to rampArray[0], which tick 2k keeps |
| `Stepper.Advance` | MegaBoardLib/stepper.c:194-201 | 2j ticks of a move with more than j steps left move the counts by j and leave the lines low and the timer running |
| `Stepper.OneStepRamp` | MegaBoardLib/stepper.c:202-213 | both ticks of one step program the stage of the nearer end of the move when it is inside the window, and keep ICR1 otherwise |
| `Stepper.PlateauStart` | MegaBoardLib/stepper.c:202-207 | from a standing start, after the first RAMPDURATION - 1 steps ICR1 holds rampArray[(RAMPDURATION-1)/RAMPINTERVAL] |
| `Stepper.PlateauStep` | MegaBoardLib/stepper.c:202-213 | a step whose both ends are outside the window keeps ICR1 on both of its ticks |
| `Stepper.PlateauAt` | MegaBoardLib/stepper.c:188-214 | in a move of s > 2 RAMPDURATION steps, both ticks of every step j in RAMPDURATION..s-RAMPDURATION leave ICR1 at rampArray[(RAMPDURATION-1)/RAMPINTERVAL] |
| `Stepper.CruisePlateau` | MegaBoardLib/stepper.c:188-214 | cruise: from tick 2 RAMPDURATION - 1 through tick 2 (s - RAMPDURATION), ICR1 stays at rampArray[(RAMPDURATION-1)/RAMPINTERVAL] (with RAMPDURATION == 1, given rampArray[0] at the start) |
| `Stepper.CruiseAtTerminalEntry` | MegaBoardLib/stepper.c:188-214 | when RAMPDURATION > (RAMPSTAGES-1)*RAMPINTERVAL the cruise period is the table's last entry |
| `Stepper.RunningEarlier` | MegaBoardLib/stepper.c:191-192 | the handler never restarts the timer: if it runs after tick m it ran after every earlier tick |
| `Stepper.StopTimeUnique` | MegaBoardLib/stepper.c:191-192 | the first tick after which the timer is stopped is unique |
| `Stepper.TickApproachesStop` | MegaBoardLib/stepper.c:191-201 | every tick that leaves the timer running lowers the number of ticks still needed to stop it |
| `Stepper.MaskedLineStaysLow` | MegaBoardLib/stepper.c:194-198 | a pulse line the filter masks out and that starts low stays low on every tick (single-wheel rotation) |
| `Stepper.Controller.constructor` | MegaBoardLib/stepper.c:14-19 | static stepperStruct and registers start at zero with the timer stopped |
| `Stepper.Controller.Init` | MegaBoardLib/stepper.c:40-59 | PORTA outputs with the mode's idle pattern; counts and stage 0; filter 0xFF; ICR1 = rampArray[0], OCR1A = ICR1/2; TCNT1 = 0; timer stopped; compare interrupt enabled |
| `Stepper.Controller.MoveStraight` | MegaBoardLib/stepper.c:82-98 | FORWARD: bit 5 set and bit 2 clear, otherwise the reverse, no other PORTA bit; filter 0xFF, stepsTaken 0, stepsToTake = steps, timer started; ramp registers kept |
| `Stepper.Controller.RotateAboutCenter` | MegaBoardLib/stepper.c:121-131 | both direction bits set for dir == 0 and cleared otherwise, no other PORTA bit; filter 0xFF; move reloaded; timer started |
| `Stepper.Controller.RotateAboutWheel` | MegaBoardLib/stepper.c:157-172 | direction bits as for rotation about the centre; filter 0x40 for LEFT and 0x08 otherwise; move reloaded; timer started |
| `Stepper.Controller.WaitForStop` | MegaBoardLib/stepper.c:183-186 | the wait returns once the handler has stopped the timer; the state is that of the returned number of handler calls, each made with the timer running |
| `Stepper.Controller.Tick` | MegaBoardLib/stepper.c:188-214 | the handler's new state is TickState of the old one; DDRA, TCNT1 and TIMSK are untouched |
| `Stepper.Controller.PulseEdge` | MegaBoardLib/stepper.c:191-201 | the stop test and pulse edge equal EdgeStep |
| `Stepper.Controller.UpdateRamp` | MegaBoardLib/stepper.c:202-213 | the ramp update equals RampStep and keeps OCR1A == ICR1/2 |
| `Stepper.MoveThenWait` | MegaBoardLib/stepper.c:183-214 | after a move of s >= 1 steps, Stepper_WaitForStop returns after exactly 2s handler calls, with stepsToTake == 0, stepsTaken == s, the pulse lines low and (with a non-empty window) ICR1 at rampArray[0] |
| `Servo.TimerConstantsFormula` | MegaBoardLib/servo.c:9 | servoTimerConstants[i] == 200 + 5000*i for the eight slots |
| `Servo.TimerConstantsIncrease` | MegaBoardLib/servo.c:9 | slot start offsets strictly increase and all lie inside the 40500-count frame |
| `Servo.Step` | MegaBoardLib/servo.c:164-177 | servoNumber stays below 8 across an interrupt |
| `Servo.StepEdges` | MegaBoardLib/servo.c:164-177 | rising tick: OCR1B += the servo's value (16-bit), its bit set, flag 0; falling tick: bit cleared, flag 1, next servo (mod 8), OCR1B = its slot start |
| `Servo.StepKeepsConsistent` | MegaBoardLib/servo.c:164-177 | the invariant (flag 1: port 0 and OCR1B at the slot start; flag 0: exactly the current servo's bit high) survives every interrupt |
| `Servo.TwoSteps` | MegaBoardLib/servo.c:164-177 | two interrupts move on to the next servo in the same phase |
| `Servo.PairsAdvance` | MegaBoardLib/servo.c:164-177 | 2k interrupts advance servoNumber by k mod 8 and keep the phase and the invariant |
| `Servo.FrameReturns` | MegaBoardLib/servo.c:164-177 | sixteen interrupts bring servoNumber, servoFlag and the port back (and OCR1B when the frame starts between pulses) |
| `Servo.SetAngleSlotAsWritten` | MegaBoardLib/servo.c:155-156 | as written, the guard admits motors 1..8 and the slot written is the motor number itself |
| `Servo.SetAngleAsWrittenOverruns` | MegaBoardLib/servo.c:155-156 | as written, motor 8 selects slot 8 of the eight-entry array |
| `Servo.SetAngleSlot` | MegaBoardLib/servo.c:155-156 | corrected: motors 1..8 select slots 0..7 (slot = motor - 1), anything else selects none |
| `Servo.HalfTowardZero` | MegaBoardLib/servo.c:10 | C's `/ 2` on an `int`: twice the result is within one of x, on the side of zero |
| `Servo.CenterValue` | MegaBoardLib/servo.c:10 | `(END_VALUE-START_VALUE)/2` stored in an `unsigned int`: half the range when END_VALUE >= START_VALUE, and a wrapped width of at least 0x8000 when END_VALUE < START_VALUE - 1 |
| `Servo.PowerOnNotConsistent` | MegaBoardLib/servo.c:11-12 | the power-on state (flag 0, servo 0, port low) breaks the handler's invariant; the state Servo_Init sets keeps it |
| `Servo.Controller.constructor` | MegaBoardLib/servo.c:10-12 | power-on: every servoValues entry is CenterValue(START_VALUE, END_VALUE); servoFlag, servoNumber, the ports and the timer registers are 0, so the compare-B interrupt is off |
| `Servo.Controller.Init` | MegaBoardLib/servo.c:29-55 | direction port 0xFF, servo port 0, flag 1, servo 0, OCIE1B set in TIMSK, TCNT1 0, OCR1A 40500, OCR1B = first slot start; from here on the handler's invariant holds |
| `Servo.Controller.CenterAll` | MegaBoardLib/servo.c:128-133 | all eight servoValues set to the centre value; only that array changes, so the handler's invariant is kept |
| `Servo.Controller.SetAngle` | MegaBoardLib/servo.c:153-157 | corrected: motor m in 1..8 replaces slot m-1 and nothing else; other numbers change nothing |
| `Servo.Controller.Tick` | MegaBoardLib/servo.c:162-178 | the handler's new state is Step of the old one and the invariant is kept |
| `Rtc.ComplementUnionIsAllOnes` | ATmega128Lib/rtc.c:29 | `~_BV(a) | ~_BV(b)` is 0xFF for distinct bits, so RTC_Init's TIMSK mask clears nothing |
| `Rtc.RtcTick` | ATmega128Lib/rtc.c:125-132 | without a callback nothing changes; with one, the callback runs exactly when the count was 1 and the count is then reloaded from rtcMax; otherwise the count takes the 16-bit `--rtcCount`; rtcMax is never changed |
| `Rtc.UninstalledIsFrozen` | ATmega128Lib/rtc.c:127 | with no callback, any number of ticks leaves rtcCount unchanged and fires nothing (short-circuit &&) |
| `Rtc.CountsDown` | ATmega128Lib/rtc.c:127 | with a callback and j < rtcCount, j ticks lower rtcCount by j without firing |
| `Rtc.ReloadTick` | ATmega128Lib/rtc.c:127-131 | the tick taking rtcCount from 1 to 0 reloads rtcMax and calls the callback once |
| `Rtc.TickKeepsRange` | ATmega128Lib/rtc.c:127-131 | a count in 1..rtcMax stays in 1..rtcMax across a tick |
| `Rtc.OnePeriod` | ATmega128Lib/rtc.c:127-131 | c ticks from a freshly loaded count c >= 1 fire once and reload c |
| `Rtc.FiresEveryCthTick` | ATmega128Lib/rtc.c:125-132 | after q*c + r ticks (r < c) the callback has run q times and rtcCount is c - r |
| `Rtc.ZeroCountWraps` | ATmega128Lib/rtc.c:127-129 | with count 0 no call in the first 65535 ticks, one on tick 65536, and the reload is 0 again |
| `Rtc.DelayNeverElapses` | ATmega128Lib/rtc.c:94-99 | after RTC_Delay's setup with delayUnits > 0, no number of ticks changes rtcCount, so the wait does not end |
| `Rtc.Counter0.constructor` | ATmega128Lib/rtc.c:10-12 | globals start zero with no callback |
| `Rtc.Counter0.Init` | ATmega128Lib/rtc.c:25-34 | timer 0 cleared, asynchronous clock, callback removed, rtcCount 0, TIMSK and rtcMax unchanged |
| `Rtc.Counter0.SetInterrupt` | ATmega128Lib/rtc.c:62-67 | overflow interrupt enabled, callback installed, rtcMax = rtcCount = count |
| `Rtc.Counter0.ResetInterrupt` | ATmega128Lib/rtc.c:77-81 | overflow interrupt disabled and callback removed, counts kept |
| `Rtc.Counter0.DelaySetup` | ATmega128Lib/rtc.c:91-97 | overflow interrupt enabled, callback removed and not restored, rtcCount = delayUnits |
| `Rtc.Counter0.Tick` | ATmega128Lib/rtc.c:125-132 | the handler's new state is RtcTick of the old one, registers untouched |
| `DigitalIo.Merge` | MegaBoardLib/digitalio.c:101-103 | `(reg & ~mask) | (value & mask)` takes the mask's bits from value and keeps all others |
| `DigitalIo.WithBit` | MegaBoardLib/digitalio.c:128-131 | setting or clearing bit k gives that bit the requested value and keeps the others; k >= 8 leaves the register unchanged |
| `DigitalIo.Port1Value` | MegaBoardLib/digitalio.c:42 | bits 0-1 come from the first byte, 2-3 from the second, 4-7 from the third |
| `DigitalIo.Port1Write` | MegaBoardLib/digitalio.c:101-103 | IO_WritePort1 keeps every latch bit outside PORT1's slice of each port |
| `DigitalIo.Port1BitWrite` | MegaBoardLib/digitalio.c:125-148 | a bit number of 8 or more changes no latch |
| `DigitalIo.Port1WriteReadsBack` | MegaBoardLib/digitalio.c:101-103 | the latches after IO_WritePort1(v), assembled in PORT1's layout, are exactly v |
| `DigitalIo.Port1BitWriteAgrees` | MegaBoardLib/digitalio.c:122-149 | IO_WritePort1Bit(b, n) changes the assembled PORT1 value in bit n only, to b != 0 (the bit and port writes share one layout) |
| `DigitalIo.SetSenseField` | MegaBoardLib/digitalio.c:281-308 | the 2-bit EICRB field f becomes mode&3 and every other EICRB bit is kept |
| `DigitalIo.SenseFieldLiterals` | MegaBoardLib/digitalio.c:283-304 | the four literal masks and shifts of IO_SetExtInterrupt are the sense fields 0..3 |
| `DigitalIo.Board.constructor` | MegaBoardLib/digitalio.c:18-19 | both mode caches start as input; registers and handlers clear |
| `DigitalIo.Board.ReadPort1` | MegaBoardLib/digitalio.c:33-43 | result bits from PINB/PINE/PINF slices; the DDR slices are cleared only on a change of mode, otherwise untouched; latches kept |
| `DigitalIo.Board.ReadPort1Bit` | MegaBoardLib/digitalio.c:59-78 | result 0 or 1, equal to bit 0 of the pin register holding bit n (C precedence); that pin's DDR bit cleared; n >= 8 gives 0 and no DDR change |
| `DigitalIo.Board.WritePort1` | MegaBoardLib/digitalio.c:92-104 | latches become Port1Write of the old ones; DDR slices set only on a change of mode |
| `DigitalIo.Board.WritePort1Bit` | MegaBoardLib/digitalio.c:122-149 | latches become Port1BitWrite; only the pin's own DDR bit is set; n >= 8 changes no register |
| `DigitalIo.Board.ReadPort2` | MegaBoardLib/digitalio.c:161-169 | result is PINE >> 4, below 16; DDRE's high nibble cleared only on a change of mode |
| `DigitalIo.Board.ReadPort2Bit` | MegaBoardLib/digitalio.c:185-194 | result 0 or 1: bit n+4 of PINB; DDRE bit n+4 cleared; n >= 4 gives 0 |
| `DigitalIo.Board.WritePort2` | MegaBoardLib/digitalio.c:209-217 | PORTE becomes exactly (value&0x0F)<<4, so its low nibble is zeroed; DDRE high nibble set only on a change of mode |
| `DigitalIo.Board.WritePort2Bit` | MegaBoardLib/digitalio.c:235-246 | only PORTE bit n+4 changes, to value != 0, and DDRE bit n+4 is set; n >= 4 changes no register |
| `DigitalIo.Board.SetExtInterrupt` | MegaBoardLib/digitalio.c:279-309 | for n in 1..4 only sense field n-1 changes, DDRE bit n+4 cleared, EIMSK bit n+4 set, handler n-1 installed; n = 4 leaves DDRE and EIMSK unchanged; other n change nothing |
| `DigitalIo.Board.EnableLine` | MegaBoardLib/digitalio.c:283-286 | one branch of IO_SetExtInterrupt: sense field, DDRE bit, handler slot and EIMSK bit of interrupt number n |
| `DigitalIo.Board.ResetExtInterrupt` | MegaBoardLib/digitalio.c:323-327 | EIMSK bit n+4 cleared for n < 4; otherwise nothing changes |
| `DigitalIo.WritePort1Twice` | MegaBoardLib/digitalio.c:94-103 | two IO_WritePort1 calls: the DDRs are the old ones if the mode was already output, and otherwise the old ones with the PORT1 bits of ports B, E and D set, the same as after the first call; the latches read back as the second value |
| `Adc.EnabledControl` | ATmega128Lib/adc.c:28 | ADEN set, ADSC and ADIE clear |
| `Adc.Result` | ATmega128Lib/adc.c:55 | `ADCL | (ADCH << 8)` has ADCL as low byte and ADCH as high byte; with ADCH <= 3 it is below 1024 |
| `Adc.OrIsSum` | ATmega128Lib/adc.c:55 | the C expression `ADCL | (ADCH << 8)` on 16-bit values equals Result |
| `Adc.AsInt16` | ATmega128Lib/adc.c:55 | the value as a 16-bit `int` agrees mod 2^16 and is unchanged below 0x8000 |
| `Adc.SampleRoundTrip` | ATmega128Lib/adc.c:55 | a 10-bit sample split into ADCL and ADCH reads back as itself |
| `Adc.NextChannel` | ATmega128Lib/adc.c:111 | `(++muxValue)&0x07` is the next channel mod 8 |
| `Adc.Results` | ATmega128Lib/adc.c:75-81 | entry i is the result of conversion i |
| `Adc.HandlerStep` | ATmega128Lib/adc.c:109-111 | the handler keeps eight slots and a channel below 8 |
| `Adc.ContinuousFillsInOrder` | ATmega128Lib/adc.c:100-115 | from channel 0, k <= 8 interrupts fill slots 0..k-1 with the k results in order, leave the rest, and put ADMUX on channel k mod 8 |
| `Adc.ContinuousSweepMatchesReadAll` | ATmega128Lib/adc.c:107-115 | eight interrupts from channel 0 give the table Adc_ReadAllInputs gives and wrap ADMUX to 0 |
| `Adc.Converter.constructor` | ATmega128Lib/adc.c:12 | adcInputs starts zeroed with channel 0 |
| `Adc.Converter.Init` | ATmega128Lib/adc.c:24-30 | converter enabled with the prescaler bits, channel 0 |
| `Adc.Converter.ReadInput` | ATmega128Lib/adc.c:46-57 | channel > 7 returns -1 and leaves ADMUX; otherwise ADMUX = channel and the result is the conversion, in 0..1023 when ADCH <= 3; adcInputs untouched |
| `Adc.Converter.ReadAllInputs` | ATmega128Lib/adc.c:71-82 | adcInputs becomes the eight results in channel order; ADMUX ends at 7 |
| `Adc.Converter.TakeContinuousReadings` | ATmega128Lib/adc.c:100-105 | channel 0 selected, ADIE and ADSC set |
| `Adc.Converter.Handler` | ATmega128Lib/adc.c:107-115 | only adcInputs[ADMUX] is written, ADMUX advances to (ADMUX+1)&7, ADSC set; the dead store on the local changes nothing |
| `Uart.Stop` | ATmega128Lib/uart0.c:232-242 | the string read stops at the first termChar or at the limit, with no termChar before it, or is still waiting when the input has neither |
| `Uart.StopIsFirst` | ATmega128Lib/uart0.c:235-241 | the stop is unique: any position meeting the rule with no earlier termChar is it |
| `Uart.ReadStringAsWrittenOverruns` | ATmega128Lib/uart0.c:235-237 | as written, with no termChar among the first RXnBUFFERSIZE+1 bytes, the '\0' goes to index RXnBUFFERSIZE |
| `Uart.StoredPrefixExcludesTerm` | ATmega128Lib/uart0.c:235-241 | the stored string is shorter than the buffer and never contains termChar |
| `Uart.StopsAtFirstTerm` | ATmega128Lib/uart0.c:235-241 | a termChar arriving inside the buffer ends the read there; the bytes before it are the result |
| `Uart.Port.constructor` | ATmega128Lib/uart0.c:22 | a zeroed receive buffer of RXnBUFFERSIZE bytes, no handler |
| `Uart.Port.ReadBytes` | ATmega128Lib/uart0.c:196-205 | min(size, RXnBUFFERSIZE) received bytes stored in order at the front; later slots unchanged; waits when input runs out |
| `Uart.Port.ReadString` | ATmega128Lib/uart0.c:227-243 | corrected: bytes before the stop stored in order, termChar not stored, '\0' right after them inside the buffer, later slots unchanged |
| `Uart.Port.SetReceiveInterrupt` | ATmega128Lib/uart0.c:268-272 | only the RXCIE bit of UCSRnB set; handler installed |
| `Uart.Port.ResetReceiveInterrupt` | ATmega128Lib/uart0.c:284-288 | only the RXCIE bit cleared; handler removed |
| `Uart.Port.ReceiveInterrupt` | ATmega128Lib/uart0.c:339-347 | a received byte is passed to the handler exactly when one is installed |

`Uart.Port` models both serial ports. The UART1 functions are the same lines of `ATmega128Lib/uart1.c`, except that `Uart1_SetReceiveInterrupt` is at 269-273, `Uart1_ResetReceiveInterrupt` at 285-289 and the receive interrupt at 340-348.

## Left out

- Concurrency between interrupts and callers: each interrupt is a method call. Preemption of a move command by the stepper tick is not modelled.
- Busy waits on hardware flags are not loops, except one: ADSC and RXC become inputs, and the RTC wait becomes a lemma.
  - `Stepper_WaitForStop` is a loop in `Stepper.Controller.WaitForStop`, each pass of which is one handler call. Timing between the interrupt and the spinning code is not modelled.
  - `RTC_Delay`'s wait is `DelayNeverElapses`.
  - A UART read that runs out of input returns `done == false`, meaning it is still waiting.
- `StartSteppers`/`StopSteppers` are not part of this model. Their effect is the `running` flag, which stands for the timer-1 clock-select bits.
- Timer waveform and clock configuration are not modelled: TCCR1A/B/C, TCCR3x, ETIMSK. Servo_Init's TIMSK, TCNT1, OCR1A and OCR1B writes are modelled.
- Servo.Controller.Tick: requires the handler's invariant, which only holds from Servo_Init on. The power-on state does not satisfy it (`PowerOnNotConsistent`). The handler cannot run earlier, because its interrupt enable OCIE1B is set only by Servo_Init (servo.c:37), and the power-on TIMSK is 0.
- Servo.Controller.constructor: requires END_VALUE - START_VALUE to fit a 16-bit `int`, because C leaves a signed overflow undefined. Below that bound the wrap of a negative half into `unsigned int` is modelled (`CenterValue`).
- Stepper.RampConfig.Valid: limits RAMPSTAGES to 256, the values the `unsigned char rampStage` (stepper.c:17, 204, 210) can index. With a longer table the stage would be truncated to 8 bits, and the model does not cover that.
- Registers shared between drivers (TIMSK, OCR1A, timer 1 itself) are separate fields of each driver's class.
- `cli()`/`sei()` are not modelled.
- Floating point: the angle-to-pulse conversion of `Servo_SetAngle`/`Servo_SetAngles` is not modelled. The pulse width is a parameter, and only the index guard is modelled.
- `Servo_SetAngles`, `Servo_Start`/`Servo_Stop`, the TIMER3 variant of the servo handler (the same code on OCR3B), `Adc_Init`'s MCUCSR writes, UART transmit and init functions, and the printf/scanf macros are outside the modelled core.
- The external-interrupt handlers `SIG_INTERRUPT4`-`7` dispatch to callbacks. Only the installed flags are modelled.
- `ATmega128Lib/i2c.c`, `MegaBoardLib/i2c_sensors.c`, `MegaBoardLib/lcd.c`, `ATmega128Lib/timer2.c` and `MegaBoardLib/dcmotors.c` are not part of this model: they are bus protocols, display output, float PWM and thin register wrappers.
- `RTC_Start`/`RTC_Pause` are not modelled, because their bodies do not appear in the source.
- Uart.Port.ReadString: `termChar` is compared as an unsigned byte. If the build treats `char` as signed, a terminator of 0x80 or above never matches. That depends on a compiler flag that is not shown.
- Buffer sizes above 255 would let the byte-wide indices wrap. The model requires sizes in 1..255 (`Uart.BufferSize`).
- Adc.Converter.ReadInput: the conversion is an input pair (ADCL, ADCH). The model does not say how the hardware computes it or that ADCH <= 3 in right-adjusted mode, so the 0..1023 bound is stated under that condition.

## Findings

| source | as written | input that shows it | evidently intended | confidence | as-written member | corrected member |
|---|---|---|---|---|---|---|
| MegaBoardLib/servo.c:155-156 | the guard admits motors 1..8 and writes `servoValues[servoMotorNumber]` | servoMotorNumber = 8 writes servoValues[8], past the eight-entry array; motor 1 writes servo 2's slot | motor m writes servoValues[m-1], as Servo_SetAngles numbers them | high, not executed | `Servo.SetAngleAsWrittenOverruns` | `Servo.Controller.SetAngle` |
| ATmega128Lib/uart0.c:235-237 | the read stops when `rxPos == RX0BUFFERSIZE` and then writes `rx0Buffer[rxPos] = '\0'` | RX0BUFFERSIZE + 1 bytes without termChar: the '\0' goes to rx0Buffer[RX0BUFFERSIZE], one past the buffer | stop at RX0BUFFERSIZE - 1 stored bytes so the '\0' fits | high, not executed | `Uart.ReadStringAsWrittenOverruns` | `Uart.Port.ReadString` |
| ATmega128Lib/uart1.c:235-237 | the same test and write on rx1Buffer with RX1BUFFERSIZE | RX1BUFFERSIZE + 1 bytes without termChar: the '\0' goes to rx1Buffer[RX1BUFFERSIZE] | stop at RX1BUFFERSIZE - 1 stored bytes | high, not executed | `Uart.ReadStringAsWrittenOverruns` | `Uart.Port.ReadString` |
