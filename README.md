# A verified model of the mini DMX512 3-channel decoder firmware

The firmware runs on an STC 8051-family microcontroller. It receives a
DMX512 stream on the UART, picks three consecutive slots starting at the
address set on nine DIP switches, and drives red, green and blue LED
outputs with bit-angle PWM. A tenth switch selects Fun mode instead. In
Fun mode the serial interrupt is masked and the switches choose a fixed
colour. A status LED blinks fast while DMX arrives, blinks slowly when it
has been missing for about a second, and is steadily lit in Fun mode.

The model has three layers.

- **Values.** `Types.State` holds the firmware's globals as one value. The
  step functions describe one Timer-0 interrupt (`Pwm.Tick`), one serial
  interrupt (`Receiver.Receive`) and one pass of the main loop
  (`MainLoop.LoopStep`). The two pure computations of the main loop are
  functions too: the address decode (`MainLoop.DecodeAddress`) and the
  Fun colour table (`MainLoop.FunColour`).
- **The object.** `Firmware.Controller` is a class with one field per
  global. It has one method per entry point: `ClockInc`, `SerialInt` and
  `MainLoopPass`, the last taking the pin levels of ports 1 and 3 as
  parameters.
  - Each method ensures a two-state predicate. The predicate says what the
    method writes in terms of the fields before the call.
  - A two-state lemma shows that this change, together with the fields the
    method's `modifies` leaves alone, is exactly the step function on
    `View()`.
- **Runs.** Lemmas over sequences of steps. `Frames` covers whole DMX
  frames, `Timing` covers PWM cycles and the DMX timeout, and `Events`
  covers arbitrary interleavings of the three entry points.

Integer widths follow SDCC on the 8051.

- Byte-wide quantities are `bv8`: colours, `pwm_bit`, ports, SCON, SBUF,
  TH0/TL0 and IE.
- `clocktime` (`unsigned long`) is `bv32`.
- The C `int` counters `byte_cnt` and `last_packet_size` are `Types.Int16`,
  incremented by `Types.Inc16` with two's-complement wrap written out.
- `DMX_timeout` (`unsigned int`) is `Types.Uint16`, incremented by
  `Types.IncU16` modulo 2^16. It is only ever incremented, assigned and
  compared, so an integer with explicit wrap matches it.
- The address is `Types.Address`, 0 to 511.
- The good-packet flag GF0 (bit 2 of PCON) is a `bool`.

Where the code and its description disagree, the model follows the code.

- **Fun colour priority.** The if-chain tests bit 6 first, so the highest
  set bit of the low seven switches wins (`MainLoop.FunColourByHighestBit`).
- **Slot numbering.** The start code arrives with `byte_cnt == -1`, so
  address `a` shows data slots a+1, a+2 and a+3, counted from 1. Address 1
  shows slots 2 to 4 (`Frames.AddressOneShowsSlotsTwoToFour`), not 1 to 3.
- **Non-break framing error.** It clears the good flag but does not count
  the byte. The spoilt frame is measured one slot short, so the next clean
  frame looks like a length change and is rejected too: one corrupt slot
  costs two frames (`Frames.CorruptSlotCostsTwoFrames`).
- **Slow blink.** The slow blink follows `clocktime & 0x200`, which is
  bit 9, although the comment there says bit 10 (`MainLoop.SlowBlink`).

## Model

| member | source | states |
|---|---|---|
| Types.Inc16 | src/min_dmx_3ch.c:167 | `byte_cnt++` on a 16-bit int gives x + 1 modulo 2^16 and is exactly x + 1 below 32767 |
| Types.IncU16 | src/min_dmx_3ch.c:118 | `DMX_timeout++` on a 16-bit unsigned int is x + 1 modulo 2^16 |
| Types.Drive | src/min_dmx_3ch.c:102-107 | setting or clearing a pin leaves its bits reading as the requested level and every other port bit unchanged |
| Pwm.PwmOutputs | src/min_dmx_3ch.c:102-107 | each colour pin P3.2/P3.3/P3.4 is on exactly when the phase bit is set in red/green/blue; no other P3 bit changes |
| Pwm.Reload | src/min_dmx_3ch.c:111-112 | the 16-bit reload TH0:TL0 is 0xFFFF - 16 * pwm_bit, for every byte value of pwm_bit |
| Pwm.PhaseTicks | src/min_dmx_3ch.c:109-112 | a phase lasts 16 * pwm_bit + 1 timer counts until the mode-1 overflow |
| Pwm.PhaseStep | src/min_dmx_3ch.c:114-120 | from a single-bit phase the next phase is a single bit, 0x01 wraps to 0x80, otherwise the weight halves |
| Pwm.PhasesStayPhases | src/min_dmx_3ch.c:114-120 | once pwm_bit is one of 0x80..0x01 it stays one after any number of interrupts |
| Pwm.PhaseCycle | src/min_dmx_3ch.c:114-120 | every designed phase returns to itself after exactly eight interrupts and not after fewer |
| Pwm.SelfSynchronising | src/min_dmx_3ch.c:114 | from any start value of pwm_bit, seven interrupts bring it into the designed cycle |
| Pwm.PhasesFollowTheCycle | src/min_dmx_3ch.c:114-120 | after a wrap the phases run 0x80, 0x40, ..., 0x01 in that order |
| Pwm.OnTicksSplit | src/min_dmx_3ch.c:102-112 | the on-time of a channel over some phases is 16 times its bit weight among them plus one count per set bit |
| Pwm.WeightIsValue | src/min_dmx_3ch.c:102-107 | the weights of the eight phases in which a channel is on add up to its intensity |
| Pwm.DutyCycle | src/min_dmx_3ch.c:102-120 | over one cycle intensity v is on for 16v counts plus one per set bit of v |
| Pwm.CycleLength | src/min_dmx_3ch.c:109-120 | a full PWM cycle lasts 4088 timer counts |
| Pwm.DutyCycleError | src/min_dmx_3ch.c:102-120 | the on-fraction of intensity v differs from v/255 by at most 8 counts in 4088 |
| Pwm.Tick | src/min_dmx_3ch.c:99-121 | one Timer-0 interrupt drives the pins for the phase, steps the phase, advances clocktime and DMX_timeout by one exactly on a wrap; nothing outside P3, TH0, TL0, pwm_bit and the two counters changes |
| Pwm.TickReload | src/min_dmx_3ch.c:109-112 | the reload written by one interrupt makes the next period 16 * pwm_bit + 1 counts |
| Receiver.OnBreak | src/min_dmx_3ch.c:130-153 | at a break, a length change only records the new length; otherwise the staged colour is published and the timeout cleared exactly when the frame was clean; always the staging is cleared, the flag set and byte_cnt = -1 |
| Receiver.OnFrameError | src/min_dmx_3ch.c:154-155 | a framing error with a non-zero byte only clears the good flag; the count, staging and display stay |
| Receiver.OnData | src/min_dmx_3ch.c:159-167 | a data byte spoils the frame when it is a non-zero start code, is staged exactly at address, address+1 or address+2, and advances byte_cnt by one; the display is untouched |
| Receiver.Receive | src/min_dmx_3ch.c:124-171 | one serial interrupt changes the display and the timeout only at a committing break, publishing the staged colour and zeroing the timeout; without RI nothing changes; timer, address, ports and IE are never touched |
| Receiver.Acknowledge | src/min_dmx_3ch.c:169 | when RI was set, FE and RI are cleared and the other SCON bits kept; otherwise SCON is left alone |
| MainLoop.AddressWord | src/min_dmx_3ch.c:206-208 | the decoded word is below 0x200, its bit 0 is NOT P3.7 and its bit k+1 is NOT P1.k |
| MainLoop.DecodeAddress | src/min_dmx_3ch.c:206-210 | the address is 511 - 2 * P1 - P3.7, always in 0..511 |
| MainLoop.FunProgramIsDim | src/min_dmx_3ch.c:237-242 | with switch 8 or 9 on, the Fun colour is (32, 32, 32) |
| MainLoop.FunColourByHighestBit | src/min_dmx_3ch.c:243-286 | otherwise the highest set bit k of the low seven switches selects red, green, blue, yellow, magenta, cyan or white |
| MainLoop.FunColourAllOff | src/min_dmx_3ch.c:287-292 | with all switches off the Fun colour is black |
| MainLoop.StatusLed | src/min_dmx_3ch.c:216-218 | the LED (active low) is lit exactly while the chosen clocktime bit is clear; no other P3 bit changes |
| MainLoop.LoopStep | src/min_dmx_3ch.c:203-294 | one pass stores the decoded address; in DMX mode it enables the serial interrupt, blinks the LED slowly and clamps the timeout to 480 with a black output when the timeout has reached 480, or blinks fast and changes nothing else; in Fun mode it masks the serial interrupt, lights the LED and shows the Fun colour |
| Firmware.PowerOn | src/min_dmx_3ch.c:182-199 | on entry to the loop all globals are zero except DMX_timeout = 480, the first timer period is 2000 counts and IE = 0x92 |
| Firmware.Controller.constructor | src/min_dmx_3ch.c:182-199 | the new object's view is the power-on state for the given GF0 and port-3 reset values |
| Firmware.Controller.ClockInc | src/min_dmx_3ch.c:99-121 | the Timer-0 interrupt sets pins, reload, phase and counters as Pwm.Tick does, writing only those fields |
| Firmware.Controller.TickedIsTick | src/min_dmx_3ch.c:99-121 | ClockInc's change is one Tick of the view |
| Firmware.Controller.SerialInt | src/min_dmx_3ch.c:124-171 | the serial interrupt takes a break, a spoilt byte or a data byte and acknowledges SCON, writing only the receiver and display fields |
| Firmware.Controller.TakeBreak | src/min_dmx_3ch.c:130-153 | the break records the frame length, publishes the staging and zeroes the timeout only for a clean frame of unchanged length, then re-arms the receiver |
| Firmware.Controller.TakeSlot | src/min_dmx_3ch.c:159-167 | a data byte is checked as start code, staged at its channel and counted |
| Firmware.Controller.ReceivedIsReceive | src/min_dmx_3ch.c:124-171 | SerialInt's change is one Receive of the view |
| Firmware.Controller.MainLoopPass | src/min_dmx_3ch.c:203-294 | one pass of the loop stores the address and runs the DMX or Fun branch chosen by P3.5 |
| Firmware.Controller.DmxMode | src/min_dmx_3ch.c:211-231 | the DMX branch keeps the signal-loss rule and the LED cadence |
| Firmware.Controller.FunMode | src/min_dmx_3ch.c:232-294 | the Fun branch masks the serial interrupt, lights the LED and shows the Fun colour |
| Firmware.Controller.LoopedIsLoopStep | src/min_dmx_3ch.c:203-294 | MainLoopPass's change is one LoopStep of the view |
| Frames.FeedDataEffect | src/min_dmx_3ch.c:159-167 | after n data bytes the count has advanced by n, the frame is spoilt exactly when the byte at count -1 was non-zero, and the bytes at count address..address+2 are staged |
| Frames.FrameOutcome | src/min_dmx_3ch.c:130-167 | a whole frame is shown exactly when its start code is 0 and its slot count equals the previous frame's, and then its slots from the address on are displayed and the timeout is 0; the receiver is re-armed either way |
| Frames.NewLengthTakesTwoFrames | src/min_dmx_3ch.c:132-137 | after a length change the first frame is only measured and the second one is shown |
| Frames.CorruptSlotCostsTwoFrames | src/min_dmx_3ch.c:132-155 | one non-break framing error spoils its frame and the next clean one; the frame after that is shown |
| Frames.AddressOneShowsSlotsTwoToFour | src/min_dmx_3ch.c:164-166 | at address 1 a four-slot frame shows slots 2, 3 and 4 |
| Frames.TopAddressPastTheEnd | src/min_dmx_3ch.c:164-166 | at address 511 a 512-slot frame shows its last slot in red and leaves green and blue dark |
| Timing.TicksFollowPhases | src/min_dmx_3ch.c:114-120 | from phase j of the cycle, k interrupts inside it reach phase j + k and touch nothing outside the timer |
| Timing.CycleSchedule | src/min_dmx_3ch.c:99-121 | the k-th interrupt of a cycle started at 0x80 drives each colour pin by bit Phases[k] of its intensity and reloads the timer for the PhaseTicks(Phases[k]) counts that OnTicks adds for that phase |
| Timing.TickInside | src/min_dmx_3ch.c:120 | an interrupt inside a cycle halves the phase and leaves the counters |
| Timing.CycleEffect | src/min_dmx_3ch.c:114-120 | running to the next wrap advances clocktime and DMX_timeout by one and leaves the phase at 0x80, nothing else outside the timer changing |
| Timing.CycleIsEightTicks | src/min_dmx_3ch.c:114-120 | from 0x80 one cycle is exactly eight interrupts |
| Timing.TimeoutCountsCycles | src/min_dmx_3ch.c:118 | without frames DMX_timeout counts PWM cycles modulo 2^16 |
| Timing.SignalLoss | src/min_dmx_3ch.c:214-224 | with only timer interrupts, in DMX mode, with the timeout at t and no wrap, a loop pass after n cycles darkens the output exactly when t + n >= 480, and otherwise leaves it as it was |
| Events.QuietStep | src/min_dmx_3ch.c:139-145 | a timer interrupt, a serial byte that does not commit, or a DMX-mode loop pass keeps the display or blacks it out |
| Events.NothingNewWithoutCommit | src/min_dmx_3ch.c:139-145 | over any interleaving of interrupts and DMX-mode loop passes in which no serial byte commits, including breaks that reject a frame, the display stays or goes dark |
| Events.QuietStepTimeout | src/min_dmx_3ch.c:118 | one quiet event advances the timeout by its wrap, or holds it at 480 from at least the advanced value, and keeps the display below 480 |
| Events.TimeoutUnderTraffic | src/min_dmx_3ch.c:214-224 | without a committed frame, after w cycle wraps the timeout lies between min(t + w, 480) and t + w, and the display is kept while t + w < 480 |
| Events.DarkAfterASecond | src/min_dmx_3ch.c:214-224 | whatever rejected frames, spoilt bytes and DMX-mode loop passes arrive, a DMX-mode pass after w wraps darkens the output when t + w >= 480 and keeps it when t + w < 480 |
| Events.StepKeepsPhase | src/min_dmx_3ch.c:114-120 | no entry point takes pwm_bit out of the designed cycle |
| Events.RunKeepsPhase | src/min_dmx_3ch.c:114-120 | once in the designed cycle, pwm_bit stays in it over any interleaving of the three entry points |

## Left out

- The special-function-register declarations and the peripheral setup (timer mode, baud rate, UART mode, P3M0, AUXR, AUXR1) are hardware configuration with no logic. Only the first timer reload, IE and the initial DMX timeout appear, in `Firmware.PowerOn`.
- The watchdog feed at the top of the loop is a hardware side effect with no state in the model.
- Interrupt masking: IE is kept as a field holding 0x92 or 0x82. The model does not stop serial steps while IE masks them, so `Events.Run` allows serial bytes in Fun mode.
- Preemption inside a step: each entry point is one atomic step. Torn reads of `clocktime` and the race between `DMX_timeout++` and the clamp in the main loop are not modelled.
- Wall-clock time: the 24 MHz clock, the 250 kbaud line rate and the roughly 480 Hz PWM rate. Time is counted in timer counts, interrupts and PWM cycles only.
- The other PCON bits (SMOD, SMOD0): only GF0 is a field, as a `bool`.
- The Fun programs 1 to 3 (fade, jump, strobe) exist only in the header comment. The code shows (32, 32, 32) for them, and so does the model.
- P3 is read as pins and written as a latch. The model passes the pins to the loop pass as a parameter and keeps the latch as the field `p3`.
- Types.Inc16: wraps a byte count past 32767 as two's complement. In C that overflow is undefined; the frame lemmas require frames shorter than 32767 slots.
- SCON's other bits and the transmit side of the UART.
- Pwm.DutyCycleError: like Pwm.DutyCycle and Pwm.CycleLength, it counts each phase as the nominal 16w + 1 counts of its reload. The timer keeps counting from 0 after the overflow until `clockinc` writes TH0 and TL0 after the pin updates, so each real phase is longer by the interrupt latency and the handler's first instructions. That delay is not counted.
