/** Time as the firmware keeps it: Timer-0 interrupts, PWM cycles of
    eight of them, and the DMX timeout counted in cycles. */
module Timing {
  import opened Types
  import opened Pwm
  import opened MainLoop

  /** The state after n Timer-0 interrupts and nothing else. */
  function Ticks(s: State, n: nat): State
    decreases n
  {
    if n == 0 then s else Ticks(Tick(s), n - 1)
  }

  /** The fields the Timer-0 interrupt never writes. */
  predicate SameOutsideTimer(s: State, t: State) {
    t.display == s.display && t.byteCnt == s.byteCnt && t.lastPacketSize == s.lastPacketSize &&
    t.staging == s.staging && t.address == s.address && t.goodPacket == s.goodPacket && t.ie == s.ie
  }

  /** A phase that does not end the cycle. */
  lemma TickInside(s: State)
    requires s.pwmBit > 0x01
    ensures Tick(s).pwmBit == s.pwmBit >> 1
    ensures Tick(s).clocktime == s.clocktime && Tick(s).dmxTimeout == s.dmxTimeout
    ensures SameOutsideTimer(s, Tick(s))
  {
  }

  /** The designed phases follow one another in the order of Phases. */
  lemma NextOfPhases(j: nat)
    requires j < 7
    ensures NextPhase(Phases[j]) == Phases[j + 1]
  {
  }

  /** From phase j of the cycle, k further interrupts inside the cycle
      reach phase j + k and leave the displayed colour alone. */
  lemma {:induction false} TicksFollowPhases(s: State, j: nat, k: nat)
    requires j + k < 8 && s.pwmBit == Phases[j]
    ensures Ticks(s, k).pwmBit == Phases[j + k]
    ensures SameOutsideTimer(s, Ticks(s, k))
    decreases k
  {
    if k > 0 {
      NextOfPhases(j);
      TicksFollowPhases(Tick(s), j + 1, k - 1);
    }
  }

  /** The k-th interrupt of a cycle started at 0x80 puts out phase
      Phases[k] of the colour on display: each channel's pin is on exactly
      when its intensity has that bit, and the timer is reloaded for
      PhaseTicks(Phases[k]) counts, the term OnTicks adds for that phase. */
  lemma CycleSchedule(s: State, k: nat)
    requires s.pwmBit == 0x80 && k < 8
    ensures Ticks(s, k).pwmBit == Phases[k] && Ticks(s, k).display == s.display
    ensures (Tick(Ticks(s, k)).p3 & RedPin != 0) == (Phases[k] & s.display.red != 0)
    ensures (Tick(Ticks(s, k)).p3 & GreenPin != 0) == (Phases[k] & s.display.green != 0)
    ensures (Tick(Ticks(s, k)).p3 & BluePin != 0) == (Phases[k] & s.display.blue != 0)
    ensures 0x10000 - (Tick(Ticks(s, k)).th0 as int * 0x100 + Tick(Ticks(s, k)).tl0 as int)
            == PhaseTicks(Phases[k])
  {
    TicksFollowPhases(s, 0, k);
    TickReload(Ticks(s, k));
  }

  /** The interrupts up to and including the next wrap of the phase,
      which is when clocktime and the DMX timeout advance. */
  function Cycle(s: State): State
    decreases s.pwmBit
  {
    if s.pwmBit <= 0x01 then Tick(s) else Cycle(Tick(s))
  }

  /** Whatever the phase, running to the next wrap advances the tick
      counter and the DMX timeout by exactly one and leaves the phase at
      the top of the cycle. */
  lemma {:induction false} CycleEffect(s: State)
    ensures Cycle(s).pwmBit == 0x80
    ensures Cycle(s).clocktime == s.clocktime + 1 && Cycle(s).dmxTimeout == IncU16(s.dmxTimeout)
    ensures SameOutsideTimer(s, Cycle(s))
    decreases s.pwmBit
  {
    if s.pwmBit > 0x01 {
      TickInside(s);
      CycleEffect(Tick(s));
    }
  }

  /** From the top of the cycle, the run to the next wrap is the eight
      interrupts of one cycle. */
  lemma CycleIsEightTicks(s: State)
    requires s.pwmBit == 0x80
    ensures Cycle(s) == Ticks(s, 8)
  {
    var t1 := Tick(s);
    TickInside(s);
    var t2 := Tick(t1);
    TickInside(t1);
    var t3 := Tick(t2);
    TickInside(t2);
    var t4 := Tick(t3);
    TickInside(t3);
    var t5 := Tick(t4);
    TickInside(t4);
    var t6 := Tick(t5);
    TickInside(t5);
    var t7 := Tick(t6);
    TickInside(t6);
    assert Cycle(t7) == Ticks(t7, 1);
    assert Cycle(t6) == Ticks(t6, 2);
    assert Cycle(t5) == Ticks(t5, 3);
    assert Cycle(t4) == Ticks(t4, 4);
    assert Cycle(t3) == Ticks(t3, 5);
    assert Cycle(t2) == Ticks(t2, 6);
    assert Cycle(t1) == Ticks(t1, 7);
  }

  /** The state after n wraps of the phase and nothing else. */
  function Cycles(s: State, n: nat): State
    decreases n
  {
    if n == 0 then s else Cycles(Cycle(s), n - 1)
  }

  /** Without a frame the DMX timeout counts cycles, modulo 2^16. */
  lemma {:induction false} TimeoutCountsCycles(s: State, n: nat)
    ensures n > 0 ==> Cycles(s, n).pwmBit == 0x80
    ensures Cycles(s, n).dmxTimeout == (s.dmxTimeout + n) % 0x10000
    ensures SameOutsideTimer(s, Cycles(s, n))
    decreases n
  {
    if n > 0 {
      CycleEffect(s);
      TimeoutCountsCycles(Cycle(s), n - 1);
    }
  }

  /** The signal-loss rule in time: in DMX mode, while the count has not
      wrapped, a pass of the main loop darkens the output exactly when at
      least 480 - t cycles have passed since the timeout stood at t, about
      one second (480 cycles of 4088 timer counts) after the last accepted
      frame. */
  lemma SignalLoss(s: State, n: nat, p1: bv8, p3: bv8)
    requires IsDmxMode(p3) && s.dmxTimeout + n <= 0xFFFF
    ensures s.dmxTimeout + n >= LossThreshold ==> LoopStep(Cycles(s, n), p1, p3).display == Black
    ensures s.dmxTimeout + n < LossThreshold ==> LoopStep(Cycles(s, n), p1, p3).display == s.display
  {
    TimeoutCountsCycles(s, n);
  }
}
