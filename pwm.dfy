/** The PWM generator: the Timer-0 interrupt `clockinc` renders the three
    intensities by bit-angle modulation, one bit per phase, the phase of
    bit weight w lasting 16w + 1 timer counts. */
module Pwm {
  import opened Types

  /** The colour outputs, P3.2 to P3.4. */
  const RedPin: bv8 := 0x04
  const GreenPin: bv8 := 0x08
  const BluePin: bv8 := 0x10
  const ColourPins: bv8 := 0x1C

  /** The port-3 latch after the output half of `clockinc`: each colour
      pin is on exactly when its intensity has the current phase's bit. */
  function PwmOutputs(port: bv8, phase: bv8, c: Rgb): (r: bv8)
    ensures (r & RedPin != 0) == (phase & c.red != 0)
    ensures (r & GreenPin != 0) == (phase & c.green != 0)
    ensures (r & BluePin != 0) == (phase & c.blue != 0)
    ensures r & !ColourPins == port & !ColourPins
  {
    var withRed := Drive(port, RedPin, phase & c.red != 0);
    var withGreen := Drive(withRed, GreenPin, phase & c.green != 0);
    Drive(withGreen, BluePin, phase & c.blue != 0)
  }

  // TH0 = ~(pwm_bit >> 4) and TL0 = ~(pwm_bit << 4): the byte is promoted
  // to a 16-bit int, shifted and complemented, and the store keeps its low byte.
  function ReloadHigh(phase: bv8): bv8 {
    (!((phase as bv16) >> 4) & 0xFF) as bv8
  }

  function ReloadLow(phase: bv8): bv8 {
    (!((phase as bv16) << 4) & 0xFF) as bv8
  }

  /** The 16-bit reload TH0:TL0 written for a phase. */
  function Reload(phase: bv8): (r: int)
    ensures r == 0xFFFF - 16 * phase as int
  {
    ReloadHigh(phase) as int * 0x100 + ReloadLow(phase) as int
  }

  /** Timer 0 in mode 1 counts up from the reload and interrupts when it
      overflows past 0xFFFF, so a phase lasts in proportion to its weight. */
  function PhaseTicks(phase: bv8): (n: int)
    ensures n == 16 * phase as int + 1
  {
    0x10000 - Reload(phase)
  }

  /** The phase after `phase`. */
  function NextPhase(phase: bv8): bv8 {
    if phase <= 0x01 then 0x80 else phase >> 1
  }

  /** A value with a single bit set: one of the eight designed phases. */
  predicate IsPhase(p: bv8) {
    p == 0x80 || p == 0x40 || p == 0x20 || p == 0x10 || p == 0x08 || p == 0x04 || p == 0x02 || p == 0x01
  }

  /** The phase after n interrupts. */
  function Iterate(p: bv8, n: nat): bv8
    decreases n
  {
    if n == 0 then p else Iterate(NextPhase(p), n - 1)
  }

  lemma PhaseStep(p: bv8)
    requires IsPhase(p)
    ensures IsPhase(NextPhase(p))
    ensures p == 0x01 ==> NextPhase(p) == 0x80
    ensures p != 0x01 ==> 2 * NextPhase(p) as int == p as int
  {
  }

  lemma {:induction false} IterateAdd(p: bv8, m: nat, n: nat)
    ensures Iterate(p, m + n) == Iterate(Iterate(p, m), n)
    decreases m
  {
    if m > 0 {
      IterateAdd(NextPhase(p), m - 1, n);
    }
  }

  /** Once a phase, always a phase. */
  lemma {:induction false} PhasesStayPhases(p: bv8, n: nat)
    requires IsPhase(p)
    ensures IsPhase(Iterate(p, n))
    decreases n
  {
    if n > 0 {
      PhaseStep(p);
      PhasesStayPhases(NextPhase(p), n - 1);
    }
  }

  /** The eight phases form one cycle: back to the start after exactly
      eight interrupts and not before. */
  lemma PhaseCycle(p: bv8)
    requires IsPhase(p)
    ensures Iterate(p, 8) == p
    ensures forall k :: 0 < k < 8 ==> Iterate(p, k) != p
  {
    var q1 := NextPhase(p);
    var q2 := NextPhase(q1);
    var q3 := NextPhase(q2);
    var q4 := NextPhase(q3);
    var q5 := NextPhase(q4);
    var q6 := NextPhase(q5);
    var q7 := NextPhase(q6);
    assert Iterate(p, 1) == q1;
    assert Iterate(p, 2) == q2 by { IterateAdd(p, 1, 1); }
    assert Iterate(p, 3) == q3 by { IterateAdd(p, 2, 1); }
    assert Iterate(p, 4) == q4 by { IterateAdd(p, 3, 1); }
    assert Iterate(p, 5) == q5 by { IterateAdd(p, 4, 1); }
    assert Iterate(p, 6) == q6 by { IterateAdd(p, 5, 1); }
    assert Iterate(p, 7) == q7 by { IterateAdd(p, 6, 1); }
    assert Iterate(p, 8) == NextPhase(q7) by { IterateAdd(p, 7, 1); }
  }

  /** From any start value the generator falls into the designed cycle
      within seven interrupts. */
  lemma SelfSynchronising(p: bv8)
    ensures IsPhase(Iterate(p, 7))
  {
    var q1 := NextPhase(p);
    var q2 := NextPhase(q1);
    var q3 := NextPhase(q2);
    var q4 := NextPhase(q3);
    var q5 := NextPhase(q4);
    var q6 := NextPhase(q5);
    var q7 := NextPhase(q6);
    assert Iterate(p, 7) == q7 by {
      IterateAdd(p, 1, 6);
      IterateAdd(q1, 1, 5);
      IterateAdd(q2, 1, 4);
      IterateAdd(q3, 1, 3);
      IterateAdd(q4, 1, 2);
      IterateAdd(q5, 1, 1);
    }
  }

  /** The phases in the order of one cycle, starting after a wrap. */
  const Phases: seq<bv8> := [0x80, 0x40, 0x20, 0x10, 0x08, 0x04, 0x02, 0x01]

  lemma PhasesFollowTheCycle(k: nat)
    requires k < 8
    ensures Phases[k] == Iterate(0x80, k)
  {
    if k > 0 {
      PhasesFollowTheCycle(k - 1);
      IterateAdd(0x80, k - 1, 1);
    }
  }

  /** Timer counts, over the given phases, during which a channel of
      intensity v is driven on. */
  function OnTicks(phases: seq<bv8>, v: bv8): int {
    if phases == [] then 0
    else (if phases[0] & v != 0 then PhaseTicks(phases[0]) else 0) + OnTicks(phases[1..], v)
  }

  /** The sum of the phase weights of v among the given phases. */
  function Weight(phases: seq<bv8>, v: bv8): int {
    if phases == [] then 0
    else (if phases[0] & v != 0 then phases[0] as int else 0) + Weight(phases[1..], v)
  }

  /** How many of the given phases carry a bit of v. */
  function SetBits(phases: seq<bv8>, v: bv8): (n: nat)
    ensures n <= |phases|
  {
    if phases == [] then 0
    else (if phases[0] & v != 0 then 1 else 0) + SetBits(phases[1..], v)
  }

  lemma {:induction false} OnTicksSplit(phases: seq<bv8>, v: bv8)
    ensures OnTicks(phases, v) == 16 * Weight(phases, v) + SetBits(phases, v)
  {
    if phases != [] {
      OnTicksSplit(phases[1..], v);
    }
  }

  /** The weights of the eight phases are the binary digits of v. */
  lemma WeightIsValue(v: bv8)
    ensures Weight(Phases, v) == v as int
  {
    var s := Phases;
    assert Weight(s[7..], v) == (if v & 0x01 != 0 then 1 else 0);
    assert Weight(s[6..], v) == (if v & 0x02 != 0 then 2 else 0) + Weight(s[7..], v);
    assert Weight(s[5..], v) == (if v & 0x04 != 0 then 4 else 0) + Weight(s[6..], v);
    assert Weight(s[4..], v) == (if v & 0x08 != 0 then 8 else 0) + Weight(s[5..], v);
    assert Weight(s[3..], v) == (if v & 0x10 != 0 then 16 else 0) + Weight(s[4..], v);
    assert Weight(s[2..], v) == (if v & 0x20 != 0 then 32 else 0) + Weight(s[3..], v);
    assert Weight(s[1..], v) == (if v & 0x40 != 0 then 64 else 0) + Weight(s[2..], v);
    assert Weight(s, v) == (if v & 0x80 != 0 then 128 else 0) + Weight(s[1..], v);
  }

  /** Over one full cycle a channel of intensity v is on for 16v timer
      counts plus one per set bit. */
  lemma DutyCycle(v: bv8)
    ensures OnTicks(Phases, v) == 16 * v as int + SetBits(Phases, v)
  {
    OnTicksSplit(Phases, v);
    WeightIsValue(v);
  }

  /** A full cycle lasts 4088 timer counts: full intensity is on in all
      eight phases. */
  lemma CycleLength()
    ensures OnTicks(Phases, 0xFF) == 4088
  {
    DutyCycle(0xFF);
    assert SetBits(Phases, 0xFF) == 8;
  }

  /** The duty cycle of intensity v is v/255 to within one count per phase. */
  lemma DutyCycleError(v: bv8)
    ensures -8 * 255 <= 255 * OnTicks(Phases, v) - 4088 * v as int <= 8 * 255
  {
    DutyCycle(v);
    var c := SetBits(Phases, v);
    assert 255 * OnTicks(Phases, v) - 4088 * v as int == 255 * c - 8 * v as int;
  }

  /** One Timer-0 interrupt, `clockinc`: drive the colour pins for the
      current phase, reload the timer, and step the phase; on a wrap the
      tick counter and the DMX timeout each advance by one. */
  function Tick(s: State): (t: State)
    ensures t.p3 == PwmOutputs(s.p3, s.pwmBit, s.display)
    ensures t.pwmBit == NextPhase(s.pwmBit)
    ensures s.pwmBit <= 0x01 ==> t.clocktime == s.clocktime + 1 && t.dmxTimeout == IncU16(s.dmxTimeout)
    ensures s.pwmBit > 0x01 ==> t.clocktime == s.clocktime && t.dmxTimeout == s.dmxTimeout
    ensures t.(p3 := s.p3, th0 := s.th0, tl0 := s.tl0, pwmBit := s.pwmBit,
               clocktime := s.clocktime, dmxTimeout := s.dmxTimeout) == s
  {
    var wrap := s.pwmBit <= 0x01;
    s.(p3 := PwmOutputs(s.p3, s.pwmBit, s.display),
       th0 := ReloadHigh(s.pwmBit),
       tl0 := ReloadLow(s.pwmBit),
       pwmBit := NextPhase(s.pwmBit),
       clocktime := if wrap then s.clocktime + 1 else s.clocktime,
       dmxTimeout := if wrap then IncU16(s.dmxTimeout) else s.dmxTimeout)
  }

  /** The reload `clockinc` writes makes the next timer period 16 times
      the weight of the phase it has just put out, plus one. */
  lemma TickReload(s: State)
    ensures Tick(s).th0 as int * 0x100 + Tick(s).tl0 as int == 0xFFFF - 16 * s.pwmBit as int
    ensures 0x10000 - (Tick(s).th0 as int * 0x100 + Tick(s).tl0 as int) == PhaseTicks(s.pwmBit)
  {
    assert Reload(s.pwmBit) == 0xFFFF - 16 * s.pwmBit as int;
  }
}
