/** The firmware as a whole: any interleaving of Timer-0 interrupts,
    serial interrupts and main-loop passes, each taken as one atomic step. */
module Events {
  import opened Types
  import opened Pwm
  import opened Receiver
  import opened MainLoop

  datatype Event =
    | TimerTick
    | SerialByte(scon: bv8, sbuf: bv8)
    | LoopPass(p1: bv8, p3: bv8)

  function Step(s: State, e: Event): State {
    match e
    case TimerTick => Tick(s)
    case SerialByte(scon, sbuf) => Receive(s, scon, sbuf)
    case LoopPass(p1, p3) => LoopStep(s, p1, p3)
  }

  function Run(s: State, es: seq<Event>): State
    decreases |es|
  {
    if es == [] then s else Run(Step(s, es[0]), es[1..])
  }

  /** An event that cannot publish a colour in the state it meets: a
      serial byte that is not a committing break (a data byte, a spoilt
      byte, or a break closing a frame of a new length or a spoilt one),
      a timer interrupt, or a pass of the main loop in DMX mode. */
  predicate Quiet(s: State, e: Event) {
    match e
    case TimerTick => true
    case SerialByte(scon, sbuf) => !Commits(s, scon, sbuf)
    case LoopPass(_, p3) => IsDmxMode(p3)
  }

  /** A run in which every event is quiet in the state it arrives in. */
  predicate QuietRun(s: State, es: seq<Event>)
    decreases |es|
  {
    es == [] || (Quiet(s, es[0]) && QuietRun(Step(s, es[0]), es[1..]))
  }

  /** A quiet event keeps the displayed colour or blacks it out. */
  lemma QuietStep(s: State, e: Event)
    requires Quiet(s, e)
    ensures Step(s, e).display == s.display || Step(s, e).display == Black
  {
  }

  /** Until the next committed frame the outputs never show anything new:
      the colour last published stays, or the signal-loss rule darkens
      it; a dark output stays dark. */
  lemma {:induction false} NothingNewWithoutCommit(s: State, es: seq<Event>)
    requires QuietRun(s, es)
    ensures Run(s, es).display == s.display || Run(s, es).display == Black
    decreases |es|
  {
    if es != [] {
      QuietStep(s, es[0]);
      NothingNewWithoutCommit(Step(s, es[0]), es[1..]);
    }
  }

  /** 1 when the event is a timer interrupt that ends a PWM cycle. */
  function WrapOf(s: State, e: Event): nat {
    if e.TimerTick? && s.pwmBit <= 0x01 then 1 else 0
  }

  /** The timer interrupts of a run that end a PWM cycle: those that meet
      the phase at 0x01 or below. */
  function Wraps(s: State, es: seq<Event>): nat
    decreases |es|
  {
    if es == [] then 0
    else WrapOf(s, es[0]) + Wraps(Step(s, es[0]), es[1..])
  }

  function Min(a: int, b: int): int {
    if a <= b then a else b
  }

  /** One quiet event: the timeout advances by the wrap, or is held at
      480 from at least that; the display stays while below 480. */
  lemma QuietStepTimeout(s: State, e: Event)
    requires Quiet(s, e) && s.dmxTimeout + WrapOf(s, e) <= 0xFFFF
    ensures Min(s.dmxTimeout + WrapOf(s, e), LossThreshold) <= Step(s, e).dmxTimeout
    ensures Step(s, e).dmxTimeout <= s.dmxTimeout + WrapOf(s, e)
    ensures s.dmxTimeout + WrapOf(s, e) < LossThreshold ==> Step(s, e).display == s.display
  {
  }

  /** Without a committed frame the DMX timeout counts the cycles that end,
      except that a DMX-mode pass of the main loop holds it at 480 once it
      gets there; and while the count stays below 480 the display is kept. */
  lemma {:induction false} TimeoutUnderTraffic(s: State, es: seq<Event>)
    requires QuietRun(s, es) && s.dmxTimeout + Wraps(s, es) <= 0xFFFF
    ensures Min(s.dmxTimeout + Wraps(s, es), LossThreshold) <= Run(s, es).dmxTimeout
    ensures Run(s, es).dmxTimeout <= s.dmxTimeout + Wraps(s, es)
    ensures s.dmxTimeout + Wraps(s, es) < LossThreshold ==> Run(s, es).display == s.display
    decreases |es|
  {
    if es != [] {
      var t := Step(s, es[0]);
      QuietStepTimeout(s, es[0]);
      TimeoutUnderTraffic(t, es[1..]);
    }
  }

  /** The signal-loss rule under any traffic: once 480 - t cycles have
      ended since the timeout stood at t with no frame committed in
      between, whatever invalid frames, spoilt bytes or DMX-mode loop
      passes came meanwhile, the next DMX-mode pass darkens the output;
      before that the output is kept. */
  lemma DarkAfterASecond(s: State, es: seq<Event>, p1: bv8, p3: bv8)
    requires QuietRun(s, es) && IsDmxMode(p3) && s.dmxTimeout + Wraps(s, es) <= 0xFFFF
    ensures s.dmxTimeout + Wraps(s, es) >= LossThreshold ==> LoopStep(Run(s, es), p1, p3).display == Black
    ensures s.dmxTimeout + Wraps(s, es) < LossThreshold ==> LoopStep(Run(s, es), p1, p3).display == s.display
  {
    TimeoutUnderTraffic(s, es);
  }

  /** Every event keeps the PWM phase one of the eight designed values. */
  lemma StepKeepsPhase(s: State, e: Event)
    requires IsPhase(s.pwmBit)
    ensures IsPhase(Step(s, e).pwmBit)
  {
    if e.TimerTick? {
      PhaseStep(s.pwmBit);
    }
  }

  /** Once the phase is one of the designed values it stays one, whatever
      the interrupts and the main loop do. */
  lemma {:induction false} RunKeepsPhase(s: State, es: seq<Event>)
    requires IsPhase(s.pwmBit)
    ensures IsPhase(Run(s, es).pwmBit)
    decreases |es|
  {
    if es != [] {
      StepKeepsPhase(s, es[0]);
      RunKeepsPhase(Step(s, es[0]), es[1..]);
    }
  }
}
