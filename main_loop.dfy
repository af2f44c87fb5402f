/** One pass of the main loop: read the switches, then either keep the
    DMX signal-loss rule and the status-LED cadence (DMX mode) or show
    the colour the switches select (Fun mode). */
module MainLoop {
  import opened Types

  /** The mode switch (DIP10), P3.5: set means DMX mode. */
  const ModePin: bv8 := 0x20
  /** The status LED, P3.6, active low. */
  const LedPin: bv8 := 0x40
  /** IE with the Timer-0 and serial interrupts enabled (EA, ES, ET0). */
  const DmxInterrupts: bv8 := 0x92
  /** IE with only the Timer-0 interrupt enabled (EA, ET0). */
  const FunInterrupts: bv8 := 0x82
  /** The placeholder colour of the unimplemented Fun programs. */
  const Dim := Rgb(32, 32, 32)

  predicate IsDmxMode(p3: bv8) {
    p3 & ModePin != 0
  }

  /** The LED lights when its pin is driven low. */
  predicate LedLit(p3: bv8) {
    p3 & LedPin == 0
  }

  /** `temp = ~((P1 << 1) + (P3 >> 7)) & 0x1FF`, on the 16-bit int the
      port bytes are promoted to. The switches pull their inputs low when
      on, so each address bit is the complement of one input. */
  function AddressWord(p1: bv8, p3: bv8): (w: bv16)
    ensures w < 0x200
    ensures (w & 1 != 0) == (p3 & 0x80 == 0)
    ensures (w & 0x002 != 0) == (p1 & 0x01 == 0)
    ensures (w & 0x004 != 0) == (p1 & 0x02 == 0)
    ensures (w & 0x008 != 0) == (p1 & 0x04 == 0)
    ensures (w & 0x010 != 0) == (p1 & 0x08 == 0)
    ensures (w & 0x020 != 0) == (p1 & 0x10 == 0)
    ensures (w & 0x040 != 0) == (p1 & 0x20 == 0)
    ensures (w & 0x080 != 0) == (p1 & 0x40 == 0)
    ensures (w & 0x100 != 0) == (p1 & 0x80 == 0)
  {
    !(((p1 as bv16) << 1) + ((p3 as bv16) >> 7)) & 0x1FF
  }

  /** The address is the nine-bit complement of the switch inputs P1:P3.7. */
  function DecodeAddress(p1: bv8, p3: bv8): (a: Address)
    ensures a == 0x1FF - 2 * p1 as int - (if p3 & 0x80 != 0 then 1 else 0)
  {
    AddressWord(p1, p3) as int
  }

  /** The static colour of Fun mode 0, by the if/else chain on the address. */
  function FunColour(a: Address): Rgb {
    var w := a as bv16;
    if w & 0x180 != 0 then Dim
    else if w & 0x40 != 0 then Rgb(255, 255, 255)
    else if w & 0x20 != 0 then Rgb(0, 255, 255)
    else if w & 0x10 != 0 then Rgb(255, 0, 255)
    else if w & 0x08 != 0 then Rgb(255, 255, 0)
    else if w & 0x04 != 0 then Rgb(0, 0, 255)
    else if w & 0x02 != 0 then Rgb(0, 255, 0)
    else if w & 0x01 != 0 then Rgb(255, 0, 0)
    else Black
  }

  /** The colour for a highest set bit k among the low seven switches:
      red, green, blue, yellow, magenta, cyan, white. */
  function Palette(k: nat): Rgb
    requires k < 7
  {
    [Rgb(255, 0, 0), Rgb(0, 255, 0), Rgb(0, 0, 255), Rgb(255, 255, 0),
     Rgb(255, 0, 255), Rgb(0, 255, 255), Rgb(255, 255, 255)][k]
  }

  function Pow2(k: nat): (r: nat)
    ensures r >= 1
  {
    if k == 0 then 1 else 2 * Pow2(k - 1)
  }

  /** Switches 8 and 9 select a Fun program; all of them show the placeholder. */
  lemma FunProgramIsDim(a: Address)
    requires a >= 0x80
    ensures FunColour(a) == Dim
  {
  }

  /** Otherwise the highest set bit among the low seven wins. */
  lemma FunColourByHighestBit(a: Address, k: nat)
    requires k < 7 && Pow2(k) <= a < 2 * Pow2(k)
    ensures FunColour(a) == Palette(k)
  {
    if k == 6 { assert Pow2(k) == 64; }
    else if k == 5 { assert Pow2(k) == 32; }
    else if k == 4 { assert Pow2(k) == 16; }
    else if k == 3 { assert Pow2(k) == 8; }
    else if k == 2 { assert Pow2(k) == 4; }
    else if k == 1 { assert Pow2(k) == 2; }
  }

  lemma FunColourAllOff()
    ensures FunColour(0) == Black
  {
  }

  /** Bits of clocktime that pace the LED: bit 9 flips every 512 PWM
      cycles (slow blink, no signal), bit 6 every 64 (fast blink). */
  const SlowBlink: bv32 := 0x200
  const FastBlink: bv32 := 0x40

  /** The port-3 latch after the LED update that follows the given bit of
      clocktime: the LED is lit while that bit is clear. */
  function StatusLed(p3: bv8, clocktime: bv32, pace: bv32): (r: bv8)
    ensures LedLit(r) == (clocktime & pace == 0)
    ensures r & !LedPin == p3 & !LedPin
  {
    Drive(p3, LedPin, clocktime & pace != 0)
  }

  /** One iteration of the `while(1)` loop, with the port-1 and port-3
      pin levels read in it (the watchdog feed is left out). */
  function LoopStep(s: State, p1: bv8, p3: bv8): (t: State)
    ensures t.address == DecodeAddress(p1, p3)
    ensures IsDmxMode(p3) ==>
      t.ie == DmxInterrupts &&
      t.p3 == StatusLed(s.p3, s.clocktime, if s.dmxTimeout >= LossThreshold then SlowBlink else FastBlink)
    ensures IsDmxMode(p3) && s.dmxTimeout >= LossThreshold ==>
      t.dmxTimeout == LossThreshold && t.display == Black
    ensures IsDmxMode(p3) && s.dmxTimeout < LossThreshold ==>
      t.dmxTimeout == s.dmxTimeout && t.display == s.display
    ensures !IsDmxMode(p3) ==>
      t.ie == FunInterrupts && t.dmxTimeout == s.dmxTimeout && t.display == FunColour(t.address) &&
      LedLit(t.p3) && t.p3 & !LedPin == s.p3 & !LedPin
    ensures t.(address := s.address, ie := s.ie, p3 := s.p3, dmxTimeout := s.dmxTimeout,
               display := s.display) == s
  {
    var a := DecodeAddress(p1, p3);
    if IsDmxMode(p3) then
      if s.dmxTimeout >= LossThreshold then
        // no valid frame for about a second: slow blink, clamp, dark output
        s.(address := a, ie := DmxInterrupts, p3 := StatusLed(s.p3, s.clocktime, SlowBlink),
           dmxTimeout := LossThreshold, display := Black)
      else
        s.(address := a, ie := DmxInterrupts, p3 := StatusLed(s.p3, s.clocktime, FastBlink))
    else
      s.(address := a, ie := FunInterrupts, p3 := s.p3 & !LedPin, display := FunColour(a))
  }
}
