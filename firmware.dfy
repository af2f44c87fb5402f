/** The firmware's globals as one object, with one method per entry
    point: the Timer-0 interrupt, the serial interrupt and one pass of
    the main loop. Each method is specified by the step function of
    the same behaviour on the value view of the globals. */
module Firmware {
  import opened Types
  import opened Pwm
  import opened Receiver
  import opened MainLoop

  /** The globals once `main` has set up the peripherals and entered its
      loop: everything zero except the DMX timeout, which starts at the
      loss threshold so that no signal is assumed; the timer's first
      period of 2000 counts; GF0 and the port-3 latch as the hardware
      reset left them. */
  function PowerOn(gf0: bool, p3Reset: bv8): (s: State)
    ensures s.dmxTimeout == LossThreshold && s.display == Black && s.staging == Black
    ensures s.byteCnt == 0 && s.lastPacketSize == 0 && s.address == 0 && s.clocktime == 0
    ensures s.pwmBit == 0
    ensures s.goodPacket == gf0 && s.p3 == p3Reset && s.ie == DmxInterrupts
    ensures s.th0 as int * 0x100 + s.tl0 as int == 0x10000 - 2000
  {
    State(0, 0, Black, 0, 0, Black, 0, LossThreshold, gf0, p3Reset,
          ((0x10000 - 2000) / 0x100) as bv8, ((0x10000 - 2000) % 0x100) as bv8, DmxInterrupts)
  }

  class Controller {
    var clocktime: bv32
    var pwmBit: bv8
    var red: bv8
    var green: bv8
    var blue: bv8
    var byteCnt: Int16
    var lastPacketSize: Int16
    var tempR: bv8
    var tempG: bv8
    var tempB: bv8
    var address: Address
    var dmxTimeout: Uint16
    /** GF0, bit 2 of PCON: the good-packet flag. */
    var goodPacket: bool
    /** The output latch of port 3. */
    var p3: bv8
    var th0: bv8
    var tl0: bv8
    var ie: bv8

    function View(): State
      reads this
    {
      State(clocktime, pwmBit, Rgb(red, green, blue), byteCnt, lastPacketSize,
            Rgb(tempR, tempG, tempB), address, dmxTimeout, goodPacket, p3, th0, tl0, ie)
    }

    constructor (gf0: bool, p3Reset: bv8)
      ensures View() == PowerOn(gf0, p3Reset)
    {
      clocktime := 0;
      pwmBit := 0;
      red, green, blue := 0, 0, 0;
      byteCnt := 0;
      lastPacketSize := 0;
      tempR, tempG, tempB := 0, 0, 0;
      address := 0;
      goodPacket := gf0;
      p3 := p3Reset;
      th0 := ((0x10000 - 2000) / 0x100) as bv8;
      tl0 := ((0x10000 - 2000) % 0x100) as bv8;
      ie := DmxInterrupts;
      dmxTimeout := LossThreshold;
    }

    /** The Timer-0 interrupt. */
    method ClockInc()
      modifies this`p3, this`th0, this`tl0, this`pwmBit, this`clocktime, this`dmxTimeout
      ensures Ticked()
    {
      p3 := PwmOutputs(p3, pwmBit, Rgb(red, green, blue));
      th0 := ReloadHigh(pwmBit);
      tl0 := ReloadLow(pwmBit);
      if pwmBit <= 0x01 {
        pwmBit := 0x80;
        clocktime := clocktime + 1;
        dmxTimeout := IncU16(dmxTimeout);
      } else {
        pwmBit := pwmBit >> 1;
      }
    }

    /** What one Timer-0 interrupt does to the fields it writes. */
    twostate predicate Ticked()
      reads this
    {
      && p3 == PwmOutputs(old(p3), old(pwmBit), Rgb(old(red), old(green), old(blue)))
      && th0 == ReloadHigh(old(pwmBit)) && tl0 == ReloadLow(old(pwmBit))
      && pwmBit == NextPhase(old(pwmBit))
      && clocktime == (if old(pwmBit) <= 0x01 then old(clocktime) + 1 else old(clocktime))
      && dmxTimeout == (if old(pwmBit) <= 0x01 then IncU16(old(dmxTimeout)) else old(dmxTimeout))
    }

    /** Any change ClockInc may make is one Tick of the value view. */
    twostate lemma TickedIsTick()
      requires Ticked()
      requires unchanged(this`red, this`green, this`blue, this`byteCnt, this`lastPacketSize,
                         this`tempR, this`tempG, this`tempB, this`address, this`goodPacket, this`ie)
      ensures View() == Tick(old(View()))
    {
    }

    /** The serial interrupt, given SCON and SBUF as the UART left them;
        returns SCON as the handler leaves it. */
    method SerialInt(scon: bv8, sbuf: bv8) returns (sconAfter: bv8)
      modifies this`lastPacketSize, this`goodPacket, this`dmxTimeout, this`red, this`green, this`blue,
               this`tempR, this`tempG, this`tempB, this`byteCnt
      ensures Received(scon, sbuf)
      ensures sconAfter == Acknowledge(scon)
    {
      sconAfter := scon;
      if scon & RI != 0 {
        if scon & FE != 0 {
          if sbuf == 0 {
            TakeBreak();
          } else {
            // a framing error inside a frame spoils it, and the byte is not counted
            goodPacket := false;
          }
        } else {
          TakeSlot(sbuf);
        }
        sconAfter := scon & !0x81;
      }
    }

    /** The break: check the frame just ended, publish it if it passes,
        and arm the receiver for the next one. */
    method TakeBreak()
      modifies this`lastPacketSize, this`goodPacket, this`dmxTimeout, this`red, this`green, this`blue,
               this`tempR, this`tempG, this`tempB, this`byteCnt
      ensures FrameEnded()
    {
      if byteCnt != lastPacketSize {
        lastPacketSize := byteCnt;
        goodPacket := false;
      }
      if goodPacket {
        dmxTimeout := 0;
        red, green, blue := tempR, tempG, tempB;
      }
      tempR, tempG, tempB := 0, 0, 0;
      goodPacket := true;
      byteCnt := -1;
    }

    /** A correctly framed byte: the start code or one slot. */
    method TakeSlot(b: bv8)
      modifies this`goodPacket, this`tempR, this`tempG, this`tempB, this`byteCnt
      ensures SlotTaken(b)
    {
      if byteCnt == -1 {
        if b != 0 {
          goodPacket := false;
        }
      }
      if byteCnt == address {
        tempR := b;
      } else if byteCnt == address + 1 {
        tempG := b;
      } else if byteCnt == address + 2 {
        tempB := b;
      }
      byteCnt := Inc16(byteCnt);
    }

    predicate Displayed(c: Rgb)
      reads this
    {
      red == c.red && green == c.green && blue == c.blue
    }

    predicate StagedAs(c: Rgb)
      reads this
    {
      tempR == c.red && tempG == c.green && tempB == c.blue
    }

    /** The break's work: the frame just ended is published only if it
        was clean and as long as the one before; then the receiver is
        armed for the next frame. */
    twostate predicate FrameEnded()
      reads this
    {
      && lastPacketSize == old(byteCnt)
      && (if old(byteCnt) == old(lastPacketSize) && old(goodPacket)
          then dmxTimeout == 0 && Displayed(Rgb(old(tempR), old(tempG), old(tempB)))
          else dmxTimeout == old(dmxTimeout) && Displayed(Rgb(old(red), old(green), old(blue))))
      && StagedAs(Black) && goodPacket && byteCnt == -1
    }

    /** A slot byte's work: a non-zero start code spoils the frame, the
        three slots from the address on are staged, and the count advances. */
    twostate predicate SlotTaken(b: bv8)
      reads this
    {
      && goodPacket == (old(goodPacket) && (old(byteCnt) == -1 ==> b == 0))
      && tempR == (if old(byteCnt) == address then b else old(tempR))
      && tempG == (if old(byteCnt) == address + 1 then b else old(tempG))
      && tempB == (if old(byteCnt) == address + 2 then b else old(tempB))
      && byteCnt == Inc16(old(byteCnt))
    }

    /** What one serial interrupt does to the receiver's fields. */
    twostate predicate Received(scon: bv8, sbuf: bv8)
      reads this
    {
      var display := Rgb(old(red), old(green), old(blue));
      var staging := Rgb(old(tempR), old(tempG), old(tempB));
      if scon & RI == 0 then
        && lastPacketSize == old(lastPacketSize) && goodPacket == old(goodPacket)
        && dmxTimeout == old(dmxTimeout) && Displayed(display) && StagedAs(staging)
        && byteCnt == old(byteCnt)
      else if scon & FE != 0 && sbuf == 0 then
        FrameEnded()
      else if scon & FE != 0 then
        && lastPacketSize == old(lastPacketSize) && !goodPacket
        && dmxTimeout == old(dmxTimeout) && Displayed(display) && StagedAs(staging)
        && byteCnt == old(byteCnt)
      else
        && SlotTaken(sbuf)
        && lastPacketSize == old(lastPacketSize) && dmxTimeout == old(dmxTimeout) && Displayed(display)
    }

    /** Any change SerialInt may make is one Receive of the value view. */
    twostate lemma ReceivedIsReceive(scon: bv8, sbuf: bv8)
      requires Received(scon, sbuf)
      requires unchanged(this`clocktime, this`pwmBit, this`address, this`p3, this`th0, this`tl0, this`ie)
      ensures View() == Receive(old(View()), scon, sbuf)
    {
    }

    /** One pass of the main loop, given the pin levels of ports 1 and 3. */
    method MainLoopPass(p1: bv8, p3Pins: bv8)
      modifies this`address, this`ie, this`p3, this`dmxTimeout, this`red, this`green, this`blue
      ensures Looped(p1, p3Pins)
    {
      var mode := p3Pins & ModePin;
      address := DecodeAddress(p1, p3Pins);
      if mode != 0 {
        DmxMode();
      } else {
        FunMode();
      }
    }

    /** DMX mode: the signal-loss rule and the LED cadence. */
    method DmxMode()
      modifies this`ie, this`p3, this`dmxTimeout, this`red, this`green, this`blue
      ensures DmxKept()
    {
      ie := DmxInterrupts;
      if dmxTimeout >= LossThreshold {
        p3 := StatusLed(p3, clocktime, SlowBlink);
        dmxTimeout := LossThreshold;
        red, green, blue := 0, 0, 0;
      } else {
        p3 := StatusLed(p3, clocktime, FastBlink);
      }
    }

    /** Fun mode 0: the LED steadily on and the colour the switches select. */
    method FunMode()
      modifies this`ie, this`p3, this`red, this`green, this`blue
      ensures FunShown()
    {
      ie := FunInterrupts;
      p3 := p3 & !LedPin;
      var c := FunColour(address);
      red, green, blue := c.red, c.green, c.blue;
    }

    /** DMX mode's work: after about a second without an accepted frame
        the output goes dark, the timeout is held at the threshold and the
        LED blinks slowly; otherwise the LED blinks fast. */
    twostate predicate DmxKept()
      reads this
    {
      && ie == DmxInterrupts
      && if old(dmxTimeout) >= LossThreshold then
           && p3 == StatusLed(old(p3), clocktime, SlowBlink)
           && dmxTimeout == LossThreshold && Displayed(Black)
         else
           && p3 == StatusLed(old(p3), clocktime, FastBlink)
           && dmxTimeout == old(dmxTimeout) && Displayed(Rgb(old(red), old(green), old(blue)))
    }

    /** Fun mode's work: serial interrupts off, the LED steadily lit, and
        the colour selected by the switches shown. */
    twostate predicate FunShown()
      reads this
    {
      ie == FunInterrupts && p3 == old(p3) & !LedPin && Displayed(FunColour(address))
    }

    /** What one pass of the main loop does to the fields it writes. */
    twostate predicate Looped(p1: bv8, p3Pins: bv8)
      reads this
    {
      && address == DecodeAddress(p1, p3Pins)
      && if IsDmxMode(p3Pins) then DmxKept() else FunShown() && dmxTimeout == old(dmxTimeout)
    }

    /** Any change MainLoopPass may make is one LoopStep of the value view. */
    twostate lemma LoopedIsLoopStep(p1: bv8, p3Pins: bv8)
      requires Looped(p1, p3Pins)
      requires unchanged(this`clocktime, this`pwmBit, this`byteCnt, this`lastPacketSize,
                         this`tempR, this`tempG, this`tempB, this`goodPacket, this`th0, this`tl0)
      ensures View() == LoopStep(old(View()), p1, p3Pins)
    {
    }
  }
}
