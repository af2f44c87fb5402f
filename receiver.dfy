/** The DMX512 receiver: the serial interrupt `SerialInt` reassembles a
    frame byte by byte. A break arrives as a framing error carrying a zero
    byte; the byte after it is the start code (0 for dimmer data), then
    one byte per slot. byteCnt is -1 at the start code, so data slot i
    (counted from 1) is received with byteCnt == i - 1. */
module Receiver {
  import opened Types

  /** RI, the receive-interrupt flag, bit 0 of SCON. */
  const RI: bv8 := 0x01
  /** FE, the framing-error flag, bit 7 of SCON (SMOD0 is set). */
  const FE: bv8 := 0x80

  /** The break that ends one frame and starts the next. */
  predicate IsBreak(scon: bv8, sbuf: bv8) {
    scon & RI != 0 && scon & FE != 0 && sbuf == 0
  }

  /** A break that publishes the staged colour: the frame just ended had
      the same slot count as the one before and stayed clean. */
  predicate Commits(s: State, scon: bv8, sbuf: bv8) {
    IsBreak(scon, sbuf) && s.byteCnt == s.lastPacketSize && s.goodPacket
  }

  /** Frame-boundary processing. */
  function OnBreak(s: State): (t: State)
    ensures s.byteCnt != s.lastPacketSize ==>
      t.lastPacketSize == s.byteCnt && t.display == s.display && t.dmxTimeout == s.dmxTimeout
    ensures s.byteCnt == s.lastPacketSize ==>
      t.lastPacketSize == s.lastPacketSize &&
      (if s.goodPacket then t.display == s.staging && t.dmxTimeout == 0
       else t.display == s.display && t.dmxTimeout == s.dmxTimeout)
    ensures t.staging == Black && t.goodPacket && t.byteCnt == -1
    ensures t.(lastPacketSize := s.lastPacketSize, display := s.display, dmxTimeout := s.dmxTimeout,
               staging := s.staging, goodPacket := s.goodPacket, byteCnt := s.byteCnt) == s
  {
    // a frame of a new length is never trusted: it only records the length
    var sized := if s.byteCnt != s.lastPacketSize then s.(lastPacketSize := s.byteCnt, goodPacket := false) else s;
    var committed := if sized.goodPacket then sized.(dmxTimeout := 0, display := sized.staging) else sized;
    committed.(staging := Black, goodPacket := true, byteCnt := -1)
  }

  /** A framing error that is not a break: the frame is spoilt, and the
      byte is not counted. */
  function OnFrameError(s: State): (t: State)
    ensures !t.goodPacket
    ensures t.(goodPacket := s.goodPacket) == s
  {
    s.(goodPacket := false)
  }

  /** A correctly framed byte. */
  function OnData(s: State, b: bv8): (t: State)
    ensures t.goodPacket == (s.goodPacket && (s.byteCnt == -1 ==> b == 0))
    ensures t.staging.red == if s.byteCnt == s.address then b else s.staging.red
    ensures t.staging.green == if s.byteCnt == s.address + 1 then b else s.staging.green
    ensures t.staging.blue == if s.byteCnt == s.address + 2 then b else s.staging.blue
    ensures s.byteCnt < 0x7FFF ==> t.byteCnt == s.byteCnt + 1
    ensures t.(goodPacket := s.goodPacket, staging := s.staging, byteCnt := s.byteCnt) == s
  {
    var good := if s.byteCnt == -1 && b != 0 then false else s.goodPacket;
    var staging :=
      if s.byteCnt == s.address then s.staging.(red := b)
      else if s.byteCnt == s.address + 1 then s.staging.(green := b)
      else if s.byteCnt == s.address + 2 then s.staging.(blue := b)
      else s.staging;
    s.(goodPacket := good, staging := staging, byteCnt := Inc16(s.byteCnt))
  }

  /** One serial interrupt with the given SCON and SBUF. Only a committing
      break changes the displayed colour and the DMX timeout, and then
      publishes the staged colour and restarts the timeout. */
  function Receive(s: State, scon: bv8, sbuf: bv8): (t: State)
    ensures Commits(s, scon, sbuf) ==> t.display == s.staging && t.dmxTimeout == 0
    ensures !Commits(s, scon, sbuf) ==> t.display == s.display && t.dmxTimeout == s.dmxTimeout
    ensures scon & RI != 0 && scon & FE != 0 && sbuf != 0 ==> t == s.(goodPacket := false)
    ensures scon & RI == 0 ==> t == s
    ensures t.clocktime == s.clocktime && t.pwmBit == s.pwmBit && t.address == s.address
    ensures t.p3 == s.p3 && t.th0 == s.th0 && t.tl0 == s.tl0 && t.ie == s.ie
  {
    if scon & RI == 0 then s
    else if scon & FE != 0 then
      if sbuf == 0 then OnBreak(s) else OnFrameError(s)
    else OnData(s, sbuf)
  }

  /** SCON after the interrupt: FE and RI cleared once a byte was taken. */
  function Acknowledge(scon: bv8): (r: bv8)
    ensures scon & RI != 0 ==> r & (RI | FE) == 0 && r & !(RI | FE) == scon & !(RI | FE)
    ensures scon & RI == 0 ==> r == scon
  {
    if scon & RI != 0 then scon & !0x81 else scon
  }
}
