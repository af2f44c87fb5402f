/** Whole DMX512 frames as the serial interrupt sees them: the bytes after
    a break (the start code, then the slots), closed by the next break.
    These lemmas follow the receiver byte by byte and say which frames
    reach the outputs. */
module Frames {
  import opened Types
  import opened Receiver

  /** The receiver after taking the given correctly framed bytes in order. */
  function FeedData(s: State, bytes: seq<bv8>): State
    decreases |bytes|
  {
    if bytes == [] then s else FeedData(OnData(s, bytes[0]), bytes[1..])
  }

  /** bytes[i] when i is an index of bytes, otherwise the given value. */
  function SlotOr(bytes: seq<bv8>, i: int, otherwise: bv8): bv8 {
    if 0 <= i < |bytes| then bytes[i] else otherwise
  }

  /** Taking n bytes advances the count by n; the byte taken at count -1
      is the start code, which must be zero; and the byte taken at count
      address + k becomes staged channel k. Nothing else changes. */
  lemma {:induction false} FeedDataEffect(s: State, bytes: seq<bv8>)
    requires s.byteCnt + |bytes| <= 0x7FFF
    ensures FeedData(s, bytes).byteCnt == s.byteCnt + |bytes|
    ensures FeedData(s, bytes).goodPacket ==
      (s.goodPacket && (0 <= -1 - s.byteCnt < |bytes| ==> bytes[-1 - s.byteCnt] == 0))
    ensures FeedData(s, bytes).staging ==
      Rgb(SlotOr(bytes, s.address - s.byteCnt, s.staging.red),
          SlotOr(bytes, s.address + 1 - s.byteCnt, s.staging.green),
          SlotOr(bytes, s.address + 2 - s.byteCnt, s.staging.blue))
    ensures FeedData(s, bytes).(goodPacket := s.goodPacket, staging := s.staging, byteCnt := s.byteCnt) == s
    decreases |bytes|
  {
    if bytes != [] {
      var s' := OnData(s, bytes[0]);
      FeedDataEffect(s', bytes[1..]);
      forall i: int, d: bv8 ensures SlotOr(bytes, i, d) == SlotOr(bytes[1..], i - 1, if i == 0 then bytes[0] else d) {
      }
      if 0 <= -1 - s.byteCnt < |bytes| && -1 - s.byteCnt > 0 {
        assert bytes[1..][-1 - s'.byteCnt] == bytes[-1 - s.byteCnt];
      }
    }
  }

  /** The state a break leaves: waiting for a start code, clean, nothing staged. */
  predicate Armed(s: State) {
    s.byteCnt == -1 && s.goodPacket && s.staging == Black
  }

  /** One frame: the start code and the slots, then the closing break. */
  function Frame(s: State, startCode: bv8, slots: seq<bv8>): State {
    OnBreak(FeedData(s, [startCode] + slots))
  }

  /** The three slots from the (0-based) address on; slots past the end of
      the frame read as zero. */
  function SlotColour(slots: seq<bv8>, a: Address): Rgb {
    Rgb(SlotOr(slots, a, 0), SlotOr(slots, a + 1, 0), SlotOr(slots, a + 2, 0))
  }

  /** A frame is shown exactly when its start code is zero and it has as
      many slots as the frame before it; either way its length is
      remembered and the receiver is armed again. */
  lemma FrameOutcome(s: State, startCode: bv8, slots: seq<bv8>)
    requires Armed(s) && |slots| <= 0x7FFF
    ensures Armed(Frame(s, startCode, slots)) && Frame(s, startCode, slots).lastPacketSize == |slots|
    ensures startCode == 0 && |slots| == s.lastPacketSize ==>
      Frame(s, startCode, slots).display == SlotColour(slots, s.address) &&
      Frame(s, startCode, slots).dmxTimeout == 0
    ensures !(startCode == 0 && |slots| == s.lastPacketSize) ==>
      Frame(s, startCode, slots).display == s.display &&
      Frame(s, startCode, slots).dmxTimeout == s.dmxTimeout
    ensures Frame(s, startCode, slots).(byteCnt := s.byteCnt, lastPacketSize := s.lastPacketSize,
      goodPacket := s.goodPacket, staging := s.staging, display := s.display, dmxTimeout := s.dmxTimeout) == s
  {
    var bytes := [startCode] + slots;
    FeedDataEffect(s, bytes);
    assert SlotOr(bytes, s.address + 1, 0) == SlotOr(slots, s.address, 0);
    assert SlotOr(bytes, s.address + 2, 0) == SlotOr(slots, s.address + 1, 0);
    assert SlotOr(bytes, s.address + 3, 0) == SlotOr(slots, s.address + 2, 0);
  }

  /** After the frame length changes, the first frame of the new length is
      only measured; the second one is shown. */
  lemma NewLengthTakesTwoFrames(s: State, first: seq<bv8>, second: seq<bv8>)
    requires Armed(s) && |first| == |second| <= 0x7FFF && |first| != s.lastPacketSize
    ensures Frame(s, 0, first).display == s.display
    ensures Frame(Frame(s, 0, first), 0, second).display == SlotColour(second, s.address)
  {
    FrameOutcome(s, 0, first);
    FrameOutcome(Frame(s, 0, first), 0, second);
  }

  /** A frame in which one slot arrives with a framing error that is not a
      break: the slot is dropped from the count and the frame is spoilt. */
  function CorruptFrame(s: State, before: seq<bv8>, after: seq<bv8>): State {
    OnBreak(FeedData(OnFrameError(FeedData(s, [0] + before)), after))
  }

  /** In a steady stream of n-slot frames, one corrupt slot costs two
      frames: the spoilt frame is counted one short, so the next, clean
      frame is taken as a length change and rejected too; the one after
      is shown again. */
  lemma CorruptSlotCostsTwoFrames(s: State, before: seq<bv8>, after: seq<bv8>, next: seq<bv8>, later: seq<bv8>)
    requires Armed(s)
    requires s.lastPacketSize == |before| + 1 + |after| <= 0x7FFF
    requires |next| == |later| == s.lastPacketSize
    ensures CorruptFrame(s, before, after).display == s.display
    ensures CorruptFrame(s, before, after).lastPacketSize == s.lastPacketSize - 1
    ensures Frame(CorruptFrame(s, before, after), 0, next).display == s.display
    ensures Frame(Frame(CorruptFrame(s, before, after), 0, next), 0, later).display == SlotColour(later, s.address)
  {
    var n := s.lastPacketSize;
    var fed := FeedData(s, [0] + before);
    FeedDataEffect(s, [0] + before);
    var spoilt := OnFrameError(fed);
    FeedDataEffect(spoilt, after);
    var t := CorruptFrame(s, before, after);
    assert t.lastPacketSize == n - 1 && Armed(t);
    FrameOutcome(t, 0, next);
    FrameOutcome(Frame(t, 0, next), 0, later);
  }

  /** With the switches at address 1 (0-based), a four-slot frame shows
      slots 2, 3 and 4 (counted from 1). */
  lemma AddressOneShowsSlotsTwoToFour(s: State)
    requires Armed(s) && s.address == 1 && s.lastPacketSize == 4
    ensures Frame(s, 0, [10, 20, 30, 40]).display == Rgb(20, 30, 40)
  {
    FrameOutcome(s, 0, [10, 20, 30, 40]);
  }

  /** At the top address the last two channels fall past a 512-slot frame
      and are dark. */
  lemma TopAddressPastTheEnd(s: State, slots: seq<bv8>)
    requires Armed(s) && s.address == 0x1FF && |slots| == 512 && s.lastPacketSize == 512
    ensures Frame(s, 0, slots).display == Rgb(slots[511], 0, 0)
  {
    FrameOutcome(s, 0, slots);
  }
}
