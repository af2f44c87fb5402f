/** Machine types and the shared state of the decoder firmware.
    Under SDCC on the 8051 an `unsigned char` is 8 bits, an `int` and an
    `unsigned int` are 16 bits and an `unsigned long` is 32 bits. Values
    the firmware works on bit by bit are bit-vectors, which wrap as those
    do; the two counters it only increments and compares are integers
    whose wrap-around is written out. */
module Types {

  /** A C `int`: 16-bit two's complement. */
  type Int16 = x: int | -0x8000 <= x < 0x8000

  /** A C `unsigned int`: 16 bits, no sign. */
  type Uint16 = x: int | 0 <= x < 0x10000

  /** The DMX start address read from the nine address switches. */
  type Address = x: int | 0 <= x < 0x200

  /** `x++` on a 16-bit `int`: the same bit pattern as x + 1, kept in range. */
  function Inc16(x: Int16): (r: Int16)
    ensures (r - x - 1) % 0x10000 == 0
    ensures x < 0x7FFF ==> r == x + 1
  {
    if x == 0x7FFF then -0x8000 else x + 1
  }

  /** `x++` on a 16-bit `unsigned int`: x + 1 modulo 2^16. */
  function IncU16(x: Uint16): (r: Uint16)
    ensures r == (x + 1) % 0x10000
  {
    if x == 0xFFFF then 0 else x + 1
  }

  /** One intensity per colour channel. */
  datatype Rgb = Rgb(red: bv8, green: bv8, blue: bv8)

  const Black := Rgb(0, 0, 0)

  /** `port |= pin` when `on`, `port &= ~pin` otherwise: the pin bits then
      read as `on` and the other bits are kept. */
  function Drive(port: bv8, pin: bv8, on: bool): (r: bv8)
    ensures pin != 0 ==> (r & pin != 0) == on
    ensures r & !pin == port & !pin
  {
    if on then port | pin else port & !pin
  }

  /** The globals of the firmware, as one value.
      display is red/green/blue, staging is temp_r/temp_g/temp_b,
      goodPacket is the general-purpose flag GF0 (bit 2 of PCON),
      p3 is the output latch of port 3, th0/tl0 the Timer-0 reload
      and ie the interrupt-enable register. */
  datatype State = State(
    clocktime: bv32,
    pwmBit: bv8,
    display: Rgb,
    byteCnt: Int16,
    lastPacketSize: Int16,
    staging: Rgb,
    address: Address,
    dmxTimeout: Uint16,
    goodPacket: bool,
    p3: bv8,
    th0: bv8,
    tl0: bv8,
    ie: bv8)

  /** PWM cycles without an accepted frame after which the output goes dark. */
  const LossThreshold: Uint16 := 480
}
