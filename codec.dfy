/** The register codec: register addresses the scan uses, the bit-field
    decoders applied to bytes read from them, and the register image a
    device presents, with an encoder that lays a touch report out in it. */
module Codec {
  import opened Types
  import opened Wrappers

  /** Fixed 7-bit bus address of the controller. */
  const I2C_ADDR: bv8 := 0x38

  const ADDR_DEVICE_MODE: bv8 := 0x00
  const ADDR_TD_STATUS: bv8 := 0x02
  // Point 1: the event shares 0x03 with X's high byte, the id shares 0x05 with Y's.
  const ADDR_TOUCH1_EVENT: bv8 := 0x03
  const ADDR_TOUCH1_X: bv8 := 0x03
  const ADDR_TOUCH1_ID: bv8 := 0x05
  const ADDR_TOUCH1_Y: bv8 := 0x05
  // Point 2: the same layout six registers further on.
  const ADDR_TOUCH2_EVENT: bv8 := 0x09
  const ADDR_TOUCH2_X: bv8 := 0x09
  const ADDR_TOUCH2_ID: bv8 := 0x0B
  const ADDR_TOUCH2_Y: bv8 := 0x0B

  /** Touch count: the low nibble of the status register. */
  function TouchCount(status: bv8): (n: bv8)
    ensures n == status % 16
    ensures n <= 15
  {
    status & 0x0F
  }

  /** Point id: the high nibble of the id register. */
  function PointId(b: bv8): (id: bv8)
    ensures id == b / 16
    ensures id <= 15
  {
    b >> 4
  }

  /** Event code: the top two bits of the event register
      (0 down, 1 up, 2 contact). */
  function EventCode(b: bv8): (e: bv8)
    ensures e == b / 64
    ensures e <= 3
  {
    b >> 6
  }

  /** 12-bit coordinate from a two-byte field: the low nibble of the first
      byte above all of the second. */
  function Coordinate(hi: bv8, lo: bv8): (c: bv16)
    ensures c <= 4095
    ensures (c >> 8) as bv8 == hi % 16 && (c & 0xFF) as bv8 == lo
  {
    ((hi & 0x0F) as bv16 << 8) | lo as bv16
  }

  /** Device-mode field: bits 4-6 of the device-mode register. */
  function DeviceModeField(b: bv8): (m: bv8)
    ensures m == (b / 16) % 8
    ensures m <= 7
  {
    (b & 0x70) >> 4
  }

  /** The top nibble of a coordinate's first byte (event or id bits) never
      reaches the coordinate. */
  lemma CoordinateIgnoresTopNibble(hi: bv8, hi': bv8, lo: bv8)
    requires hi & 0x0F == hi' & 0x0F
    ensures Coordinate(hi, lo) == Coordinate(hi', lo)
  {
  }

  /** Splitting a 12-bit value into its two register bytes and decoding
      them gives the value back. */
  lemma CoordinateRoundTrip(v: bv16)
    requires v <= 4095
    ensures Coordinate((v >> 8) as bv8, (v & 0xFF) as bv8) == v
  {
  }

  /** Decoding the field that ToRegister writes gives the mode back... */
  lemma DeviceModeFieldRoundTrip(m: DeviceMode)
    ensures DeviceMode.FromRegister(DeviceModeField(m.ToRegister())) == Some(m)
  {
  }

  /** ...but FromRegister applied to the raw register value ToRegister
      produces does not: it reads bits 0-2, which ToRegister leaves zero. */
  lemma DeviceModeRawPairNotInverse()
    ensures DeviceMode.FromRegister(Factory.ToRegister()) == Some(Working)
    ensures DeviceMode.FromRegister(Working.ToRegister()) == Some(Working)
  {
  }

  /** The register values of both modes, and the parse of 0x00; the
      documentation example of DeviceMode asserts the Working half. */
  lemma DeviceModeExamples()
    ensures Working.ToRegister() == 0x00 && Factory.ToRegister() == 0x40
    ensures DeviceMode.FromRegister(0x00) == Some(Working)
  {
  }

  lemma CtrlModeRoundTrip(m: CtrlMode)
    ensures CtrlMode.FromRegister(m.AsByte()) == Some(m)
  {
  }

  lemma GestureModeRoundTrip(m: GestureMode)
    ensures GestureMode.FromRegister(m.AsByte()) == Some(m)
  {
  }

  // ---------------------------------------------------------------------
  // Register image and touch reports
  // ---------------------------------------------------------------------

  /** The contents of all 256 registers the device presents. */
  type Image = s: seq<bv8> | |s| == 256 witness seq(256, _ => 0)

  /** Everything a scan can decode from a register image. */
  datatype Report = Report(
    count: bv8,
    event1: bv8, id1: bv8, x1: bv16, y1: bv16,
    event2: bv8, id2: bv8, x2: bv16, y2: bv16)

  /** The field ranges the register layout can carry. */
  predicate Encodable(r: Report) {
    && r.count <= 15
    && r.event1 <= 3 && r.id1 <= 15 && r.x1 <= 4095 && r.y1 <= 4095
    && r.event2 <= 3 && r.id2 <= 15 && r.x2 <= 4095 && r.y2 <= 4095
  }

  /** The report a register image holds, decoded field by field from the
      registers the driver reads. */
  function Decode(img: Image): (r: Report)
    ensures Encodable(r)
  {
    Report(
      TouchCount(img[ADDR_TD_STATUS]),
      EventCode(img[ADDR_TOUCH1_EVENT]), PointId(img[ADDR_TOUCH1_ID]),
      Coordinate(img[ADDR_TOUCH1_X], img[ADDR_TOUCH1_X as int + 1]),
      Coordinate(img[ADDR_TOUCH1_Y], img[ADDR_TOUCH1_Y as int + 1]),
      EventCode(img[ADDR_TOUCH2_EVENT]), PointId(img[ADDR_TOUCH2_ID]),
      Coordinate(img[ADDR_TOUCH2_X], img[ADDR_TOUCH2_X as int + 1]),
      Coordinate(img[ADDR_TOUCH2_Y], img[ADDR_TOUCH2_Y as int + 1]))
  }

  /** The byte a device holding report `r` presents at register `i`:
      the event or id shares a byte with the coordinate's high nibble. */
  function EncodedByte(r: Report, i: int): bv8 {
    if i == ADDR_TD_STATUS as int then r.count
    else if i == 0x03 then (r.event1 << 6) | (r.x1 >> 8) as bv8
    else if i == 0x04 then (r.x1 & 0xFF) as bv8
    else if i == 0x05 then (r.id1 << 4) | (r.y1 >> 8) as bv8
    else if i == 0x06 then (r.y1 & 0xFF) as bv8
    else if i == 0x09 then (r.event2 << 6) | (r.x2 >> 8) as bv8
    else if i == 0x0A then (r.x2 & 0xFF) as bv8
    else if i == 0x0B then (r.id2 << 4) | (r.y2 >> 8) as bv8
    else if i == 0x0C then (r.y2 & 0xFF) as bv8
    else 0
  }

  /** A register image holding report `r`, every other register zero. */
  function Encode(r: Report): Image {
    seq(256, i => EncodedByte(r, i))
  }

  /** One reported point packed into its four registers: the event shares
      the X field's first byte, the id shares the Y field's first byte, and
      every field comes back out with the driver's decode rules. */
  lemma SharedRegistersRoundTrip(event: bv8, x: bv16, id: bv8, y: bv16,
                                 xHi: bv8, xLo: bv8, yHi: bv8, yLo: bv8)
    requires event <= 3 && x <= 4095 && id <= 15 && y <= 4095
    requires xHi == (event << 6) | (x >> 8) as bv8 && xLo == (x & 0xFF) as bv8
    requires yHi == (id << 4) | (y >> 8) as bv8 && yLo == (y & 0xFF) as bv8
    ensures EventCode(xHi) == event && Coordinate(xHi, xLo) == x
    ensures PointId(yHi) == id && Coordinate(yHi, yLo) == y
  {
  }

  /** The bytes Encode places in the registers the driver reads. */
  lemma EncodedRegisters(r: Report)
    ensures var img := Encode(r);
      && img[0x02] == r.count
      && img[0x03] == (r.event1 << 6) | (r.x1 >> 8) as bv8 && img[0x04] == (r.x1 & 0xFF) as bv8
      && img[0x05] == (r.id1 << 4) | (r.y1 >> 8) as bv8 && img[0x06] == (r.y1 & 0xFF) as bv8
      && img[0x09] == (r.event2 << 6) | (r.x2 >> 8) as bv8 && img[0x0A] == (r.x2 & 0xFF) as bv8
      && img[0x0B] == (r.id2 << 4) | (r.y2 >> 8) as bv8 && img[0x0C] == (r.y2 & 0xFF) as bv8
  {
  }

  /** Each field survives being packed into its shared register and read
      back with the driver's decode rules. */
  lemma {:induction false} EncodeDecode(r: Report)
    requires Encodable(r)
    ensures Decode(Encode(r)) == r
  {
    var img := Encode(r);
    EncodedRegisters(r);
    SharedRegistersRoundTrip(r.event1, r.x1, r.id1, r.y1, img[0x03], img[0x04], img[0x05], img[0x06]);
    SharedRegistersRoundTrip(r.event2, r.x2, r.id2, r.y2, img[0x09], img[0x0A], img[0x0B], img[0x0C]);
  }
}
