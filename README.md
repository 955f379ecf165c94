# FT6336U touch driver: register codec and touch-lifecycle tracker

This project models the core of a Rust driver for the FT6336U capacitive touch
controller, and proves properties of that model. The core has two parts:

- **The register codec.** These are the bit-field rules that turn bytes read over I2C into
  - a touch count (low nibble of the status register);
  - a point id (high nibble);
  - an event code (top two bits);
  - a 12-bit coordinate (low nibble of the first byte above the whole second byte);
  - the device-mode field (bits 4-6).

  It also covers the register conversions of the `DeviceMode`, `CtrlMode` and `GestureMode` enumerations.
- **The touch-lifecycle tracker, `scan`.** The driver caches a `TouchData` snapshot: the raw touch count plus
  two slots `{status, x, y}` indexed by the hardware point id. Each scan reads the touch registers one
  after another and updates the cache in place as each value arrives. Every slot follows the
  Release → Touch → Stream → Release lifecycle. A failed read returns at once, and whatever was already
  written stays written.

Modules, one per file:

| module | file | models |
|---|---|---|
| `Wrappers` | wrappers.dfy | `Option` and `Result` |
| `Types` | types.dfy | types.rs and the error type of error.rs |
| `Codec` | codec.dfy | register addresses and decode expressions of driver.rs, and a register image with an encoder for touch reports |
| `Bus` | bus.dfy | the I2C transport as an oracle object |
| `Tracker` | tracker.dfy | `ScanSpec`, the functional specification of one scan, and the lemmas about it |
| `Driver` | driver.dfy | class `Ft6336u`: the `read_*` methods and `Scan`, an imperative method over a two-slot array proved equal to `ScanSpec` |

The transport is an `I2cBus` object with four parts:
- a register image: the 256 register bytes the controller presents;
- a budget: how many exchanges succeed before the first failure (`None` means the bus never fails);
- the fault value a failed exchange returns;
- a log of every exchange requested.

A single register image makes the register sharing explicit:
- the event of point 1 and X's high byte share 0x03;
- the id of point 1 and Y's high byte share 0x05;
- point 2 uses 0x09 and 0x0B the same way.

`Codec.Encode` lays a touch report out in such an image, and `Codec.EncodeDecode` proves that
the driver's decode rules read it back.

`Driver.Ft6336u.Scan` is proved against `Tracker.ScanSpec`. The proof covers:
- the return value;
- the new cached snapshot, including partial writes on failure;
- the exact sequence of exchanges issued;
- the budget consumed.

The lemmas in `Tracker` then state what a scan does, branch by branch and slot by slot.

The asynchronous driver in src/ft6336u/driver_async.rs has the same logic as src/ft6336u/driver.rs; only
the suspension points differ. It is modelled once:
- `scan` is driver.rs:537-591 and driver_async.rs:552-606, and the lines correspond with an offset of 15;
- the decode helpers are driver.rs:126-267 and driver_async.rs:132-281;
- the constructors are driver.rs:94-98 and driver_async.rs:100-105.

The source's own documentation promises less variety than the code produces. The model follows the code:
- **Touch count range.** The doc comments of `TouchData::touch_count` (types.rs:194) and `read_touch_number`
  (driver.rs:162) give the count as 0-2. The code stores the raw low nibble, 0-15, and treats every count
  from 2 to 15 as two touches (`Tracker.ScanMultiPointSlot`).
- **Point ids.** The doc comments of `read_touch1_id` and `read_touch2_id` (driver.rs:204, driver.rs:263) give
  the id as 0 or 1. The code decodes a 4-bit id, 0-15, and `scan` skips a point whose id is 2 or more.
- **Failure.** `scan` returns at the first failed read, and every write made before it stays in the cache.
  That includes a slot whose status advanced but whose coordinates were not read, and a one-touch scan whose
  other slot was not yet released (`Tracker.ScanSinglePointPartial`, `Tracker.ScanMultiPointPartial`,
  `Tracker.ScanMultiPointSkipPartial`).
- **Release.** A slot that the report does not name is released only on the no-touch path and on the one-touch
  path with a valid id. For a report with ids 0 or 1, distinct, and at most two touches, every slot follows
  the lifecycle transition on whether the report names it (`Tracker.ScanFollowsLifecycle`). Outside that:
  - with two or more touches, a slot that neither id names keeps its status;
  - one touch with an id of 2 or more changes no slot at all (`Tracker.ScanSingleUnknownId`);
  - two equal ids advance the same slot twice.

`DeviceMode::from_register` reads the low three bits, but `to_register` shifts into bits 4-6. So the raw
pair is not an inverse: `Factory` comes back as `Working` (`Codec.DeviceModeRawPairNotInverse`). The
round trip holds only through the field extraction of `read_device_mode`
(`Codec.DeviceModeFieldRoundTrip`).

## Model

| member | source | states |
|---|---|---|
| Types.DeviceMode.Discriminant | src/ft6336u/types.rs:23-28 | `self as u8` is 0 exactly for `Working` and 4 exactly for `Factory` |
| Types.DeviceMode.ToRegister | src/ft6336u/types.rs:23-28 | the register value holds the discriminant (0 or 4) in bits 4-6 and zero in every other bit |
| Types.DeviceMode.FromRegister | src/ft6336u/types.rs:31-38 | a mode is found exactly when the low three bits are 0b000 or 0b100, and its discriminant equals those bits |
| Types.CtrlMode.AsByte | src/ft6336u/types.rs:61-66 | `self as u8` is 0 exactly for `KeepActive` and 1 exactly for `SwitchToMonitor` |
| Types.GestureMode.AsByte | src/ft6336u/types.rs:94-99 | `self as u8` is 0 exactly for `Polling` and 1 exactly for `Trigger` |
| Types.CtrlMode.FromRegister | src/ft6336u/types.rs:61-76 | 0 and 1 give the mode whose discriminant they are, and any other byte gives none |
| Types.GestureMode.FromRegister | src/ft6336u/types.rs:94-109 | 0 and 1 give the mode whose discriminant they are, and any other byte gives none |
| Types.DefaultPoint | src/ft6336u/types.rs:162-170 | the default point is released at the origin |
| Types.DefaultTouchData | src/ft6336u/types.rs:192-198 | the default snapshot has count 0 and two default points |
| Codec.TouchCount | src/ft6336u/driver.rs:163-166 | the count is the status byte modulo 16, so at most 15 |
| Codec.PointId | src/ft6336u/driver.rs:205-208 | the id is the byte divided by 16, so at most 15 |
| Codec.EventCode | src/ft6336u/driver_async.rs:206-209 | the event is the byte divided by 64, so at most 3 |
| Codec.Coordinate | src/ft6336u/driver.rs:176-180 | the coordinate is (first byte mod 16) × 256 + second byte, so at most 4095 |
| Codec.DeviceModeField | src/ft6336u/driver.rs:126-129 | the field is bits 4-6 of the byte, so at most 7 |
| Codec.CoordinateIgnoresTopNibble | src/ft6336u/driver.rs:235-239 | the coordinate does not depend on the top nibble of its first byte |
| Codec.CoordinateRoundTrip | src/ft6336u/driver_async.rs:182-186 | splitting any 12-bit value into its two bytes and decoding them gives the value back |
| Codec.DeviceModeFieldRoundTrip | src/ft6336u/driver.rs:126-129 | reading a mode back through the device-mode field extraction gives the mode that was written |
| Codec.DeviceModeRawPairNotInverse | src/ft6336u/types.rs:31-43 | `from_register` applied straight to `to_register(Factory)` gives `Working` |
| Codec.DeviceModeExamples | src/ft6336u/types.rs:15-19 | `to_register(Working)` is 0x00 and `from_register(0x00)` is `Working`, as the documentation example asserts; `to_register(Factory)` is 0x40 by the shift at types.rs:42 |
| Codec.CtrlModeRoundTrip | src/ft6336u/types.rs:54-58 | `from_register(m as u8) == Some(m)` for both control modes |
| Codec.GestureModeRoundTrip | src/ft6336u/types.rs:87-91 | `from_register(m as u8) == Some(m)` for both gesture modes |
| Codec.Decode | src/ft6336u/driver.rs:163-267 | every field decoded from a register image is within the range its register layout can carry |
| Codec.SharedRegistersRoundTrip | src/ft6336u/constants.rs:38-44 | an event and X, or an id and Y, packed into shared registers decode back to themselves |
| Codec.EncodedRegisters | src/ft6336u/constants.rs:38-44 | an encoded image holds each field at its register address |
| Codec.EncodeDecode | src/ft6336u/driver.rs:163-267 | decoding the image that holds any encodable touch report gives that report back |
| Bus.I2cBus.WriteRead | src/ft6336u/driver.rs:105-110 | the exchange is logged and spends one unit of budget; it returns the requested consecutive registers, or the fault once the budget is spent |
| Tracker.Advance | src/ft6336u/driver.rs:551-555 | a reported slot is never Release afterwards, and it becomes Touch exactly when it was Release |
| Tracker.OtherSlot | src/ft6336u/driver.rs:562-563 | `(!id) & 1` on a slot index gives the other slot, 1 - id |
| Tracker.TrackPoint | src/ft6336u/driver.rs:567-576 | reading a point never writes the count, and it appends one to three exchanges to those already issued |
| Tracker.FillSlot | src/ft6336u/driver.rs:551-559 | filling a slot never writes the count, and it appends one or two exchanges to those already issued |
| Tracker.SingleTouch | src/ft6336u/driver.rs:546-564 | the one-touch branch never writes the count, and it appends one to three exchanges |
| Tracker.MultiTouch | src/ft6336u/driver_async.rs:580-603 | the branch for two or more touches never writes the count, and it appends one to six exchanges |
| Tracker.Tracked | src/ft6336u/driver.rs:567-576 | reading a point never changes the cached count |
| Tracker.TrackPointComplete | src/ft6336u/driver_async.rs:582-591 | a point read that does not fail advances the named slot and gives it the point's coordinates, and changes nothing else |
| Tracker.TrackedSlot | src/ft6336u/driver.rs:578-587 | after a point is fully read, a slot it names is advanced and holds the point's coordinates, and any other slot is unchanged |
| Tracker.ReleaseBoth | src/ft6336u/driver.rs:542-545 | both slots become Release, their coordinates and the count unchanged |
| Tracker.ScanSpec | src/ft6336u/driver.rs:537-591 | a successful scan returns exactly the snapshot it caches, and a failed one returns the bus fault wrapped as `Error::I2c` |
| Tracker.ScanIssuesStatusFirst | src/ft6336u/driver.rs:537-540 | the first exchange of a scan reads the status register, and a scan makes between one and seven exchanges |
| Tracker.ScanSetsCount | src/ft6336u/driver_async.rs:554-555 | once the status read succeeds, the cached count is the decoded count; when it fails, nothing is written |
| Tracker.ScanFailsOnlyAtLast | src/ft6336u/driver.rs:537-591 | a scan fails exactly when its last exchange fails |
| Tracker.ScanNoTouch | src/ft6336u/driver.rs:542-545 | count 0 releases both slots, keeps their coordinates, and reads nothing else |
| Tracker.ScanSinglePoint | src/ft6336u/driver.rs:546-564 | count 1 with id < 2: the slot advances and takes point 1's X and Y; the other slot is released with its coordinates kept; the scan succeeds exactly when the four exchanges do, and those are the four issued |
| Tracker.ScanSingleUnknownId | src/ft6336u/driver_async.rs:561-564 | count 1 with id ≥ 2 changes only the count and releases nothing |
| Tracker.ScanMultiPointSlot | src/ft6336u/driver.rs:565-588 | count ≥ 2, per slot: point 2's update wins over point 1's; a slot named twice ends as Stream with point 2's coordinates; a slot named by neither point is unchanged |
| Tracker.ScanSinglePointPartial | src/ft6336u/driver.rs:548-563 | a failure after 1, 2 or 3 exchanges keeps the count, then the advanced status, then X; the other slot is not released |
| Tracker.ScanMultiPointPartial | src/ft6336u/driver.rs:565-587 | count ≥ 2 with point 1 in a slot: a failure at exchange k (1 to 6) fails the scan after k+1 exchanges and keeps exactly the writes before it: the count; point 1's status, X, then Y; point 2's status, then X |
| Tracker.ScanMultiPointSkipPartial | src/ft6336u/driver.rs:565-587 | count ≥ 2 with point 1's id ≥ 2: a failure at exchange k (1 to 4) keeps only the count until point 2's id is read, then point 2's status, then X |
| Tracker.TrackPointIsPrefixOfReliable | src/ft6336u/driver.rs:567-576 | a point read on a failing bus issues a prefix of the exchanges of the reliable read, and matches it when it succeeds |
| Tracker.ScanIsPrefixOfReliable | src/ft6336u/driver.rs:537-591 | a scan on a failing bus issues a prefix of the exchanges of the reliable scan; the reliable scan always succeeds, and a scan that succeeds equals it |
| Tracker.ScanFollowsLifecycle | src/ft6336u/driver_async.rs:557-603 | for a well-formed report, each slot's new status is the lifecycle state machine's transition on whether the report names it |
| Tracker.LifecycleNoTouch | src/ft6336u/driver.rs:542-545 | after a successful scan with count 0, each slot's status is the lifecycle transition for an absent contact |
| Tracker.LifecycleSinglePoint | src/ft6336u/driver.rs:546-564 | after a successful scan with count 1 and a valid id, each slot's status is the lifecycle transition on whether the id names it |
| Tracker.LifecycleTwoPoints | src/ft6336u/driver.rs:565-588 | after a successful scan with count 2 and two distinct valid ids, each slot's status is the lifecycle transition for a present contact |
| Tracker.DefaultInRange | src/ft6336u/types.rs:192-198 | the default snapshot has a 4-bit count and 12-bit coordinates |
| Tracker.TrackPointKeepsRange | src/ft6336u/driver.rs:578-587 | reading a point, completely or not, keeps the count and coordinates in range |
| Tracker.FillSlotKeepsRange | src/ft6336u/driver.rs:556-559 | filling a slot, completely or not, writes only coordinates of at most 4095 |
| Tracker.ScanKeepsRange | src/ft6336u/driver.rs:537-591 | every scan, successful or failed, keeps the count ≤ 15 and the coordinates ≤ 4095 |
| Tracker.ReplayKeepsRange | src/ft6336u/driver.rs:537-591 | any sequence of scans from an in-range snapshot, such as the default one a new driver holds, stays in range |
| Tracker.TouchThenStream | src/ft6336u/driver.rs:550-555 | two successful scans reporting the same point in a released slot give Touch and then Stream |
| Tracker.ThreeScanScenario | src/ft6336u/driver.rs:542-564 | press at (100, 200), move to (105, 205), then lift: slot 0 goes Touch, Stream, then Release, keeping (105, 205) |
| Tracker.ReliableSinglePoint | src/ft6336u/driver.rs:546-564 | a scan on a reliable bus of a device reporting one touch in slot id succeeds, sets the count to 1, advances that slot with the reported coordinates and releases the other |
| Tracker.ReliableNoTouch | src/ft6336u/driver.rs:542-545 | a scan on a reliable bus of a device reporting no touch sets the count to 0 and releases both slots |
| Driver.Ft6336u.constructor | src/ft6336u/driver.rs:94-98 | a new driver caches the default snapshot |
| Driver.Ft6336u.ReadByte | src/ft6336u/driver.rs:105-110 | one exchange on the register; returns its byte, or the wrapped fault |
| Driver.Ft6336u.ReadCoordinate | src/ft6336u/driver.rs:176-180 | one two-byte exchange; returns the decoded coordinate, or the wrapped fault |
| Driver.Ft6336u.ReadDeviceMode | src/ft6336u/driver.rs:126-129 | returns bits 4-6 of register 0x00 |
| Driver.Ft6336u.ReadTouchNumber | src/ft6336u/driver_async.rs:169-172 | returns the low nibble of register 0x02 |
| Driver.Ft6336u.ReadTouch1X | src/ft6336u/driver.rs:176-180 | returns the coordinate at 0x03-0x04 |
| Driver.Ft6336u.ReadTouch1Y | src/ft6336u/driver.rs:186-190 | returns the coordinate at 0x05-0x06 |
| Driver.Ft6336u.ReadTouch1Event | src/ft6336u/driver.rs:196-199 | returns the top two bits of 0x03 |
| Driver.Ft6336u.ReadTouch1Id | src/ft6336u/driver.rs:205-208 | returns the high nibble of 0x05 |
| Driver.Ft6336u.ReadTouch2X | src/ft6336u/driver_async.rs:245-249 | returns the coordinate at 0x09-0x0A |
| Driver.Ft6336u.ReadTouch2Y | src/ft6336u/driver.rs:245-249 | returns the coordinate at 0x0B-0x0C |
| Driver.Ft6336u.ReadTouch2Event | src/ft6336u/driver.rs:255-258 | returns the top two bits of 0x09 |
| Driver.Ft6336u.ReadTouch2Id | src/ft6336u/driver.rs:264-267 | returns the high nibble of 0x0B |
| Driver.Ft6336u.ReadPointId | src/ft6336u/driver.rs:548 | reads the id register of point 1 or point 2 |
| Driver.Ft6336u.ReadPointX | src/ft6336u/driver.rs:558 | reads the X coordinate of point 1 or point 2 |
| Driver.Ft6336u.ReadPointY | src/ft6336u/driver.rs:559 | reads the Y coordinate of point 1 or point 2 |
| Driver.Ft6336u.TrackReported | src/ft6336u/driver.rs:567-587 | updates the named slot in place, read by read, so that the array always equals the point-read specification's snapshot, including on failure; returns the id read |
| Driver.Ft6336u.FillReported | src/ft6336u/driver.rs:551-559 | advances the slot's status in place, then writes X and then Y as each is read; the array always equals the fill specification's snapshot, including on failure |
| Driver.Ft6336u.SingleTouchReported | src/ft6336u/driver.rs:546-564 | the one-touch branch in place: the array, the log and the budget end as the one-touch specification says, and it fails exactly when the specification does |
| Driver.Ft6336u.MultiTouchReported | src/ft6336u/driver.rs:565-588 | the branch for two or more touches in place, equal to its specification in the same way |
| Driver.Ft6336u.Scan | src/ft6336u/driver.rs:537-591 | the in-place scan leaves the cache equal to `ScanSpec`'s snapshot, returns its result, issues exactly its exchanges, and leaves the register image and fault unchanged |
| Driver.PressAndHold | src/ft6336u/driver.rs:38-42 | a new driver polled twice while the controller reports one press at (100, 200) sees that point as Touch, then as Stream |

## Left out

- **I2C transport.** The `write_read` and `write` calls of `embedded_hal` and `embedded_hal_async` are foreign. They are modelled only by the `I2cBus` oracle: a fixed register image, a budget of successful exchanges, and one fault value.
- **Register stability.** The register image is assumed not to change during one scan; a controller that updates its registers between two reads of one scan is not modelled.
- **Async suspension.** The async suspension points of driver_async.rs are left out. The sequential logic is the same as driver.rs, and the one model covers both.
- **Pass-through accessors.** Threshold, filter, control mode, rates, gesture parameters, chip/firmware/vendor ids, weight, misc, state, power mode, `read_gesture_id`, `read_td_status` and every `write_*` method are left out. Each one is a `read_byte`/`write_byte` on a constant address with no logic.
- **`read_library_version`.** It is left out; it reuses the 12-bit decode already modelled by `Codec.Coordinate`.
- **constants.rs.** Only the device address and the registers that `read_device_mode`, `read_touch_number`, the `read_touch1_*`/`read_touch2_*` methods (X, Y, event, id) and `scan` use are copied as constants. The rest of the register map has no logic.
- **`InvalidData`.** The error variant exists in `Types.Error`, but no operation produces it, as in the source.
- **Gestures.** Gesture semantics beyond the raw register value are left out; the source does not interpret them.
- **`usize` width.** `Tracker.OtherSlot` computes `(!id) & 1` on a 64-bit value, standing for `usize`. Only bit 0 matters, so the width does not change the result.
- **Helper factoring.** `Driver.Ft6336u.ReadPointId`, `ReadPointX`, `ReadPointY`, `TrackReported`, `FillReported`, `SingleTouchReported` and `MultiTouchReported` factor the body of `scan`, which the source writes inline and repeats for point 1 and point 2. They, and their specifications `Tracker.TrackPoint`, `FillSlot`, `SingleTouch` and `MultiTouch`, do not correspond to functions of the source.
