/** The value types of the FT6336U driver: operating-mode enumerations with
    their register conversions, the touch records the tracker caches, and
    the driver's error type. */
module Types {
  import opened Wrappers

  /** Device operating mode; the discriminants are 0b000 and 0b100. */
  datatype DeviceMode = Working | Factory {

    /** The enum's discriminant (`self as u8`). */
    function Discriminant(): (d: bv8)
      ensures d == 0 <==> this == Working
      ensures d == 4 <==> this == Factory
    {
      if Working? then 0 else 4
    }

    /** The value written to the device-mode register: the discriminant
        shifted into bits 4-6. */
    function ToRegister(): (r: bv8)
      ensures r & 0x8F == 0
      ensures (r & 0x70) >> 4 == Discriminant()
    {
      Discriminant() << 4
    }

    /** Reads a mode from the LOW three bits of `val`; any other pattern
        than 0b000 or 0b100 there has no mode. */
    static function FromRegister(val: bv8): (m: Option<DeviceMode>)
      ensures m.Some? ==> m.value.Discriminant() == val & 7
      ensures m.None? <==> (val & 7 != 0 && val & 7 != 4)
    {
      match val & 0x07
      case 0 => Some(Working)
      case 4 => Some(Factory)
      case _ => None
    }
  }

  /** Power-management control mode, discriminants 0 and 1. */
  datatype CtrlMode = KeepActive | SwitchToMonitor {

    /** The enum's discriminant (`mode as u8`), the value written to the
        control register. */
    function AsByte(): (b: bv8)
      ensures b == 0 <==> this == KeepActive
      ensures b == 1 <==> this == SwitchToMonitor
    {
      if KeepActive? then 0 else 1
    }

    static function FromRegister(val: bv8): (m: Option<CtrlMode>)
      ensures m.Some? ==> m.value.AsByte() == val
      ensures m.None? <==> val > 1
    {
      match val
      case 0 => Some(KeepActive)
      case 1 => Some(SwitchToMonitor)
      case _ => None
    }
  }

  /** Interrupt trigger configuration, discriminants 0 and 1. */
  datatype GestureMode = Polling | Trigger {

    /** The enum's discriminant (`mode as u8`), the value written to the
        gesture-mode register. */
    function AsByte(): (b: bv8)
      ensures b == 0 <==> this == Polling
      ensures b == 1 <==> this == Trigger
    {
      if Polling? then 0 else 1
    }

    static function FromRegister(val: bv8): (m: Option<GestureMode>)
      ensures m.Some? ==> m.value.AsByte() == val
      ensures m.None? <==> val > 1
    {
      match val
      case 0 => Some(Polling)
      case 1 => Some(Trigger)
      case _ => None
    }
  }

  /** Lifecycle of one touch slot: a new contact, a continuing contact,
      or no contact. */
  datatype TouchStatus = Touch | Stream | Release

  /** One tracked touch slot; `x` and `y` are the source's `u16` fields. */
  datatype TouchPoint = TouchPoint(status: TouchStatus, x: bv16, y: bv16)

  /** The two slots, indexed by the hardware point id (not report order). */
  type Slots = s: seq<TouchPoint> | |s| == 2
    witness [TouchPoint(Release, 0, 0), TouchPoint(Release, 0, 0)]

  /** A snapshot: the raw touch count of the last scan and both slots. */
  datatype TouchData = TouchData(touchCount: bv8, points: Slots)

  /** `TouchPoint::default`: released, at the origin. */
  function DefaultPoint(): (p: TouchPoint)
    ensures p.status == Release && p.x == 0 && p.y == 0
  {
    TouchPoint(Release, 0, 0)
  }

  /** `TouchData::default`: no touches, both slots at their default. */
  function DefaultTouchData(): (d: TouchData)
    ensures d.touchCount == 0
    ensures forall i :: 0 <= i < 2 ==> d.points[i] == DefaultPoint()
  {
    TouchData(0, [DefaultPoint(), DefaultPoint()])
  }

  /** The error a transport reports; its contents are the transport's own. */
  datatype BusFault = BusFault(code: nat)

  /** Driver errors: a wrapped transport error, or invalid data (which no
      operation of the driver produces). */
  datatype Error = I2c(cause: BusFault) | InvalidData
}
