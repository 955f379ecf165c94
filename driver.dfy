/** The driver object: it owns the bus and the cached snapshot of the last
    scan, decodes the touch registers it reads, and updates the cache in
    place, field by field, on every scan. */
module Driver {
  import opened Wrappers
  import opened Types
  import opened Codec
  import opened Bus
  import opened Tracker

  class Ft6336u {
    /** The bus the controller sits on. */
    const i2c: I2cBus
    /** Cached `touch_data.touch_count`. */
    var touchCount: bv8
    /** Cached `touch_data.points`, indexed by hardware point id. */
    const points: array<TouchPoint>

    ghost predicate Valid()
      reads this
    {
      points.Length == 2
    }

    /** The cached snapshot as a value (what `scan` returns a copy of). */
    function Cache(): TouchData
      reads this, points
      requires Valid()
    {
      TouchData(touchCount, [points[0], points[1]])
    }

    /** A new driver starts from the default snapshot: no touches, both
        slots released at the origin. */
    constructor (i2c: I2cBus)
      ensures Valid() && fresh(points)
      ensures this.i2c == i2c
      ensures Cache() == DefaultTouchData()
    {
      this.i2c := i2c;
      touchCount := 0;
      points := new TouchPoint[2](_ => DefaultPoint());
    }

    /** A one-byte register read. */
    method ReadByte(register: bv8) returns (r: Result<bv8, Error>)
      modifies i2c
      ensures Exchanged(i2c, Request(I2C_ADDR, register, 1))
      ensures r == if Live(old(i2c.budget), 0) then Ok(i2c.image[register]) else Err(I2c(i2c.fault))
    {
      var buf := i2c.WriteRead(I2C_ADDR, register, 1);
      if buf.Err? {
        return Err(I2c(buf.error));
      }
      r := Ok(buf.value[0]);
    }

    /** A two-byte coordinate register pair, decoded to 12 bits. */
    method ReadCoordinate(register: bv8) returns (r: Result<bv16, Error>)
      requires register < 0xFF
      modifies i2c
      ensures Exchanged(i2c, Request(I2C_ADDR, register, 2))
      ensures r == if Live(old(i2c.budget), 0)
        then Ok(Coordinate(i2c.image[register], i2c.image[register as int + 1]))
        else Err(I2c(i2c.fault))
    {
      var buf := i2c.WriteRead(I2C_ADDR, register, 2);
      if buf.Err? {
        return Err(I2c(buf.error));
      }
      assert buf.value[0] == i2c.image[register] && buf.value[1] == i2c.image[register as int + 1];
      r := Ok(Coordinate(buf.value[0], buf.value[1]));
    }

    /** Bits 4-6 of the device-mode register. */
    method ReadDeviceMode() returns (r: Result<bv8, Error>)
      modifies i2c
      ensures Exchanged(i2c, Request(I2C_ADDR, ADDR_DEVICE_MODE, 1))
      ensures r == if Live(old(i2c.budget), 0) then Ok(DeviceModeField(i2c.image[ADDR_DEVICE_MODE])) else Err(I2c(i2c.fault))
    {
      var val :- ReadByte(ADDR_DEVICE_MODE);
      r := Ok(DeviceModeField(val));
    }

    /** The number of touches the controller reports. */
    method ReadTouchNumber() returns (r: Result<bv8, Error>)
      modifies i2c
      ensures Exchanged(i2c, Request(I2C_ADDR, ADDR_TD_STATUS, 1))
      ensures r == if Live(old(i2c.budget), 0) then Ok(TouchCount(i2c.image[ADDR_TD_STATUS])) else Err(I2c(i2c.fault))
    {
      var val :- ReadByte(ADDR_TD_STATUS);
      r := Ok(TouchCount(val));
    }

    method ReadTouch1X() returns (r: Result<bv16, Error>)
      modifies i2c
      ensures Exchanged(i2c, Request(I2C_ADDR, ADDR_TOUCH1_X, 2))
      ensures r == if Live(old(i2c.budget), 0) then Ok(Coordinate(i2c.image[ADDR_TOUCH1_X], i2c.image[ADDR_TOUCH1_X as int + 1])) else Err(I2c(i2c.fault))
    {
      r := ReadCoordinate(ADDR_TOUCH1_X);
    }

    method ReadTouch1Y() returns (r: Result<bv16, Error>)
      modifies i2c
      ensures Exchanged(i2c, Request(I2C_ADDR, ADDR_TOUCH1_Y, 2))
      ensures r == if Live(old(i2c.budget), 0) then Ok(Coordinate(i2c.image[ADDR_TOUCH1_Y], i2c.image[ADDR_TOUCH1_Y as int + 1])) else Err(I2c(i2c.fault))
    {
      r := ReadCoordinate(ADDR_TOUCH1_Y);
    }

    method ReadTouch1Event() returns (r: Result<bv8, Error>)
      modifies i2c
      ensures Exchanged(i2c, Request(I2C_ADDR, ADDR_TOUCH1_EVENT, 1))
      ensures r == if Live(old(i2c.budget), 0) then Ok(EventCode(i2c.image[ADDR_TOUCH1_EVENT])) else Err(I2c(i2c.fault))
    {
      var val :- ReadByte(ADDR_TOUCH1_EVENT);
      r := Ok(EventCode(val));
    }

    method ReadTouch1Id() returns (r: Result<bv8, Error>)
      modifies i2c
      ensures Exchanged(i2c, Request(I2C_ADDR, ADDR_TOUCH1_ID, 1))
      ensures r == if Live(old(i2c.budget), 0) then Ok(PointId(i2c.image[ADDR_TOUCH1_ID])) else Err(I2c(i2c.fault))
    {
      var val :- ReadByte(ADDR_TOUCH1_ID);
      r := Ok(PointId(val));
    }

    method ReadTouch2X() returns (r: Result<bv16, Error>)
      modifies i2c
      ensures Exchanged(i2c, Request(I2C_ADDR, ADDR_TOUCH2_X, 2))
      ensures r == if Live(old(i2c.budget), 0) then Ok(Coordinate(i2c.image[ADDR_TOUCH2_X], i2c.image[ADDR_TOUCH2_X as int + 1])) else Err(I2c(i2c.fault))
    {
      r := ReadCoordinate(ADDR_TOUCH2_X);
    }

    method ReadTouch2Y() returns (r: Result<bv16, Error>)
      modifies i2c
      ensures Exchanged(i2c, Request(I2C_ADDR, ADDR_TOUCH2_Y, 2))
      ensures r == if Live(old(i2c.budget), 0) then Ok(Coordinate(i2c.image[ADDR_TOUCH2_Y], i2c.image[ADDR_TOUCH2_Y as int + 1])) else Err(I2c(i2c.fault))
    {
      r := ReadCoordinate(ADDR_TOUCH2_Y);
    }

    method ReadTouch2Event() returns (r: Result<bv8, Error>)
      modifies i2c
      ensures Exchanged(i2c, Request(I2C_ADDR, ADDR_TOUCH2_EVENT, 1))
      ensures r == if Live(old(i2c.budget), 0) then Ok(EventCode(i2c.image[ADDR_TOUCH2_EVENT])) else Err(I2c(i2c.fault))
    {
      var val :- ReadByte(ADDR_TOUCH2_EVENT);
      r := Ok(EventCode(val));
    }

    method ReadTouch2Id() returns (r: Result<bv8, Error>)
      modifies i2c
      ensures Exchanged(i2c, Request(I2C_ADDR, ADDR_TOUCH2_ID, 1))
      ensures r == if Live(old(i2c.budget), 0) then Ok(PointId(i2c.image[ADDR_TOUCH2_ID])) else Err(I2c(i2c.fault))
    {
      var val :- ReadByte(ADDR_TOUCH2_ID);
      r := Ok(PointId(val));
    }

    /** The id of reported point `p` (`read_touch1_id` or `read_touch2_id`). */
    method ReadPointId(p: Reported) returns (r: Result<bv8, Error>)
      modifies i2c
      ensures Exchanged(i2c, Request(I2C_ADDR, p.IdRegister(), 1))
      ensures r == if Live(old(i2c.budget), 0) then Ok(PointId(i2c.image[p.IdRegister()])) else Err(I2c(i2c.fault))
    {
      if p == P1 {
        r := ReadTouch1Id();
      } else {
        r := ReadTouch2Id();
      }
    }

    /** The X coordinate of reported point `p`. */
    method ReadPointX(p: Reported) returns (r: Result<bv16, Error>)
      modifies i2c
      ensures Exchanged(i2c, Request(I2C_ADDR, p.XRegister(), 2))
      ensures r == if Live(old(i2c.budget), 0)
        then Ok(Coordinate(i2c.image[p.XRegister()], i2c.image[p.XRegister() as int + 1]))
        else Err(I2c(i2c.fault))
    {
      if p == P1 {
        r := ReadTouch1X();
      } else {
        r := ReadTouch2X();
      }
    }

    /** The Y coordinate of reported point `p`. */
    method ReadPointY(p: Reported) returns (r: Result<bv16, Error>)
      modifies i2c
      ensures Exchanged(i2c, Request(I2C_ADDR, p.YRegister(), 2))
      ensures r == if Live(old(i2c.budget), 0)
        then Ok(Coordinate(i2c.image[p.YRegister()], i2c.image[p.YRegister() as int + 1]))
        else Err(I2c(i2c.fault))
    {
      if p == P1 {
        r := ReadTouch1Y();
      } else {
        r := ReadTouch2Y();
      }
    }

    /** The block the scan runs for each reported point: read the point's
        id and, when it names a slot, fill that slot. Returns the id read.
        `g` is the scan so far, as ScanSpec sees it, over a bus that
        started it with `budget0` and a log of `log0`. */
    method TrackReported(p: Reported, ghost log0: seq<Request>, ghost budget0: Option<nat>, ghost g: Progress)
      returns (r: Result<bv8, Error>)
      requires Valid() && !g.failed
      requires Cache() == g.data
      requires i2c.log == log0 + g.requests && i2c.budget == Spend(budget0, |g.requests|)
      modifies points, i2c
      ensures Valid() && touchCount == old(touchCount)
      ensures i2c.image == old(i2c.image) && i2c.fault == old(i2c.fault)
      ensures var g' := TrackPoint(g, p, i2c.image, budget0);
        && Cache() == g'.data
        && i2c.log == log0 + g'.requests
        && i2c.budget == Spend(budget0, |g'.requests|)
        && (r.Err? <==> g'.failed)
        && (r.Err? ==> r.error == I2c(i2c.fault))
        && (r.Ok? ==> r.value == PointId(i2c.image[p.IdRegister()]))
    {
      SpendNext(budget0, |g.requests|);
      var rid := ReadPointId(p);
      ghost var g1 := Issue(g, p.IdRegister(), 1);
      assert i2c.log == log0 + g1.requests;
      if rid.Err? {
        return Err(rid.error);
      }
      var id := rid.value;
      if id < 2 {
        var filled := FillReported(p, id as nat, log0, budget0, g1);
        if filled.Err? {
          return Err(filled.error);
        }
      }
      r := Ok(id);
    }

    /** Advances the status of `slot` in place, then reads point `p`'s X
        and Y into it, returning at the first exchange that fails with what
        was written so far kept. */
    method FillReported(p: Reported, slot: nat, ghost log0: seq<Request>, ghost budget0: Option<nat>, ghost g: Progress)
      returns (r: Result<(), Error>)
      requires Valid() && !g.failed && slot < 2
      requires Cache() == g.data
      requires i2c.log == log0 + g.requests && i2c.budget == Spend(budget0, |g.requests|)
      modifies points, i2c
      ensures Valid() && touchCount == old(touchCount)
      ensures i2c.image == old(i2c.image) && i2c.fault == old(i2c.fault)
      ensures var g' := FillSlot(g, p, slot, i2c.image, budget0);
        && Cache() == g'.data
        && i2c.log == log0 + g'.requests
        && i2c.budget == Spend(budget0, |g'.requests|)
        && (r.Err? <==> g'.failed)
        && (r.Err? ==> r.error == I2c(i2c.fault))
    {
      ghost var n := |g.requests|;
      SpendNext(budget0, n);
      SpendNext(budget0, n + 1);
      points[slot] := points[slot].(status := Advance(points[slot].status));
      ghost var g2 := Issue(g, p.XRegister(), 2).(data := WithStatus(g.data, slot, Advance(g.data.points[slot].status)));
      assert Cache() == g2.data;
      var rx := ReadPointX(p);
      assert i2c.log == log0 + g2.requests;
      if rx.Err? {
        return Err(rx.error);
      }
      points[slot] := points[slot].(x := rx.value);
      ghost var g3 := Issue(g2, p.YRegister(), 2).(data := WithX(g2.data, slot, rx.value));
      assert Cache() == g3.data;
      var ry := ReadPointY(p);
      assert i2c.log == log0 + g3.requests;
      if ry.Err? {
        return Err(ry.error);
      }
      points[slot] := points[slot].(y := ry.value);
      assert Cache() == WithY(g3.data, slot, ry.value);
      r := Ok(());
    }

    /** The one-touch branch of the scan: track point 1 and, when it names
        a slot and its reads succeed, release the other slot. */
    method SingleTouchReported(ghost log0: seq<Request>, ghost budget0: Option<nat>, ghost g: Progress)
      returns (r: Result<(), Error>)
      requires Valid() && !g.failed
      requires Cache() == g.data
      requires i2c.log == log0 + g.requests && i2c.budget == Spend(budget0, |g.requests|)
      modifies points, i2c
      ensures Valid() && touchCount == old(touchCount)
      ensures i2c.image == old(i2c.image) && i2c.fault == old(i2c.fault)
      ensures var g' := SingleTouch(g, i2c.image, budget0);
        && Cache() == g'.data
        && i2c.log == log0 + g'.requests
        && i2c.budget == Spend(budget0, |g'.requests|)
        && (r.Err? <==> g'.failed)
        && (r.Err? ==> r.error == I2c(i2c.fault))
    {
      var rid := TrackReported(P1, log0, budget0, g);
      if rid.Err? {
        return Err(rid.error);
      }
      var id1 := rid.value;
      if id1 < 2 {
        var other := OtherSlot(id1 as nat);
        points[other] := points[other].(status := Release);
      }
      r := Ok(());
    }

    /** The branch of the scan for two or more touches: track point 1,
        then point 2. */
    method MultiTouchReported(ghost log0: seq<Request>, ghost budget0: Option<nat>, ghost g: Progress)
      returns (r: Result<(), Error>)
      requires Valid() && !g.failed
      requires Cache() == g.data
      requires i2c.log == log0 + g.requests && i2c.budget == Spend(budget0, |g.requests|)
      modifies points, i2c
      ensures Valid() && touchCount == old(touchCount)
      ensures i2c.image == old(i2c.image) && i2c.fault == old(i2c.fault)
      ensures var g' := MultiTouch(g, i2c.image, budget0);
        && Cache() == g'.data
        && i2c.log == log0 + g'.requests
        && i2c.budget == Spend(budget0, |g'.requests|)
        && (r.Err? <==> g'.failed)
        && (r.Err? ==> r.error == I2c(i2c.fault))
    {
      var rid1 := TrackReported(P1, log0, budget0, g);
      if rid1.Err? {
        return Err(rid1.error);
      }
      ghost var g1 := TrackPoint(g, P1, i2c.image, budget0);
      var rid2 := TrackReported(P2, log0, budget0, g1);
      if rid2.Err? {
        return Err(rid2.error);
      }
      r := Ok(());
    }

    /** Reads the touch registers and folds them into the cached snapshot,
        writing each field as soon as its value is read; a failed exchange
        returns its error at once and keeps what was already written. */
    method Scan() returns (r: Result<TouchData, Error>)
      requires Valid()
      modifies this`touchCount, points, i2c
      ensures Valid()
      ensures var o := ScanSpec(old(Cache()), old(i2c.image), old(i2c.budget), old(i2c.fault));
        && r == o.result
        && Cache() == o.data
        && i2c.log == old(i2c.log) + o.requests
        && i2c.budget == Spend(old(i2c.budget), |o.requests|)
      ensures i2c.image == old(i2c.image) && i2c.fault == old(i2c.fault)
    {
      ghost var log0, budget0 := i2c.log, i2c.budget;
      SpendNext(budget0, 0);
      SpendNext(budget0, 1);
      var rc := ReadTouchNumber();
      if rc.Err? {
        return Err(rc.error);
      }
      var count := rc.value;
      touchCount := count;
      ghost var g := Progress(Cache(), [StatusRequest()], false);
      ghost var g';
      if count == 0 {
        points[0] := points[0].(status := Release);
        points[1] := points[1].(status := Release);
        g' := g.(data := ReleaseBoth(g.data));
      } else if count == 1 {
        var done := SingleTouchReported(log0, budget0, g);
        g' := SingleTouch(g, i2c.image, budget0);
        if done.Err? {
          return Err(done.error);
        }
      } else {
        var done := MultiTouchReported(log0, budget0, g);
        g' := MultiTouch(g, i2c.image, budget0);
        if done.Err? {
          return Err(done.error);
        }
      }
      assert Cache() == g'.data;
      r := Ok(Cache());
    }
  }

  /** A caller's view of the driver, as in the polling loop its
      documentation shows: a new driver on a bus whose controller keeps
      reporting one press at (100, 200) in slot 0 sees a new contact on the
      first scan and a continuing one on the second. */
  method PressAndHold() returns (first: TouchPoint, second: TouchPoint)
    ensures first == TouchPoint(Touch, 100, 200)
    ensures second == TouchPoint(Stream, 100, 200)
  {
    var press := Report(1, 0, 0, 100, 200, 0, 0, 0, 0);
    var bus := new I2cBus(Encode(press), None, BusFault(0));
    var touch := new Ft6336u(bus);
    ReliableSinglePoint(DefaultTouchData(), press, BusFault(0));
    var r1 := touch.Scan();
    ghost var d1 := touch.Cache();
    first := r1.value.points[0];
    ReliableSinglePoint(d1, press, BusFault(0));
    var r2 := touch.Scan();
    second := r2.value.points[0];
  }
}
