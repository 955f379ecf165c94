/** The touch-lifecycle tracker as a function: what one scan does to the
    cached snapshot, given the register image the controller presents and
    how many bus exchanges succeed; and what that means for each slot. */
module Tracker {
  import opened Wrappers
  import opened Types
  import opened Codec
  import opened Bus

  /** The two points a scan can read: their id and coordinate registers. */
  datatype Reported = P1 | P2 {
    function IdRegister(): bv8 {
      if P1? then ADDR_TOUCH1_ID else ADDR_TOUCH2_ID
    }
    function XRegister(): bv8 {
      if P1? then ADDR_TOUCH1_X else ADDR_TOUCH2_X
    }
    function YRegister(): bv8 {
      if P1? then ADDR_TOUCH1_Y else ADDR_TOUCH2_Y
    }
  }

  /** The status a slot takes when a reported point names it: a released
      slot starts a new contact, any other continues one. */
  function Advance(s: TouchStatus): (t: TouchStatus)
    ensures t != Release
    ensures t == Touch <==> s == Release
  {
    match s
    case Release => Touch
    case _ => Stream
  }

  /** The slot lifecycle as a state machine over (status, presence): a slot
      a scan reports goes Release to Touch and Touch or Stream to Stream,
      and a slot it does not report goes to Release. */
  function Transition(s: TouchStatus, present: bool): TouchStatus {
    if !present then Release
    else if s == Release then Touch
    else Stream
  }

  /** The slot a single reported point does not name, computed as the
      source does, by complementing the id and keeping bit 0. */
  function OtherSlot(slot: nat): (other: nat)
    requires slot < 2
    ensures other < 2 && other != slot
    ensures other == 1 - slot
  {
    ((!(slot as bv64)) & 1) as nat
  }

  function WithStatus(d: TouchData, slot: nat, s: TouchStatus): TouchData
    requires slot < 2
  {
    d.(points := d.points[slot := d.points[slot].(status := s)])
  }

  function WithX(d: TouchData, slot: nat, x: bv16): TouchData
    requires slot < 2
  {
    d.(points := d.points[slot := d.points[slot].(x := x)])
  }

  function WithY(d: TouchData, slot: nat, y: bv16): TouchData
    requires slot < 2
  {
    d.(points := d.points[slot := d.points[slot].(y := y)])
  }

  /** A scan under way: the live snapshot, the exchanges issued so far,
      and whether the last of them failed. */
  datatype Progress = Progress(data: TouchData, requests: seq<Request>, failed: bool)

  /** What a scan leaves behind: its return value, the cached snapshot
      (written up to the failure on an error), and the exchanges issued. */
  datatype Outcome = Outcome(result: Result<TouchData, Error>, data: TouchData, requests: seq<Request>)

  function Issue(g: Progress, register: bv8, len: nat): Progress {
    g.(requests := g.requests + [Request(I2C_ADDR, register, len)])
  }

  /** Reads point `p`'s id and, when it names a slot, fills that slot
      from the point's registers. It never writes the count, and issues one
      to three exchanges after those already issued. */
  function TrackPoint(g: Progress, p: Reported, image: Image, budget: Option<nat>): (r: Progress)
    requires !g.failed
    ensures r.data.touchCount == g.data.touchCount
    ensures |g.requests| < |r.requests| <= |g.requests| + 3
    ensures r.requests[..|g.requests|] == g.requests
  {
    var g1 := Issue(g, p.IdRegister(), 1);
    if !Live(budget, |g.requests|) then g1.(failed := true)
    else
      var id := PointId(image[p.IdRegister()]);
      if id >= 2 then g1
      else
        var r := FillSlot(g1, p, id as nat, image, budget);
        assert r.requests[..|g.requests|] == g1.requests[..|g1.requests|][..|g.requests|];
        r
  }

  /** Advances the status of `slot`, then reads point `p`'s X and Y into
      it, stopping at the first exchange that fails. */
  function FillSlot(g: Progress, p: Reported, slot: nat, image: Image, budget: Option<nat>): (r: Progress)
    requires !g.failed && slot < 2
    ensures r.data.touchCount == g.data.touchCount
    ensures |g.requests| < |r.requests| <= |g.requests| + 2
    ensures r.requests[..|g.requests|] == g.requests
  {
    var n := |g.requests|;
    var g2 := Issue(g, p.XRegister(), 2).(data := WithStatus(g.data, slot, Advance(g.data.points[slot].status)));
    if !Live(budget, n) then g2.(failed := true)
    else
      var x := Coordinate(image[p.XRegister()], image[p.XRegister() as int + 1]);
      var g3 := Issue(g2, p.YRegister(), 2).(data := WithX(g2.data, slot, x));
      if !Live(budget, n + 1) then g3.(failed := true)
      else
        var y := Coordinate(image[p.YRegister()], image[p.YRegister() as int + 1]);
        g3.(data := WithY(g3.data, slot, y))
  }

  /** The exchange every scan starts with: one byte of the status register. */
  function StatusRequest(): Request {
    Request(I2C_ADDR, ADDR_TD_STATUS, 1)
  }

  /** No touch: both slots released, their coordinates kept. */
  function ReleaseBoth(d: TouchData): (d': TouchData)
    ensures d'.touchCount == d.touchCount
    ensures forall i :: 0 <= i < 2 ==> d'.points[i] == d.points[i].(status := Release)
  {
    WithStatus(WithStatus(d, 0, Release), 1, Release)
  }

  /** One touch: point 1 is read into its slot; if it names one and every
      read succeeds, the other slot is released. */
  function SingleTouch(g: Progress, image: Image, budget: Option<nat>): (r: Progress)
    requires !g.failed
    ensures r.data.touchCount == g.data.touchCount
    ensures |g.requests| < |r.requests| <= |g.requests| + 3
    ensures r.requests[..|g.requests|] == g.requests
  {
    var g1 := TrackPoint(g, P1, image, budget);
    var id := PointId(image[ADDR_TOUCH1_ID]);
    if g1.failed || id >= 2 then g1
    else g1.(data := WithStatus(g1.data, OtherSlot(id as nat), Release))
  }

  /** Two or more touches: point 1, then point 2 unless point 1's reads
      failed. */
  function MultiTouch(g: Progress, image: Image, budget: Option<nat>): (r: Progress)
    requires !g.failed
    ensures r.data.touchCount == g.data.touchCount
    ensures |g.requests| < |r.requests| <= |g.requests| + 6
    ensures r.requests[..|g.requests|] == g.requests
  {
    var g1 := TrackPoint(g, P1, image, budget);
    if g1.failed then g1
    else
      var g2 := TrackPoint(g1, P2, image, budget);
      assert g2.requests[..|g.requests|] == g1.requests[..|g1.requests|][..|g.requests|];
      g2
  }

  function Finish(g: Progress, fault: BusFault): Outcome {
    Outcome(if g.failed then Err(I2c(fault)) else Ok(g.data), g.data, g.requests)
  }

  /** One scan from cached snapshot `prev`, against a controller presenting
      `image` over a bus whose exchanges succeed while `budget` lasts and
      then fail with `fault`. A successful scan returns exactly the
      snapshot it caches; a failed one returns the bus's error, wrapped. */
  function ScanSpec(prev: TouchData, image: Image, budget: Option<nat>, fault: BusFault): (o: Outcome)
    ensures o.result.Ok? ==> o.result == Ok(o.data)
    ensures o.result.Err? ==> o.result == Err(I2c(fault))
  {
    if !Live(budget, 0) then Finish(Progress(prev, [StatusRequest()], true), fault)
    else
      var count := TouchCount(image[ADDR_TD_STATUS]);
      var g := Progress(prev.(touchCount := count), [StatusRequest()], false);
      Finish(if count == 0 then g.(data := ReleaseBoth(g.data))
             else if count == 1 then SingleTouch(g, image, budget)
             else MultiTouch(g, image, budget), fault)
  }

  // ---------------------------------------------------------------------
  // What a scan does
  // ---------------------------------------------------------------------

  /** A scan's first exchange is always the status register, and it never
      issues more than seven. */
  lemma ScanIssuesStatusFirst(prev: TouchData, image: Image, budget: Option<nat>, fault: BusFault)
    ensures var o := ScanSpec(prev, image, budget, fault);
      && 1 <= |o.requests| <= 7
      && o.requests[0] == StatusRequest()
  {
  }

  /** The snapshot after point `p` is fully read: its slot, if its id
      names one, advanced and holding the point's coordinates; nothing else
      changed. */
  function Tracked(d: TouchData, p: Reported, image: Image): (d': TouchData)
    ensures d'.touchCount == d.touchCount
  {
    var id := PointId(image[p.IdRegister()]);
    if id >= 2 then d
    else
      var slot := id as nat;
      d.(points := d.points[slot := TouchPoint(Advance(d.points[slot].status),
                                               Coordinate(image[p.XRegister()], image[p.XRegister() as int + 1]),
                                               Coordinate(image[p.YRegister()], image[p.YRegister() as int + 1]))])
  }

  /** A point read that does not fail leaves exactly Tracked's snapshot. */
  lemma TrackPointComplete(g: Progress, p: Reported, image: Image, budget: Option<nat>)
    requires !g.failed
    ensures var g' := TrackPoint(g, p, image, budget);
      !g'.failed ==> g'.data == Tracked(g.data, p, image)
  {
  }

  /** The touch count is the first thing a scan writes: once the status
      exchange succeeds the cached count is the decoded one, whatever
      happens afterwards; when it fails nothing is written at all. */
  lemma ScanSetsCount(prev: TouchData, image: Image, budget: Option<nat>, fault: BusFault)
    ensures var o := ScanSpec(prev, image, budget, fault);
      && (Live(budget, 0) ==> o.data.touchCount == Decode(image).count)
      && (!Live(budget, 0) ==> o == Outcome(Err(I2c(fault)), prev, [Request(I2C_ADDR, ADDR_TD_STATUS, 1)]))
  {
  }

  /** A scan fails exactly when its last exchange does: every exchange
      before the last one succeeded. */
  lemma ScanFailsOnlyAtLast(prev: TouchData, image: Image, budget: Option<nat>, fault: BusFault)
    ensures var o := ScanSpec(prev, image, budget, fault);
      o.result.Err? <==> !Live(budget, |o.requests| - 1)
  {
  }

  /** No touch reported: both slots are released and keep their last
      coordinates; only the status register is read. */
  lemma ScanNoTouch(prev: TouchData, image: Image, budget: Option<nat>, fault: BusFault)
    requires Live(budget, 0) && Decode(image).count == 0
    ensures var o := ScanSpec(prev, image, budget, fault);
      && o.result == Ok(o.data)
      && o.requests == [Request(I2C_ADDR, ADDR_TD_STATUS, 1)]
      && o.data.touchCount == 0
      && o.data.points[0] == prev.points[0].(status := Release)
      && o.data.points[1] == prev.points[1].(status := Release)
  {
  }

  /** One touch reported in a slot the driver tracks: that slot advances
      and takes point 1's coordinates, the other slot is released with its
      coordinates kept. The scan succeeds exactly when its four exchanges
      (status, id, X, Y) do. */
  lemma ScanSinglePoint(prev: TouchData, image: Image, budget: Option<nat>, fault: BusFault)
    requires Decode(image).count == 1 && Decode(image).id1 < 2
    ensures var o := ScanSpec(prev, image, budget, fault);
      var rep := Decode(image);
      var id := rep.id1 as nat;
      && (o.result.Ok? <==> Live(budget, 3))
      && (o.result.Ok? ==>
            && o.data.touchCount == 1
            && o.data.points[id] == TouchPoint(Advance(prev.points[id].status), rep.x1, rep.y1)
            && o.data.points[1 - id] == prev.points[1 - id].(status := Release)
            && o.requests == [Request(I2C_ADDR, ADDR_TD_STATUS, 1), Request(I2C_ADDR, ADDR_TOUCH1_ID, 1),
                              Request(I2C_ADDR, ADDR_TOUCH1_X, 2), Request(I2C_ADDR, ADDR_TOUCH1_Y, 2)])
  {
    var g := Progress(prev.(touchCount := 1), [StatusRequest()], false);
    TrackPointComplete(g, P1, image, budget);
  }

  /** One touch reported with an id outside the two slots: no slot
      changes, not even the release of the other one; only the count is
      written. */
  lemma ScanSingleUnknownId(prev: TouchData, image: Image, budget: Option<nat>, fault: BusFault)
    requires Decode(image).count == 1 && Decode(image).id1 >= 2
    ensures var o := ScanSpec(prev, image, budget, fault);
      && (o.result.Ok? <==> Live(budget, 1))
      && (Live(budget, 0) ==> o.data == prev.(touchCount := 1))
      && (o.result.Ok? ==> |o.requests| == 2)
  {
  }

  /** What a successful scan with two or more touches leaves in slot `s`:
      point 2's update if its id names `s` (after point 1's, so a fresh
      contact named twice ends as Stream), else point 1's if its id names
      `s`, else the slot as it was: a slot neither id names is not
      released. */
  lemma ScanMultiPointSlot(prev: TouchData, image: Image, budget: Option<nat>, fault: BusFault, s: nat)
    requires Decode(image).count >= 2 && s < 2
    requires ScanSpec(prev, image, budget, fault).result.Ok?
    ensures var o := ScanSpec(prev, image, budget, fault);
      var rep := Decode(image);
      && o.data.touchCount == rep.count
      && o.data.points[s] ==
           if rep.id2 as int == s then
             TouchPoint(if rep.id1 as int == s then Stream else Advance(prev.points[s].status), rep.x2, rep.y2)
           else if rep.id1 as int == s then
             TouchPoint(Advance(prev.points[s].status), rep.x1, rep.y1)
           else prev.points[s]
  {
    var rep := Decode(image);
    var g := Progress(prev.(touchCount := rep.count), [StatusRequest()], false);
    var g1 := TrackPoint(g, P1, image, budget);
    var g2 := MultiTouch(g, image, budget);
    assert ScanSpec(prev, image, budget, fault).data == g2.data;
    TrackPointComplete(g, P1, image, budget);
    TrackPointComplete(g1, P2, image, budget);
    assert g2.data == Tracked(Tracked(g.data, P1, image), P2, image);
    TrackedSlot(g.data, P1, image, s);
    TrackedSlot(Tracked(g.data, P1, image), P2, image, s);
  }

  /** Slot `s` after point `p` is fully read: advanced and holding the
      point's coordinates if the point names it, otherwise unchanged. */
  lemma TrackedSlot(d: TouchData, p: Reported, image: Image, s: nat)
    requires s < 2
    ensures var rep := Decode(image);
      var named := if p == P1 then rep.id1 else rep.id2;
      Tracked(d, p, image).points[s] ==
        if named as int == s then
          TouchPoint(Advance(d.points[s].status),
                     if p == P1 then rep.x1 else rep.x2,
                     if p == P1 then rep.y1 else rep.y2)
        else d.points[s]
  {
  }

  /** A scan that fails partway through a single-point report keeps the
      writes made before the failing exchange: the count always, the
      slot's new status once the id was read, its X once X was read; the
      other slot is not yet released. `k` exchanges succeed. */
  lemma ScanSinglePointPartial(prev: TouchData, image: Image, k: nat, fault: BusFault)
    requires Decode(image).count == 1 && Decode(image).id1 < 2
    requires 1 <= k <= 3
    ensures var o := ScanSpec(prev, image, Some(k), fault);
      var rep := Decode(image);
      var id := rep.id1 as nat;
      var advanced := prev.points[id].(status := Advance(prev.points[id].status));
      && o.result == Err(I2c(fault))
      && |o.requests| == k + 1
      && o.data.touchCount == 1
      && o.data.points[1 - id] == prev.points[1 - id]
      && o.data.points[id] == (if k == 1 then prev.points[id]
                               else if k == 2 then advanced
                               else advanced.(x := rep.x1))
  {
  }

  /** A scan with two or more touches whose first point names a slot, on
      a bus where only `k` exchanges succeed, keeps every write made before
      the failing exchange: the count; then point 1's status, X and Y, one
      per successful exchange; then, once point 2's id is read, point 2's
      status and X. A slot can thus be left advanced without its new
      coordinates. */
  lemma ScanMultiPointPartial(prev: TouchData, image: Image, k: nat, fault: BusFault)
    requires Decode(image).count >= 2 && Decode(image).id1 < 2
    requires 1 <= k <= 6 && (k >= 5 ==> Decode(image).id2 < 2)
    ensures var o := ScanSpec(prev, image, Some(k), fault);
      var rep := Decode(image);
      var d0 := prev.(touchCount := rep.count);
      var i1 := rep.id1 as nat;
      var a1 := WithStatus(d0, i1, Advance(d0.points[i1].status));
      var d1 := Tracked(d0, P1, image);
      && o.result == Err(I2c(fault))
      && |o.requests| == k + 1
      && o.data == (if k == 1 then d0
                    else if k == 2 then a1
                    else if k == 3 then WithX(a1, i1, rep.x1)
                    else if k == 4 then d1
                    else
                      var i2 := rep.id2 as nat;
                      var a2 := WithStatus(d1, i2, Advance(d1.points[i2].status));
                      if k == 5 then a2 else WithX(a2, i2, rep.x2))
  {
    var rep := Decode(image);
    var g := Progress(prev.(touchCount := rep.count), [StatusRequest()], false);
    var g1 := TrackPoint(g, P1, image, Some(k));
    assert ScanSpec(prev, image, Some(k), fault) == Finish(MultiTouch(g, image, Some(k)), fault);
    if k <= 3 {
      assert g1.failed && MultiTouch(g, image, Some(k)) == g1;
    } else {
      TrackPointComplete(g, P1, image, Some(k));
      assert !g1.failed && |g1.requests| == 4;
      assert MultiTouch(g, image, Some(k)) == TrackPoint(g1, P2, image, Some(k));
    }
  }

  /** The same when the first point names no slot: its id read is the only
      exchange it costs, and point 2's writes follow as above. */
  lemma ScanMultiPointSkipPartial(prev: TouchData, image: Image, k: nat, fault: BusFault)
    requires Decode(image).count >= 2 && Decode(image).id1 >= 2
    requires 1 <= k <= 4 && (k >= 3 ==> Decode(image).id2 < 2)
    ensures var o := ScanSpec(prev, image, Some(k), fault);
      var rep := Decode(image);
      var d0 := prev.(touchCount := rep.count);
      && o.result == Err(I2c(fault))
      && |o.requests| == k + 1
      && o.data == (if k <= 2 then d0
                    else
                      var i2 := rep.id2 as nat;
                      var a2 := WithStatus(d0, i2, Advance(d0.points[i2].status));
                      if k == 3 then a2 else WithX(a2, i2, rep.x2))
  {
  }

  /** A point read against an unreliable bus issues a prefix of the
      exchanges it issues against a reliable one. */
  lemma TrackPointIsPrefixOfReliable(g: Progress, p: Reported, image: Image, budget: Option<nat>)
    requires !g.failed
    ensures var a := TrackPoint(g, p, image, budget);
      var f := TrackPoint(g, p, image, None);
      && !f.failed
      && a.requests <= f.requests
      && (!a.failed ==> a == f)
  {
  }

  /** A scan against an unreliable bus issues a prefix of the exchanges
      the same scan issues against a reliable one, which always succeeds;
      if it succeeds too, it does exactly what the reliable scan does. */
  lemma ScanIsPrefixOfReliable(prev: TouchData, image: Image, budget: Option<nat>, fault: BusFault)
    ensures var o := ScanSpec(prev, image, budget, fault);
      var full := ScanSpec(prev, image, None, fault);
      && full.result.Ok?
      && o.requests <= full.requests
      && (o.result.Ok? ==> o == full)
  {
    if Live(budget, 0) {
      var count := TouchCount(image[ADDR_TD_STATUS]);
      var g := Progress(prev.(touchCount := count), [Request(I2C_ADDR, ADDR_TD_STATUS, 1)], false);
      if count != 0 {
        TrackPointIsPrefixOfReliable(g, P1, image, budget);
        var g1 := TrackPoint(g, P1, image, None);
        if count != 1 && !TrackPoint(g, P1, image, budget).failed {
          TrackPointIsPrefixOfReliable(g1, P2, image, budget);
        }
      }
    }
  }

  // ---------------------------------------------------------------------
  // The slot lifecycle
  // ---------------------------------------------------------------------

  /** A report the lifecycle is defined for: at most two touches, each
      naming a tracked slot, and two touches naming different slots. */
  predicate WellFormed(rep: Report) {
    && rep.count <= 2
    && (rep.count >= 1 ==> rep.id1 < 2)
    && (rep.count == 2 ==> rep.id2 < 2 && rep.id2 != rep.id1)
  }

  /** Whether report `rep` names slot `s`. */
  predicate Present(rep: Report, s: nat) {
    || (rep.count >= 1 && rep.id1 as int == s)
    || (rep.count >= 2 && rep.id2 as int == s)
  }

  /** For a well-formed report a successful scan moves each slot's status
      along the lifecycle state machine. */
  lemma ScanFollowsLifecycle(prev: TouchData, image: Image, budget: Option<nat>, fault: BusFault, s: nat)
    requires WellFormed(Decode(image)) && s < 2
    requires ScanSpec(prev, image, budget, fault).result.Ok?
    ensures ScanSpec(prev, image, budget, fault).data.points[s].status
            == Transition(prev.points[s].status, Present(Decode(image), s))
  {
    var rep := Decode(image);
    if rep.count == 0 {
      LifecycleNoTouch(prev, image, budget, fault, s);
    } else if rep.count == 1 {
      LifecycleSinglePoint(prev, image, budget, fault, s);
    } else {
      LifecycleTwoPoints(prev, image, budget, fault, s);
    }
  }

  lemma LifecycleNoTouch(prev: TouchData, image: Image, budget: Option<nat>, fault: BusFault, s: nat)
    requires Decode(image).count == 0 && s < 2
    requires ScanSpec(prev, image, budget, fault).result.Ok?
    ensures ScanSpec(prev, image, budget, fault).data.points[s].status
            == Transition(prev.points[s].status, Present(Decode(image), s))
  {
    assert Live(budget, 0);
    ScanNoTouch(prev, image, budget, fault);
  }

  lemma LifecycleSinglePoint(prev: TouchData, image: Image, budget: Option<nat>, fault: BusFault, s: nat)
    requires Decode(image).count == 1 && Decode(image).id1 < 2 && s < 2
    requires ScanSpec(prev, image, budget, fault).result.Ok?
    ensures ScanSpec(prev, image, budget, fault).data.points[s].status
            == Transition(prev.points[s].status, Present(Decode(image), s))
  {
    ScanSinglePoint(prev, image, budget, fault);
  }

  lemma LifecycleTwoPoints(prev: TouchData, image: Image, budget: Option<nat>, fault: BusFault, s: nat)
    requires Decode(image).count == 2 && Decode(image).id1 < 2 && Decode(image).id2 < 2 && s < 2
    requires Decode(image).id1 != Decode(image).id2
    requires ScanSpec(prev, image, budget, fault).result.Ok?
    ensures ScanSpec(prev, image, budget, fault).data.points[s].status
            == Transition(prev.points[s].status, Present(Decode(image), s))
  {
    ScanMultiPointSlot(prev, image, budget, fault, s);
  }

  // ---------------------------------------------------------------------
  // Repeated scans
  // ---------------------------------------------------------------------

  /** The values a snapshot can hold: a 4-bit count and 12-bit
      coordinates. */
  predicate InRange(d: TouchData) {
    && d.touchCount <= 15
    && forall i :: 0 <= i < 2 ==> d.points[i].x <= 4095 && d.points[i].y <= 4095
  }

  lemma DefaultInRange()
    ensures InRange(DefaultTouchData())
  {
  }

  /** Reading a point, completely or not, keeps the snapshot in range. */
  lemma TrackPointKeepsRange(g: Progress, p: Reported, image: Image, budget: Option<nat>)
    requires !g.failed && InRange(g.data)
    ensures InRange(TrackPoint(g, p, image, budget).data)
  {
    var id := PointId(image[p.IdRegister()]);
    if Live(budget, |g.requests|) && id < 2 {
      FillSlotKeepsRange(Issue(g, p.IdRegister(), 1), p, id as nat, image, budget);
    }
  }

  /** Filling a slot, completely or not, writes only 12-bit coordinates. */
  lemma FillSlotKeepsRange(g: Progress, p: Reported, slot: nat, image: Image, budget: Option<nat>)
    requires !g.failed && slot < 2 && InRange(g.data)
    ensures InRange(FillSlot(g, p, slot, image, budget).data)
  {
  }

  /** One scan, successful or not, keeps the snapshot in range. */
  lemma ScanKeepsRange(prev: TouchData, image: Image, budget: Option<nat>, fault: BusFault)
    requires InRange(prev)
    ensures InRange(ScanSpec(prev, image, budget, fault).data)
  {
    if Live(budget, 0) {
      var count := TouchCount(image[ADDR_TD_STATUS]);
      var g := Progress(prev.(touchCount := count), [StatusRequest()], false);
      if count == 0 {
        assert ScanSpec(prev, image, budget, fault).data == ReleaseBoth(g.data);
      } else if count == 1 {
        assert ScanSpec(prev, image, budget, fault).data == SingleTouch(g, image, budget).data;
        TrackPointKeepsRange(g, P1, image, budget);
      } else {
        assert ScanSpec(prev, image, budget, fault).data == MultiTouch(g, image, budget).data;
        TrackPointKeepsRange(g, P1, image, budget);
        var g1 := TrackPoint(g, P1, image, budget);
        if !g1.failed {
          TrackPointKeepsRange(g1, P2, image, budget);
        }
      }
    }
  }

  /** One call of scan: what the controller presents and how the bus
      behaves during it. */
  datatype Poll = Poll(image: Image, budget: Option<nat>, fault: BusFault)

  /** The snapshot after a sequence of scans from `prev`. */
  function Replay(prev: TouchData, polls: seq<Poll>): TouchData
    decreases |polls|
  {
    if polls == [] then prev
    else Replay(ScanSpec(prev, polls[0].image, polls[0].budget, polls[0].fault).data, polls[1..])
  }

  /** However many scans run, and however each ends, the snapshot stays in
      range; from the default snapshot a driver starts with, always. */
  lemma {:induction false} ReplayKeepsRange(prev: TouchData, polls: seq<Poll>)
    requires InRange(prev)
    ensures InRange(Replay(prev, polls))
    decreases |polls|
  {
    if polls != [] {
      ScanKeepsRange(prev, polls[0].image, polls[0].budget, polls[0].fault);
      ReplayKeepsRange(ScanSpec(prev, polls[0].image, polls[0].budget, polls[0].fault).data, polls[1..]);
    }
  }

  /** Two successful scans reporting the same single point in a released
      slot: the first starts a contact, the second continues it; never
      Touch twice, never Stream first. */
  lemma {:induction false} TouchThenStream(prev: TouchData, image1: Image, image2: Image,
                                           budget1: Option<nat>, budget2: Option<nat>, fault: BusFault)
    requires Decode(image1).count == 1 && Decode(image2).count == 1
    requires Decode(image1).id1 < 2 && Decode(image2).id1 == Decode(image1).id1
    requires prev.points[Decode(image1).id1].status == Release
    requires Live(budget1, 3) && Live(budget2, 3)
    ensures var id := Decode(image1).id1 as nat;
      var d1 := ScanSpec(prev, image1, budget1, fault).data;
      var d2 := ScanSpec(d1, image2, budget2, fault).data;
      && d1.points[id].status == Touch
      && d2.points[id].status == Stream
  {
    ScanSinglePoint(prev, image1, budget1, fault);
    ScanSinglePoint(ScanSpec(prev, image1, budget1, fault).data, image2, budget2, fault);
  }

  /** A press, a move, a lift, each read by one reliable scan from the
      default snapshot: slot 0 goes Touch, Stream, Release, and after the
      lift keeps the coordinates of the move. */
  lemma {:induction false} ThreeScanScenario(fault: BusFault)
    ensures var press := Report(1, 0, 0, 100, 200, 0, 0, 0, 0);
      var move := Report(1, 2, 0, 105, 205, 0, 0, 0, 0);
      var lift := Report(0, 1, 0, 0, 0, 0, 0, 0, 0);
      var d1 := ScanSpec(DefaultTouchData(), Encode(press), None, fault).data;
      var d2 := ScanSpec(d1, Encode(move), None, fault).data;
      var d3 := ScanSpec(d2, Encode(lift), None, fault).data;
      && d1.points == [TouchPoint(Touch, 100, 200), TouchPoint(Release, 0, 0)]
      && d2.points == [TouchPoint(Stream, 105, 205), TouchPoint(Release, 0, 0)]
      && d3.points == [TouchPoint(Release, 105, 205), TouchPoint(Release, 0, 0)]
      && d3.touchCount == 0
  {
    var press := Report(1, 0, 0, 100, 200, 0, 0, 0, 0);
    var move := Report(1, 2, 0, 105, 205, 0, 0, 0, 0);
    var lift := Report(0, 1, 0, 0, 0, 0, 0, 0, 0);
    var d1 := ScanSpec(DefaultTouchData(), Encode(press), None, fault).data;
    ReliableSinglePoint(DefaultTouchData(), press, fault);
    var d2 := ScanSpec(d1, Encode(move), None, fault).data;
    ReliableSinglePoint(d1, move, fault);
    ReliableNoTouch(d2, lift, fault);
  }

  /** A reliable scan of a device presenting a single-point report. */
  lemma ReliableSinglePoint(prev: TouchData, r: Report, fault: BusFault)
    requires Encodable(r) && r.count == 1 && r.id1 < 2
    ensures ScanSpec(prev, Encode(r), None, fault).result.Ok?
    ensures var d := ScanSpec(prev, Encode(r), None, fault).data;
      var id := r.id1 as nat;
      && d.touchCount == 1
      && d.points[id] == TouchPoint(Advance(prev.points[id].status), r.x1, r.y1)
      && d.points[1 - id] == prev.points[1 - id].(status := Release)
  {
    EncodeDecode(r);
    ScanSinglePoint(prev, Encode(r), None, fault);
  }

  /** A reliable scan of a device presenting a report with no touch. */
  lemma ReliableNoTouch(prev: TouchData, r: Report, fault: BusFault)
    requires Encodable(r) && r.count == 0
    ensures var d := ScanSpec(prev, Encode(r), None, fault).data;
      && d.touchCount == 0
      && d.points[0] == prev.points[0].(status := Release)
      && d.points[1] == prev.points[1].(status := Release)
  {
    EncodeDecode(r);
    ScanNoTouch(prev, Encode(r), None, fault);
  }
}
