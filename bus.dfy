/** The I2C transport as an oracle. The real transport is a foreign library;
    here it is an object that answers each write-then-read exchange from a
    register image, fails once a budget of successful exchanges is spent,
    and records every exchange it is asked for. */
module Bus {
  import opened Wrappers
  import opened Types
  import opened Codec

  /** One write-then-read exchange: the peer address, the register written,
      and how many bytes are read back. */
  datatype Request = Request(peer: bv8, register: bv8, len: nat)

  /** Whether the exchange `i` exchanges after one started with `budget`
      succeeds (`None`: the bus never fails). */
  predicate Live(budget: Option<nat>, i: nat) {
    budget.None? || i < budget.value
  }

  /** The budget left after one exchange; a spent budget stays spent. */
  function Tick(budget: Option<nat>): (b: Option<nat>)
    ensures b.None? <==> budget.None?
    ensures b.Some? ==> b.value <= budget.value
  {
    match budget
    case None => None
    case Some(k) => Some(if k == 0 then 0 else k - 1)
  }

  /** The budget left after `n` exchanges. */
  function Spend(budget: Option<nat>, n: nat): (b: Option<nat>)
    ensures b.None? <==> budget.None?
    ensures b.Some? ==> b.value <= budget.value
  {
    match budget
    case None => None
    case Some(k) => Some(if k >= n then k - n else 0)
  }

  /** After `n` exchanges, the next one succeeds exactly when the
      exchange `n` of the original budget does, and spending one more is
      one more tick. */
  lemma SpendNext(budget: Option<nat>, n: nat)
    ensures Live(Spend(budget, n), 0) == Live(budget, n)
    ensures Tick(Spend(budget, n)) == Spend(budget, n + 1)
    ensures Spend(budget, 0) == budget
  {
  }

  class I2cBus {
    /** Register contents the device presents. */
    var image: Image
    /** Exchanges that still succeed before the next failure. */
    var budget: Option<nat>
    /** The error value reported by a failed exchange. */
    var fault: BusFault
    /** Every exchange issued, in order. */
    var log: seq<Request>

    constructor (image: Image, budget: Option<nat>, fault: BusFault)
      ensures this.image == image && this.budget == budget && this.fault == fault
      ensures log == []
    {
      this.image := image;
      this.budget := budget;
      this.fault := fault;
      log := [];
    }

    /** Writes register address `register` to device `peer`, then reads
        `len` bytes back: consecutive registers from the image, or the
        fault once the budget is spent. */
    method WriteRead(peer: bv8, register: bv8, len: nat) returns (r: Result<seq<bv8>, BusFault>)
      requires register as int + len <= 256
      modifies this
      ensures Exchanged(this, Request(peer, register, len))
      ensures r == if Live(old(budget), 0) then Ok(image[register..register as int + len]) else Err(fault)
    {
      log := log + [Request(peer, register, len)];
      if Live(budget, 0) {
        r := Ok(image[register..register as int + len]);
      } else {
        r := Err(fault);
      }
      budget := Tick(budget);
    }
  }

  /** What one exchange with the controller leaves behind: the image and
      the fault unchanged, one request more in the log, one exchange less
      in the budget. */
  twostate predicate Exchanged(bus: I2cBus, req: Request)
    reads bus
  {
    && bus.image == old(bus.image)
    && bus.fault == old(bus.fault)
    && bus.log == old(bus.log) + [req]
    && bus.budget == Tick(old(bus.budget))
  }
}
