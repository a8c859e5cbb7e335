/** The two order slots and everything done to them under the manager's lock. A REST call
    is a seam: a segment ends before the call and the next one starts with its answer,
    because halts and fills can fall in between. */
module Orders {
  import opened Fills
  import Bits
  import Risk
  import Ring = SpscRing

  datatype OrderState =
    New | PendingNew | Submitted | Acknowledged | PartiallyFilled | Filled | Canceled | Rejected

  predicate IsValidTransition(from: OrderState, to: OrderState) {
    match from
    case New => to.PendingNew?
    case PendingNew => to.Submitted? || to.Rejected?
    case Submitted => to.Acknowledged? || to.Rejected? || to.Canceled?
    case Acknowledged => to.PartiallyFilled? || to.Filled? || to.Canceled? || to.Rejected?
    case PartiallyFilled => to.Filled? || to.Canceled?
    case Filled => false
    case Canceled => false
    case Rejected => false
  }

  /** How far along its life a state is. */
  function Rank(s: OrderState): nat {
    match s
    case New => 0
    case PendingNew => 1
    case Submitted => 2
    case Acknowledged => 3
    case PartiallyFilled => 4
    case _ => 5
  }

  lemma TransitionsClimb(from: OrderState, to: OrderState)
    requires IsValidTransition(from, to)
    ensures Rank(from) < Rank(to)
  {}

  /** The permitted moves, one by one. */
  lemma PermittedMoves(from: OrderState, to: OrderState)
    ensures IsValidTransition(from, to) <==>
            (from, to) in {(New, PendingNew), (PendingNew, Submitted), (PendingNew, Rejected),
                           (Submitted, Acknowledged), (Submitted, Rejected), (Submitted, Canceled),
                           (Acknowledged, PartiallyFilled), (Acknowledged, Filled), (Acknowledged, Canceled),
                           (Acknowledged, Rejected), (PartiallyFilled, Filled), (PartiallyFilled, Canceled)}
  {}

  predicate Terminal(s: OrderState) {
    s.Filled? || s.Canceled? || s.Rejected?
  }

  lemma TerminalAbsorbs(s: OrderState)
    ensures Terminal(s) <==> forall to :: !IsValidTransition(s, to)
  {
    if !Terminal(s) {
      assert IsValidTransition(s, match s
        case New => PendingNew
        case PendingNew => Submitted
        case _ => Canceled);
    }
  }

  // ---- Client order ids ----

  function Decimal(n: nat): string {
    if n < 10 then [DIGITS[n]] else Decimal(n / 10) + [DIGITS[n % 10]]
  }

  const DIGITS: string := "0123456789"

  function MakeCid(startMs: nat, n: nat): string {
    "spr" + Decimal(startMs) + "z" + Decimal(n)
  }

  lemma DecimalLast(n: nat)
    ensures |Decimal(n)| >= 1 && Decimal(n)[|Decimal(n)| - 1] == DIGITS[n % 10]
    ensures |Decimal(n)| == 1 <==> n < 10
  {}

  lemma {:induction false} DecimalInjective(m: nat, n: nat)
    requires Decimal(m) == Decimal(n)
    ensures m == n
    decreases m
  {
    assert forall i, j :: 0 <= i < 10 && 0 <= j < 10 && DIGITS[i] == DIGITS[j] ==> i == j;
    DecimalLast(m);
    DecimalLast(n);
    if m >= 10 && n >= 10 {
      assert Decimal(m / 10) == Decimal(m)[..|Decimal(m)| - 1];
      assert Decimal(n / 10) == Decimal(n)[..|Decimal(n)| - 1];
      DecimalInjective(m / 10, n / 10);
    }
  }

  /** The number a string of digits stands for, its front first. */
  function Reading(digits: string): int {
    if digits == "" then 0
    else 10 * Reading(digits[..|digits| - 1]) + (digits[|digits| - 1] as int - '0' as int)
  }

  /** A counter is written in decimal: it reads back, and all of it are digits. */
  lemma {:induction false} DecimalReadsBack(n: nat)
    ensures Reading(Decimal(n)) == n
    ensures forall k :: 0 <= k < |Decimal(n)| ==> '0' <= Decimal(n)[k] <= '9'
    decreases n
  {
    assert forall d :: 0 <= d < 10 ==> DIGITS[d] as int == '0' as int + d;
    if n < 10 {
      assert Decimal(n)[..0] == "";
    } else {
      DecimalReadsBack(n / 10);
      assert Decimal(n)[..|Decimal(n)| - 1] == Decimal(n / 10);
    }
  }

  /** Within a session no two client order ids are equal, so the counter value identifies
      the order; the rest of the model uses it as the id. */
  lemma CidsAreUnique(startMs: nat, m: nat, n: nat)
    requires m != n
    ensures MakeCid(startMs, m) != MakeCid(startMs, n)
  {
    if MakeCid(startMs, m) == MakeCid(startMs, n) {
      var head := "spr" + Decimal(startMs) + "z";
      assert MakeCid(startMs, m)[|head|..] == Decimal(m);
      assert MakeCid(startMs, n)[|head|..] == Decimal(n);
      DecimalInjective(m, n);
    }
  }

  // ---- State ----

  const NO_CID := -1

  datatype Slot = Slot(active: bool, cid: int, oid: int, side: int, price: real, qty: real,
                       executed: real, state: OrderState, submitNs: int)

  /** The audit log: moves made, and requests the state machine turned down. */
  datatype LogEntry = Moved(cid: int, from: OrderState, to: OrderState)
                    | Refused(cid: int, from: OrderState, to: OrderState)

  /** `openOrders` is the count last published to the risk manager. */
  datatype Om = Om(slots: seq<Slot>, nextCid: nat, openOrders: int, log: seq<LogEntry>)

  const EMPTY_SLOT := Slot(false, NO_CID, 0, 0, 0.0, 0.0, 0.0, New, 0)
  const START := Om([EMPTY_SLOT, EMPTY_SLOT], 0, 0, [])

  const BID := 0
  const ASK := 1

  predicate Live(s: Slot) {
    s.active && !Terminal(s.state)
  }

  function LiveCount(slots: seq<Slot>): nat {
    if slots == [] then 0
    else LiveCount(slots[..|slots| - 1]) + if Live(slots[|slots| - 1]) then 1 else 0
  }

  predicate Index(om: Om, i: int) {
    |om.slots| == 2 && 0 <= i < 2
  }

  function SideOf(i: int): int {
    if i == BID then 1 else -1
  }

  function SlotOfSide(side: int): int {
    if side > 0 then BID else ASK
  }

  function SignedQty(i: int, qty: real): real {
    if i == BID then qty else -qty
  }

  function WithSlot(om: Om, i: int, s: Slot): Om
    requires Index(om, i)
  {
    om.(slots := om.slots[i := s])
  }

  // ---- Segments, as functions of the state ----

  function Transitioned(om: Om, i: int, to: OrderState): Om
    requires Index(om, i)
  {
    var s := om.slots[i];
    if IsValidTransition(s.state, to) then
      WithSlot(om, i, s.(state := to)).(log := om.log + [Moved(s.cid, s.state, to)])
    else
      om.(log := om.log + [Refused(s.cid, s.state, to)])
  }

  function Synced(om: Om): Om {
    om.(openOrders := LiveCount(om.slots))
  }

  function Deactivated(om: Om, i: int): Om
    requires Index(om, i)
  {
    WithSlot(om, i, om.slots[i].(active := false))
  }

  /** What `maybe_requote_side` does next. */
  datatype Decision = Keep | CancelFirst | PlaceNow

  function Begun(om: Om, i: int, price: real, thresh: real): (Om, Decision)
    requires Index(om, i)
  {
    var s := om.slots[i];
    if !s.active then (om, PlaceNow)
    else if Terminal(s.state) then (Deactivated(om, i), PlaceNow)
    else if Abs(price - s.price) <= thresh then (om, Keep)
    else (om, CancelFirst)
  }

  /** A slot filled in for a new order and walked up to SUBMITTED. */
  function Prepared(om: Om, i: int, price: real, qty: real, nowNs: int): Om
    requires Index(om, i)
  {
    var s := om.slots[i].(side := SideOf(i), cid := om.nextCid, price := price, qty := qty, executed := 0.0,
                          active := true, submitNs := nowNs, state := New);
    Transitioned(Transitioned(WithSlot(om, i, s).(nextCid := om.nextCid + 1), i, PendingNew), i, Submitted)
  }

  /** The halt check, the risk check or the exchange turned the order down. */
  function TurnedDown(om: Om, i: int): Om
    requires Index(om, i)
  {
    Synced(Transitioned(om, i, Rejected))
  }

  function AckReceived(om: Om, i: int, oid: int): Om
    requires Index(om, i)
  {
    Synced(Transitioned(WithSlot(om, i, om.slots[i].(oid := oid)), i, Acknowledged))
  }

  function CancelConfirmed(om: Om, i: int): Om
    requires Index(om, i)
  {
    Synced(Deactivated(Transitioned(om, i, Canceled), i))
  }

  /** Every attempt to cancel failed: the slot is given up and the breaker is told. */
  function CancelAbandoned(om: Om, i: int): Om
    requires Index(om, i)
  {
    Synced(Deactivated(om, i))
  }

  predicate IsFull(executed: real, qty: real) {
    Abs(executed - qty) < EPS || executed >= qty
  }

  function FilledIn(om: Om, i: int, qty: real): Om
    requires Index(om, i)
  {
    var s := om.slots[i].(executed := om.slots[i].executed + qty);
    var om' := WithSlot(om, i, s);
    if IsFull(s.executed, s.qty) then
      if s.state.Acknowledged? || s.state.PartiallyFilled? then
        Synced(Deactivated(Transitioned(om', i, Filled), i))
      else om'
    else if s.state.Acknowledged? then Transitioned(om', i, PartiallyFilled)
    else om'
  }

  /** An order counts as full as soon as less than the tolerance is missing. */
  lemma FullIs(executed: real, qty: real)
    ensures IsFull(executed, qty) <==> qty - executed < 0.000000000001
  {}

  /** The slot a fill belongs to, or 2. */
  function SlotFor(om: Om, cid: int): int
    requires |om.slots| == 2
  {
    if om.slots[0].active && om.slots[0].cid == cid then 0
    else if om.slots[1].active && om.slots[1].cid == cid then 1
    else 2
  }

  function FillNoted(om: Om, f: Fill): Om
    requires |om.slots| == 2
  {
    var i := SlotFor(om, f.cid);
    if i == 2 then om else FilledIn(om, i, f.qty)
  }

  const RING_CAPACITY := 1023
  const FILL_MSG_BYTES := 512

  /** `inject_fill`: slots first, then the ring; true when the ring took the fill. */
  function Injected(om: Om, ring: seq<Fill>, f: Fill, encodedBytes: nat): (Om, seq<Fill>, bool)
    requires |om.slots| == 2
  {
    var om' := FillNoted(om, f);
    if encodedBytes > FILL_MSG_BYTES then (om', ring, false)
    else
      var (ok, ring') := Ring.Offer(ring, RING_CAPACITY, f);
      (om', ring', ok)
  }

  /** A fill counts towards the first active slot under its id whether or not the ring takes
      it, and the ring takes it exactly when it is short enough and not full. */
  lemma InjectedIs(om: Om, ring: seq<Fill>, f: Fill, encodedBytes: nat)
    requires |om.slots| == 2 && |ring| <= 1023
    ensures var (om', ring', ok) := Injected(om, ring, f, encodedBytes);
            && (ok <==> encodedBytes <= 512 && |ring| < 1023)
            && ring' == (if ok then ring + [f] else ring)
            && |om'.slots| == 2
            && forall i :: 0 <= i < 2 ==>
                 var mine := om.slots[i].active && om.slots[i].cid == f.cid
                             && (i == 0 || !om.slots[0].active || om.slots[0].cid != f.cid);
                 if mine then om'.slots[i].executed == om.slots[i].executed + f.qty && om'.slots[i].cid == f.cid
                 else om'.slots[i] == om.slots[i]
  {
    hide IsFull, LiveCount;
  }

  /** A slot through a placement: filled in, then turned down or acknowledged. */
  lemma PreparedSlot(om: Om, i: int, price: real, qty: real, now: int)
    requires Index(om, i)
    ensures var om' := Prepared(om, i, price, qty, now);
            && om'.nextCid == om.nextCid + 1
            && om'.slots == om.slots[i :=
                 Slot(true, om.nextCid, om.slots[i].oid, SideOf(i), price, qty, 0.0, Submitted, now)]
    ensures var om' := TurnedDown(Prepared(om, i, price, qty, now), i);
            && om'.nextCid == om.nextCid + 1 && |om'.slots| == 2 && om'.slots[1 - i] == om.slots[1 - i]
            && om'.slots[i].cid == om.nextCid && !Live(om'.slots[i])
            && om'.slots[i].price == price && om'.slots[i].qty == qty && om'.slots[i].side == SideOf(i)
    ensures forall oid :: var om' := AckReceived(Prepared(om, i, price, qty, now), i, oid);
            && om'.nextCid == om.nextCid + 1 && |om'.slots| == 2 && om'.slots[1 - i] == om.slots[1 - i]
            && om'.slots[i].cid == om.nextCid && om'.slots[i].active && om'.slots[i].state.Acknowledged?
            && om'.slots[i].price == price && om'.slots[i].qty == qty && om'.slots[i].side == SideOf(i)
  {}

  // ---- Cancelling ----

  datatype CancelAck = CancelAck(ok: bool, code: int)

  /** Accepted, or the exchange says it no longer knows the order. */
  predicate Gone(c: CancelAck) {
    c.ok || c.code == 51400 || c.code == -2011
  }

  const MAX_CANCEL_ATTEMPTS := 3

  /** The cancel window once each of these attempts has been recorded. */
  function CancelsRecorded(rs: Risk.RiskState, times: seq<int>): Risk.RiskState {
    if times == [] then rs
    else
      var rs' := CancelsRecorded(rs, times[..|times| - 1]);
      rs'.(cancelTimes := Risk.RecordedIn(rs'.cancelTimes, times[|times| - 1], Risk.RATE_WINDOW))
  }

  /** The ack watchdog's condition. */
  predicate WatchdogFires(s: Slot, nowNs: int, limitNs: int) {
    s.active && s.state.Submitted? && s.submitNs != 0 && nowNs - s.submitNs > limitNs
  }

  lemma RingSizeOk()
    ensures Ring.ValidSize(RING_CAPACITY + 1)
  {
    assert Bits.Pow2(10) == 1024 by {
      assert Bits.Pow2(5) == 32;
      assert Bits.Pow2(8) == 256;
    }
    Bits.PowerOfTwoTest(1024);
  }

  // ---- The class ----

  class OrderManager {
    const slots: array<Slot>
    const fillRing: Ring.Ring<Fill>
    var nextCid: nat
    var openOrders: int
    var log: seq<LogEntry>

    ghost predicate Valid()
      reads this, slots, fillRing
    {
      slots.Length == 2 && fillRing.Valid() && fillRing.buffer.Length == RING_CAPACITY + 1
    }

    function State(): (om: Om)
      reads this, slots
      ensures |om.slots| == slots.Length
    {
      Om(slots[..], nextCid, openOrders, log)
    }

    constructor ()
      ensures Valid() && State() == START
      ensures fresh(slots) && fresh(fillRing) && fresh(fillRing.buffer) && fillRing.Contents() == []
    {
      slots := new Slot[2](_ => EMPTY_SLOT);
      RingSizeOk();
      fillRing := new Ring.Ring(RING_CAPACITY + 1);
      nextCid, openOrders, log := 0, 0, [];
      new;
      assert slots[..] == [EMPTY_SLOT, EMPTY_SLOT];
    }

    method Transition(i: int, to: OrderState)
      requires Valid() && 0 <= i < 2
      modifies this`log, slots
      ensures Valid() && State() == Transitioned(old(State()), i, to)
    {
      var s := slots[i];
      if !IsValidTransition(s.state, to) {
        log := log + [Refused(s.cid, s.state, to)];
        return;
      }
      log := log + [Moved(s.cid, s.state, to)];
      slots[i] := s.(state := to);
    }

    method SyncOpenOrders()
      requires Valid()
      modifies this`openOrders
      ensures Valid() && State() == Synced(old(State()))
    {
      var n := 0;
      for i := 0 to slots.Length
        invariant n == LiveCount(slots[..i])
      {
        assert slots[..i + 1][..i] == slots[..i];
        if Live(slots[i]) {
          n := n + 1;
        }
      }
      assert slots[..slots.Length] == slots[..];
      openOrders := n;
    }

    /** `maybe_requote_side` up to its first REST call. */
    method BeginSide(i: int, price: real, thresh: real) returns (d: Decision)
      requires Valid() && 0 <= i < 2
      modifies slots
      ensures Valid() && (State(), d) == Begun(old(State()), i, price, thresh)
    {
      if slots[i].active {
        if Terminal(slots[i].state) {
          slots[i] := slots[i].(active := false);
        } else {
          if Abs(price - slots[i].price) <= thresh {
            return Keep;
          }
          return CancelFirst;
        }
      }
      d := PlaceNow;
    }

    /** `place_new` up to its checks. */
    method PrepareOrder(i: int, price: real, qty: real, nowNs: int)
      requires Valid() && 0 <= i < 2
      modifies this`nextCid, this`log, slots
      ensures Valid() && State() == Prepared(old(State()), i, price, qty, nowNs)
    {
      slots[i] := slots[i].(side := SideOf(i), cid := nextCid, price := price, qty := qty, executed := 0.0,
                            active := true, submitNs := nowNs);
      nextCid := nextCid + 1;
      if slots[i].state != New {
        slots[i] := slots[i].(state := New);
      }
      Transition(i, PendingNew);
      Transition(i, Submitted);
    }

    method TurnDown(i: int)
      requires Valid() && 0 <= i < 2
      modifies this`openOrders, this`log, slots
      ensures Valid() && State() == TurnedDown(old(State()), i)
    {
      Transition(i, Rejected);
      SyncOpenOrders();
    }

    method ReceiveAck(i: int, oid: int)
      requires Valid() && 0 <= i < 2
      modifies this`openOrders, this`log, slots
      ensures Valid() && State() == AckReceived(old(State()), i, oid)
    {
      slots[i] := slots[i].(oid := oid);
      Transition(i, Acknowledged);
      SyncOpenOrders();
    }

    method ConfirmCancel(i: int)
      requires Valid() && 0 <= i < 2
      modifies this`openOrders, this`log, slots
      ensures Valid() && State() == CancelConfirmed(old(State()), i)
    {
      Transition(i, Canceled);
      slots[i] := slots[i].(active := false);
      SyncOpenOrders();
    }

    /** The bounded retry; `answers` is what the exchange would answer to each attempt, and
        `times` when each would be recorded. `escalated` tells the breaker that the order
        may still be resting. */
    method CancelSlot(i: int, rm: Risk.RiskManager, answers: seq<CancelAck>, times: seq<int>)
      returns (gone: bool, escalated: bool, attempts: nat)
      requires Valid() && 0 <= i < 2 && |times| == |answers| >= MAX_CANCEL_ATTEMPTS
      modifies this`openOrders, this`log, slots, rm
      ensures Valid()
      ensures escalated == !gone && attempts <= |times|
      ensures rm.State() == CancelsRecorded(old(rm.State()), times[..attempts])
      ensures !old(slots[i].active) ==> gone && attempts == 0 && State() == old(State())
      ensures old(slots[i].active) ==>
                && 1 <= attempts <= 3
                && (forall n :: 0 <= n < attempts - 1 ==>
                      !answers[n].ok && answers[n].code != 51400 && answers[n].code != -2011)
                && (var last := answers[attempts - 1];
                    gone <==> last.ok || last.code == 51400 || last.code == -2011)
                && gone == Gone(answers[attempts - 1])
                && (!gone ==> attempts == 3)
                && State() == (if gone then CancelConfirmed(old(State()), i) else CancelAbandoned(old(State()), i))
    {
      attempts := 0;
      if !slots[i].active {
        return true, false, 0;
      }
      while attempts < MAX_CANCEL_ATTEMPTS
        invariant attempts <= MAX_CANCEL_ATTEMPTS
        invariant forall n :: 0 <= n < attempts ==>
                    !answers[n].ok && answers[n].code != 51400 && answers[n].code != -2011
        invariant State() == old(State())
        invariant rm.State() == CancelsRecorded(old(rm.State()), times[..attempts])
      {
        var c := answers[attempts];
        rm.RecordCancel(times[attempts]);
        attempts := attempts + 1;
        assert times[..attempts][..attempts - 1] == times[..attempts - 1];
        if c.ok || c.code == 51400 || c.code == -2011 {
          ConfirmCancel(i);
          return true, false, attempts;
        }
      }
      slots[i] := slots[i].(active := false);
      SyncOpenOrders();
      gone, escalated := false, true;
    }

    method NoteFill(i: int, qty: real)
      requires Valid() && 0 <= i < 2
      modifies this`openOrders, this`log, slots
      ensures Valid() && State() == FilledIn(old(State()), i, qty)
    {
      slots[i] := slots[i].(executed := slots[i].executed + qty);
      var s := slots[i];
      if IsFull(s.executed, s.qty) {
        if s.state == Acknowledged || s.state == PartiallyFilled {
          Transition(i, Filled);
          slots[i] := slots[i].(active := false);
          SyncOpenOrders();
        }
      } else if s.state == Acknowledged {
        Transition(i, PartiallyFilled);
      }
    }

    method InjectFill(f: Fill, encodedBytes: nat) returns (ok: bool)
      requires Valid() && slots as object != fillRing.buffer
      modifies this`openOrders, this`log, slots, fillRing, fillRing.buffer
      ensures Valid()
      ensures (State(), fillRing.Contents(), ok) ==
              Injected(old(State()), old(fillRing.Contents()), f, encodedBytes)
    {
      var i := 0;
      while i < 2 && !(slots[i].active && slots[i].cid == f.cid)
        invariant 0 <= i <= 2
        invariant forall j :: 0 <= j < i ==> !(slots[j].active && slots[j].cid == f.cid)
      {
        i := i + 1;
      }
      if i < 2 {
        NoteFill(i, f.qty);
      }
      if encodedBytes > FILL_MSG_BYTES {
        return false;
      }
      ok := fillRing.Push(f);
    }

    /** The ack watchdog's condition, slot by slot. */
    method TimedOut(i: int, nowNs: int, limitNs: int) returns (fires: bool)
      requires Valid() && 0 <= i < 2
      ensures fires <==> WatchdogFires(slots[i], nowNs, limitNs)
      ensures fires <==> slots[i].active && slots[i].state == Submitted && 0 != slots[i].submitNs < nowNs - limitNs
    {
      var s := slots[i];
      fires := s.active && s.state == Submitted && s.submitNs != 0 && nowNs - s.submitNs > limitNs;
    }
  }
}
