/** The live engine as a state machine: the quote thread, the halt watcher, shutdown, the
    fill threads and the exchange, one REST call or one lock-held segment at a time. */
module LiveLoop {
  import opened Fills
  import opened Options
  import opened Orders
  import opened PositionTracking

  /** An order as the exchange knows it. `reported` is how much of it has been reported as
      fills; `open` says that it still rests. */
  datatype ExOrder = ExOrder(side: int, price: real, qty: real, executed: real, reported: real, open: bool)

  datatype Quote = Quote(bid: real, ask: real, qty: real)

  datatype SweepKind = OnHalt | Shutdown

  /** Who holds the manager's lock, and which REST call or check comes next. */
  datatype Holder =
    | Free
    | Side(i: int, q: Quote)                     // maybe_requote_side for slot i begins
    | SideCancel(i: int, q: Quote, tries: nat)   // a cancel attempt is on the wire
    | SideCheck(i: int, q: Quote)                // SUBMITTED, halt and risk still unchecked
    | SideSend(i: int, q: Quote, lag: real)      // checks passed, place_order not yet called
    | SideAck(i: int, q: Quote, accepted: bool)  // place_order called, answer not yet read
    | Sweep(i: int, kind: SweepKind)             // cancel-and-flatten looks at slot i
    | SweepCancel(i: int, kind: SweepKind, tries: nat)

  /** `lost` holds, per side, the order whose cancel failed persistently. `position` is the
      true position, and `lag` how far it was ahead of the local inventory when the last
      order of that side was approved, plus what flattens have moved it that way since.
      `accepted` are the fills the ring has taken, and `inFlight` the one that has been
      popped but not yet applied. `quoted` is the last quote that was handled to the end. */
  datatype World = World(
    om: Om, halted: bool, haltHandled: bool, haltWaiting: bool, haltDone: bool,
    armed: Option<Quote>, holder: Holder, ex: map<int, ExOrder>,
    ring: seq<Fill>, inFlight: Option<Fill>, accepted: seq<Fill>, tracker: Tracker,
    lost: seq<int>, sends: nat, position: real, lag: seq<real>, quoted: Option<Quote>)

  datatype Config = Config(thresh: real, maxPosition: real, lot: real)

  predicate Sane(c: Config) {
    c.maxPosition >= 0.0 && c.lot >= EPS
  }

  const INITIAL := World(START, false, false, false, false, None, Free, map[], [], None, [], FLAT,
                         [NO_CID, NO_CID], 0, 0.0, [0.0, 0.0], None)

  datatype Step =
    | Trip                                       // any cause halts the breaker
    | QuoteArrives(q: Quote) | QuoteLocks | Requote(nowNs: int)
    | CancelReply(answer: CancelAck, stillOpen: bool)
    | Check(approved: bool) | Send(accepted: bool) | AckReply(oid: int)
    | HaltNoticed | HaltLocks | ShutdownLocks
    | SweepSlot(skip: bool) | SweepFlatten(ordered: bool, delta: real)
    | ExFill(cid: int, qty: real) | ExDrop(cid: int)
    | Report(f: Fill, bytes: nat) | ForeignFill(f: Fill, bytes: nat) | PopFill | ApplyFill

  predicate QuoteHolds(h: Holder) {
    h.Side? || h.SideCancel? || h.SideCheck? || h.SideSend? || h.SideAck?
  }

  function Price(q: Quote, i: int): real {
    if i == BID then q.bid else q.ask
  }

  /** What the environment can do. Of the exchange it is assumed that an order it did not
      accept never rests, that a confirmed cancel or an unknown-order answer means that the
      order no longer rests, and that it reports each execution once. */
  ghost predicate Enabled(c: Config, w: World, step: Step) {
    match step
    case Trip => true
    case QuoteArrives(_) => w.armed.None? && !QuoteHolds(w.holder)
    case QuoteLocks => w.armed.Some? && w.holder.Free?
    case Requote(_) => w.holder.Side?
    case CancelReply(_, _) => w.holder.SideCancel? || w.holder.SweepCancel?
    case Check(approved) =>
      w.holder.SideCheck? &&
      (approved ==> Abs(w.tracker.inv + SignedQty(w.holder.i, w.holder.q.qty)) <= c.maxPosition)
    case Send(accepted) =>
      w.holder.SideSend? && (accepted ==> w.holder.q.qty > 0.0 && OnGrid(w.holder.q.qty, c.lot))
    case AckReply(_) => w.holder.SideAck?
    case HaltNoticed => w.halted && !w.haltHandled
    case HaltLocks => w.haltWaiting && w.holder.Free?
    case ShutdownLocks => w.holder.Free?
    case SweepSlot(_) => w.holder.Sweep? && w.holder.i < 2
    case SweepFlatten(ordered, delta) => w.holder.Sweep? && w.holder.i == 2 && (delta != 0.0 ==> ordered)
    case ExFill(cid, qty) =>
      cid in w.ex && w.ex[cid].open && OnGrid(qty, c.lot) && 0.0 < qty <= w.ex[cid].qty - w.ex[cid].executed
    case ExDrop(cid) => cid in w.ex
    case Report(f, _) =>
      w.holder.Free? && f.cid in w.ex && OnGrid(f.qty, c.lot) &&
      0.0 < f.qty <= w.ex[f.cid].executed - w.ex[f.cid].reported
    case ForeignFill(f, _) =>
      w.holder.Free? && f.cid !in w.ex && forall s :: s in w.om.slots ==> s.cid != f.cid
    case PopFill => w.inFlight.None? && w.ring != []
    case ApplyFill => w.inFlight.Some?
  }

  function Closed(ex: map<int, ExOrder>, cid: int): map<int, ExOrder> {
    if cid in ex then ex[cid := ex[cid].(open := false)] else ex
  }

  function NextSide(w: World, i: int, q: Quote): World {
    if i == BID then w.(holder := Side(ASK, q)) else w.(holder := Free, quoted := Some(q))
  }

  ghost predicate Shape(w: World) {
    && |w.om.slots| == 2 && |w.lost| == 2 && |w.lag| == 2
    && (QuoteHolds(w.holder) || w.holder.SweepCancel? ==> 0 <= w.holder.i < 2)
    && (w.holder.Sweep? ==> 0 <= w.holder.i <= 2)
    && (w.holder.SideCancel? || w.holder.SweepCancel? ==> w.holder.tries < MAX_CANCEL_ATTEMPTS)
  }

  /** The step neither halts, nor calls place_order, nor loses an order. */
  predicate Quiet(w: World, w': World) {
    w'.halted == w.halted && (w.haltDone ==> w'.haltDone) && w'.sends == w.sends && w'.lost == w.lost
  }

  function AfterRequote(c: Config, w: World, nowNs: int): (w': World)
    requires w.holder.Side? && Index(w.om, w.holder.i)
    ensures Quiet(w, w')
  {
    var i, q := w.holder.i, w.holder.q;
    var (om, d) := Begun(w.om, i, Price(q, i), c.thresh);
    match d
    case Keep => NextSide(w.(om := om), i, q)
    case CancelFirst => w.(om := om, holder := SideCancel(i, q, 0))
    case PlaceNow => w.(om := Prepared(om, i, Price(q, i), q.qty, nowNs), holder := SideCheck(i, q))
  }

  function AfterCancelReply(w: World, answer: CancelAck, stillOpen: bool): (w': World)
    requires w.holder.SideCancel? || w.holder.SweepCancel?
    requires Index(w.om, w.holder.i) && |w.lost| == 2
    ensures (w.halted ==> w'.halted) && w'.haltDone == w.haltDone && w'.sends == w.sends
  {
    var i, cid := w.holder.i, w.om.slots[w.holder.i].cid;
    var w' := if Gone(answer) || !stillOpen then w.(ex := Closed(w.ex, cid)) else w;
    if Gone(answer) then
      w'.(om := CancelConfirmed(w.om, i),
          holder := if w.holder.SideCancel? then Side(i, w.holder.q) else Sweep(i + 1, w.holder.kind))
    else if w.holder.tries + 1 < MAX_CANCEL_ATTEMPTS then
      w'.(holder := if w.holder.SideCancel? then SideCancel(i, w.holder.q, w.holder.tries + 1)
                    else SweepCancel(i, w.holder.kind, w.holder.tries + 1))
    else
      var w'' := w'.(om := CancelAbandoned(w.om, i), halted := true, lost := w.lost[i := cid]);
      if w.holder.SideCancel? then NextSide(w'', i, w.holder.q)
      else w''.(holder := Sweep(i + 1, w.holder.kind))
  }

  function AfterCheck(w: World, approved: bool): (w': World)
    requires w.holder.SideCheck? && Index(w.om, w.holder.i)
    ensures Quiet(w, w')
  {
    var i, q := w.holder.i, w.holder.q;
    if w.halted || !approved then NextSide(w.(om := TurnedDown(w.om, i)), i, q)
    else w.(holder := SideSend(i, q, if i == BID then w.position - w.tracker.inv else w.tracker.inv - w.position))
  }

  function AfterSend(w: World, accepted: bool): (w': World)
    requires w.holder.SideSend? && Index(w.om, w.holder.i) && |w.lag| == 2
    ensures w'.halted == w.halted
  {
    var i, q := w.holder.i, w.holder.q;
    var w' := w.(holder := SideAck(i, q, accepted), sends := w.sends + 1);
    if accepted then
      w'.(ex := w.ex[w.om.slots[i].cid := ExOrder(SideOf(i), w.om.slots[i].price, q.qty, 0.0, 0.0, true)],
          lag := w.lag[i := w.holder.lag])
    else w'
  }

  function AfterAck(w: World, oid: int): (w': World)
    requires w.holder.SideAck? && Index(w.om, w.holder.i)
    ensures Quiet(w, w')
  {
    var i := w.holder.i;
    NextSide(w.(om := if w.holder.accepted then AckReceived(w.om, i, oid) else TurnedDown(w.om, i)), i, w.holder.q)
  }

  function AfterInject(w: World, f: Fill, bytes: nat): (w': World)
    requires |w.om.slots| == 2
    ensures Quiet(w, w')
  {
    var (om, ring, ok) := Injected(w.om, w.ring, f, bytes);
    w.(om := om, ring := ring, accepted := if ok then w.accepted + [f] else w.accepted)
  }

  function AfterSweepSlot(w: World, skip: bool): (w': World)
    requires w.holder.Sweep? && Index(w.om, w.holder.i)
    ensures Quiet(w, w')
  {
    if Live(w.om.slots[w.holder.i]) && !(skip && w.holder.kind.Shutdown?)
    then w.(holder := SweepCancel(w.holder.i, w.holder.kind, 0))
    else w.(holder := Sweep(w.holder.i + 1, w.holder.kind))
  }

  /** The flatten is a market order; `delta` is what it does to the true position. */
  function AfterSweepFlatten(w: World, ordered: bool, delta: real): (w': World)
    requires w.holder.Sweep? && |w.lag| == 2
    ensures Quiet(w, w')
  {
    w.(om := if ordered then w.om.(nextCid := w.om.nextCid + 1) else w.om,
       position := w.position + delta,
       lag := [w.lag[BID] + Max0(delta), w.lag[ASK] + Max0(-delta)],
       haltDone := w.haltDone || w.holder.kind.OnHalt?, holder := Free)
  }

  function AfterExFill(w: World, cid: int, qty: real): (w': World)
    requires cid in w.ex
    ensures Quiet(w, w')
  {
    var o := w.ex[cid];
    w.(ex := w.ex[cid := o.(executed := o.executed + qty, open := o.executed + qty < o.qty)],
       position := w.position + if o.side > 0 then qty else -qty)
  }

  function AfterReport(w: World, f: Fill, bytes: nat): (w': World)
    requires |w.om.slots| == 2 && f.cid in w.ex
    ensures Quiet(w, w')
  {
    AfterInject(w.(ex := w.ex[f.cid := w.ex[f.cid].(reported := w.ex[f.cid].reported + f.qty)]), f, bytes)
  }

  ghost function Apply(c: Config, w: World, step: Step): World
    requires Shape(w) && Enabled(c, w, step)
  {
    match step
    case Trip => w.(halted := true)
    case QuoteArrives(q) => if w.halted then w else w.(armed := Some(q))
    case QuoteLocks => w.(armed := None, holder := Side(BID, w.armed.value))
    case Requote(nowNs) => AfterRequote(c, w, nowNs)
    case CancelReply(answer, stillOpen) => AfterCancelReply(w, answer, stillOpen)
    case Check(approved) => AfterCheck(w, approved)
    case Send(accepted) => AfterSend(w, accepted)
    case AckReply(oid) => AfterAck(w, oid)
    case HaltNoticed => w.(haltHandled := true, haltWaiting := true)
    case HaltLocks => w.(haltWaiting := false, holder := Sweep(BID, OnHalt))
    case ShutdownLocks => w.(holder := Sweep(BID, Shutdown))
    case SweepSlot(skip) => AfterSweepSlot(w, skip)
    case SweepFlatten(ordered, delta) => AfterSweepFlatten(w, ordered, delta)
    case ExFill(cid, qty) => AfterExFill(w, cid, qty)
    case ExDrop(cid) => w.(ex := Closed(w.ex, cid))
    case Report(f, bytes) => AfterReport(w, f, bytes)
    case ForeignFill(f, bytes) => AfterInject(w, f, bytes)
    case PopFill => w.(inFlight := Some(w.ring[0]), ring := w.ring[1..])
    case ApplyFill => w.(tracker := Applied(w.tracker, w.inFlight.value), inFlight := None)
  }

  // ---- Invariants ----

  /** The holder is between filling in slot i and reading the exchange's answer. */
  predicate Placing(h: Holder, i: int) {
    (h.SideCheck? || h.SideSend? || h.SideAck?) && h.i == i
  }

  /** place_order has been called for slot i and the exchange took the order. */
  predicate Accepting(h: Holder, i: int) {
    h.SideAck? && h.i == i && h.accepted
  }

  predicate Cancelling(h: Holder, i: int) {
    (h.SideCancel? || h.SweepCancel?) && h.i == i
  }

  predicate Placed(s: Slot) {
    s.active && (s.state.Acknowledged? || s.state.PartiallyFilled?)
  }

  /** The exchange's order under the slot's id is the slot's order. */
  predicate Mirrors(s: Slot, i: int, ex: map<int, ExOrder>) {
    s.cid in ex && ex[s.cid].side == SideOf(i) && ex[s.cid].qty == s.qty && ex[s.cid].reported == s.executed
  }

  predicate SlotOk(s: Slot, i: int, nextCid: nat, h: Holder, ex: map<int, ExOrder>) {
    && NO_CID <= s.cid < nextCid
    && (s.active ==> s.cid != NO_CID && s.side == SideOf(i))
    && (Placing(h, i) ==> s.active && s.state.Submitted? && s.executed == 0.0 && s.qty == h.q.qty)
    && (s.active && !Placing(h, i) ==> Placed(s) || s.state.Rejected?)
    && (Placed(s) || Accepting(h, i) ==> Mirrors(s, i, ex))
    && (s.active && !Placed(s) && !Accepting(h, i) ==> s.cid !in ex)
    // the state tells how far the order is filled
    && (Placed(s) ==> s.executed < s.qty && (s.state.Acknowledged? <==> s.executed == 0.0))
    && (s.state.Filled? ==> s.executed >= s.qty)
    && (Cancelling(h, i) ==> Placed(s))
  }

  predicate SlotsOk(om: Om, h: Holder, ex: map<int, ExOrder>) {
    && |om.slots| == 2
    && SlotOk(om.slots[BID], BID, om.nextCid, h, ex) && SlotOk(om.slots[ASK], ASK, om.nextCid, h, ex)
    && (om.slots[BID].cid == om.slots[ASK].cid ==> om.slots[BID].cid == NO_CID)
  }

  ghost predicate ExOrderOk(c: Config, o: ExOrder) {
    && (o.side == 1 || o.side == -1)
    && 0.0 <= o.reported <= o.executed <= o.qty && 0.0 < o.qty
    && (o.open ==> o.executed < o.qty)
    && OnGrid(o.qty, c.lot) && OnGrid(o.executed, c.lot) && OnGrid(o.reported, c.lot)
  }

  ghost predicate ExOk(c: Config, ex: map<int, ExOrder>, nextCid: nat) {
    forall cid :: cid in ex ==> 0 <= cid < nextCid && ExOrderOk(c, ex[cid])
  }

  /** The slot is responsible for the order: it is live under this id, or about to read
      the answer that makes it so. */
  predicate Owns(s: Slot, i: int, h: Holder, cid: int) {
    s.cid == cid && (Placed(s) || Accepting(h, i))
  }

  ghost predicate NoOrphan(slots: seq<Slot>, h: Holder, ex: map<int, ExOrder>, lost: seq<int>) {
    && |slots| == 2 && |lost| == 2
    && forall cid :: cid in ex && ex[cid].open ==>
         var i := SlotOfSide(ex[cid].side);
         Owns(slots[i], i, h, cid) || lost[i] == cid
  }

  /** Once an order of a side is lost the breaker is halted and the side stays empty. */
  predicate LostOk(slots: seq<Slot>, h: Holder, lost: seq<int>, halted: bool) {
    && |slots| == 2 && |lost| == 2
    && (lost[BID] != NO_CID ==> halted && !Placed(slots[BID]) && !((h.SideSend? || h.SideAck?) && h.i == BID))
    && (lost[ASK] != NO_CID ==> halted && !Placed(slots[ASK]) && !((h.SideSend? || h.SideAck?) && h.i == ASK))
  }

  predicate HaltOk(w: World) {
    && |w.om.slots| == 2
    && (w.haltHandled || w.haltWaiting || w.haltDone ==> w.halted)
    && ((w.holder.Sweep? || w.holder.SweepCancel?) && w.holder.kind.OnHalt? ==>
          && w.halted
          && (w.holder.i > BID ==> !Placed(w.om.slots[BID]))
          && (w.holder.i > ASK ==> !Placed(w.om.slots[ASK])))
    && (w.haltDone ==>
          !w.holder.SideSend? && !w.holder.SideAck? && !Placed(w.om.slots[BID]) && !Placed(w.om.slots[ASK]))
  }

  predicate CountOk(om: Om, h: Holder) {
    !Placing(h, BID) && !Placing(h, ASK) ==> om.openOrders == LiveCount(om.slots)
  }

  /** Nothing logged for this order is ahead of its state. */
  ghost predicate LogBelow(log: seq<LogEntry>, cid: int, state: OrderState) {
    forall k :: 0 <= k < |log| && log[k].cid == cid ==> Rank(log[k].to) <= Rank(state)
  }

  /** No request was refused, and the states logged for one order climb. */
  ghost predicate LogClimbs(log: seq<LogEntry>, nextCid: nat) {
    && (forall k :: 0 <= k < |log| ==>
          log[k].Moved? && log[k].cid < nextCid && IsValidTransition(log[k].from, log[k].to))
    && (forall j, k :: 0 <= j < k < |log| && log[j].cid == log[k].cid ==> Rank(log[j].to) < Rank(log[k].to))
  }

  ghost predicate LogOk(om: Om) {
    && |om.slots| == 2
    && LogClimbs(om.log, om.nextCid)
    && LogBelow(om.log, om.slots[BID].cid, om.slots[BID].state)
    && LogBelow(om.log, om.slots[ASK].cid, om.slots[ASK].state)
  }

  /** Popped but not yet applied, then still queued. */
  function Queued(inFlight: Option<Fill>, ring: seq<Fill>): seq<Fill> {
    (if inFlight.Some? then [inFlight.value] else []) + ring
  }

  /** What the ring took is what the tracker has applied, then what is still to come. */
  ghost predicate PipelineOk(inFlight: Option<Fill>, ring: seq<Fill>, accepted: seq<Fill>, tracker: Tracker) {
    var n := |accepted| - |Queued(inFlight, ring)|;
    && |ring| <= RING_CAPACITY && n >= 0
    && accepted[n..] == Queued(inFlight, ring)
    && tracker == AppliedAll(FLAT, accepted[..n])
  }

  predicate WithinLag(c: Config, position: real, side: int, pending: real, lag: real) {
    if side > 0 then position + pending <= c.maxPosition + lag
    else position - pending >= -(c.maxPosition + lag)
  }

  ghost predicate LagOk(c: Config, h: Holder, ex: map<int, ExOrder>, position: real, lag: seq<real>) {
    && |lag| == 2
    && WithinLag(c, position, 1, 0.0, lag[BID]) && WithinLag(c, position, -1, 0.0, lag[ASK])
    && (forall cid :: cid in ex && ex[cid].open ==>
          WithinLag(c, position, ex[cid].side, ex[cid].qty - ex[cid].executed, lag[SlotOfSide(ex[cid].side)]))
    && (h.SideSend? ==> WithinLag(c, position, SideOf(h.i), h.q.qty, h.lag))
  }

  ghost predicate Inv(c: Config, w: World) {
    && Shape(w)
    && SlotsOk(w.om, w.holder, w.ex)
    && ExOk(c, w.ex, w.om.nextCid)
    && NoOrphan(w.om.slots, w.holder, w.ex, w.lost)
    && LostOk(w.om.slots, w.holder, w.lost, w.halted)
    && HaltOk(w)
    && CountOk(w.om, w.holder)
    && LogOk(w.om)
    && PipelineOk(w.inFlight, w.ring, w.accepted, w.tracker)
    && LagOk(c, w.holder, w.ex, w.position, w.lag)
  }

  // ---- Each step keeps the invariant ----

  lemma HaltSteps(c: Config, w: World)
    requires Inv(c, w)
    ensures Inv(c, w.(halted := true))
    ensures w.halted ==> Inv(c, w.(haltHandled := true, haltWaiting := true))
  {
    hide SlotsOk, ExOk, NoOrphan, CountOk, LogOk, PipelineOk, LagOk;
  }

  lemma LockSteps(c: Config, w: World)
    requires Inv(c, w)
    ensures forall q :: Inv(c, w.(armed := Some(q)))
    ensures w.holder.Free? && w.armed.Some? ==> Inv(c, w.(armed := None, holder := Side(BID, w.armed.value)))
    ensures w.holder.Free? ==> Inv(c, w.(holder := Sweep(BID, Shutdown)))
    ensures w.holder.Free? && w.haltWaiting ==> Inv(c, w.(haltWaiting := false, holder := Sweep(BID, OnHalt)))
  {
    hide ExOk, LogOk, PipelineOk;
  }

  lemma LiveCountTwo(slots: seq<Slot>)
    requires |slots| == 2
    ensures LiveCount(slots) == (if Live(slots[0]) then 1 else 0) + (if Live(slots[1]) then 1 else 0)
  {
    assert slots[..1][..0] == [];
    assert LiveCount(slots[..1]) == if Live(slots[0]) then 1 else 0;
  }

  /** A permitted move of a slot whose order the other slot does not share keeps the log. */
  lemma MoveKeepsLog(om: Om, i: int, to: OrderState)
    requires Index(om, i) && LogOk(om) && IsValidTransition(om.slots[i].state, to)
    requires om.slots[i].cid < om.nextCid && om.slots[BID].cid != om.slots[ASK].cid
    ensures LogOk(Transitioned(om, i, to))
    ensures Transitioned(om, i, to).slots == om.slots[i := om.slots[i].(state := to)]
  {
    TransitionsClimb(om.slots[i].state, to);
    hide IsValidTransition, Rank;
  }

  lemma PrepareKeepsLog(om: Om, i: int, price: real, qty: real, nowNs: int)
    requires Index(om, i) && LogOk(om)
    requires forall j :: 0 <= j < 2 ==> om.slots[j].cid < om.nextCid
    ensures LogOk(Prepared(om, i, price, qty, nowNs))
    ensures Prepared(om, i, price, qty, nowNs).slots ==
            om.slots[i := Slot(true, om.nextCid, om.slots[i].oid, SideOf(i), price, qty, 0.0, Submitted, nowNs)]
  {
    var om1 := WithSlot(om, i, om.slots[i].(side := SideOf(i), cid := om.nextCid, price := price, qty := qty,
      executed := 0.0, active := true, submitNs := nowNs, state := New)).(nextCid := om.nextCid + 1);
    assert LogOk(om1);
    MoveKeepsLog(om1, i, PendingNew);
    MoveKeepsLog(Transitioned(om1, i, PendingNew), i, Submitted);
  }

  lemma ConfirmEffect(om: Om, i: int)
    requires Index(om, i) && LogOk(om) && Placed(om.slots[i])
    requires om.slots[i].cid < om.nextCid && om.slots[BID].cid != om.slots[ASK].cid
    ensures var om' := CancelConfirmed(om, i);
            && om'.slots == om.slots[i := om.slots[i].(state := Canceled, active := false)]
            && om'.nextCid == om.nextCid && om'.openOrders == LiveCount(om'.slots) && LogOk(om')
  {
    MoveKeepsLog(om, i, Canceled);
  }

  lemma AbandonEffect(om: Om, i: int)
    requires Index(om, i) && LogOk(om)
    ensures var om' := CancelAbandoned(om, i);
            && om'.slots == om.slots[i := om.slots[i].(active := false)]
            && om'.nextCid == om.nextCid && om'.openOrders == LiveCount(om'.slots) && LogOk(om')
  {}

  lemma TurnDownEffect(om: Om, i: int)
    requires Index(om, i) && LogOk(om) && om.slots[i].state.Submitted?
    requires om.slots[i].cid < om.nextCid && om.slots[BID].cid != om.slots[ASK].cid
    ensures var om' := TurnedDown(om, i);
            && om'.slots == om.slots[i := om.slots[i].(state := Rejected)]
            && om'.nextCid == om.nextCid && om'.openOrders == LiveCount(om'.slots) && LogOk(om')
  {
    MoveKeepsLog(om, i, Rejected);
  }

  lemma AckEffect(om: Om, i: int, oid: int)
    requires Index(om, i) && LogOk(om) && om.slots[i].state.Submitted?
    requires om.slots[i].cid < om.nextCid && om.slots[BID].cid != om.slots[ASK].cid
    ensures var om' := AckReceived(om, i, oid);
            && om'.slots == om.slots[i := om.slots[i].(oid := oid, state := Acknowledged)]
            && om'.nextCid == om.nextCid && om'.openOrders == LiveCount(om'.slots) && LogOk(om')
  {
    var om1 := WithSlot(om, i, om.slots[i].(oid := oid));
    assert LogOk(om1);
    MoveKeepsLog(om1, i, Acknowledged);
  }

  /** A fill on a placed slot: full, or partial. */
  lemma FillEffect(om: Om, i: int, qty: real)
    requires Index(om, i) && LogOk(om) && Placed(om.slots[i]) && om.openOrders == LiveCount(om.slots)
    requires om.slots[i].cid < om.nextCid && om.slots[BID].cid != om.slots[ASK].cid
    ensures var om', s := FilledIn(om, i, qty), om.slots[i];
            && om'.slots == om.slots[i := s.(executed := s.executed + qty,
                                             active := !IsFull(s.executed + qty, s.qty),
                                             state := if IsFull(s.executed + qty, s.qty) then Filled
                                                      else PartiallyFilled)]
            && om'.nextCid == om.nextCid && om'.openOrders == LiveCount(om'.slots) && LogOk(om')
  {
    var s := om.slots[i];
    var om1 := WithSlot(om, i, s.(executed := s.executed + qty));
    assert LogOk(om1);
    if IsFull(s.executed + qty, s.qty) {
      MoveKeepsLog(om1, i, Filled);
      hide IsFull, LiveCount;
    } else {
      LiveCountTwo(om.slots);
      if s.state.Acknowledged? {
        MoveKeepsLog(om1, i, PartiallyFilled);
        LiveCountTwo(Transitioned(om1, i, PartiallyFilled).slots);
        hide IsFull, LiveCount, LogOk;
      } else {
        assert om1.slots[i] == s.(executed := s.executed + qty, state := PartiallyFilled);
        LiveCountTwo(om1.slots);
        hide IsFull, LiveCount, LogOk;
      }
    }
  }

  lemma WiderIds(c: Config, w: World, n: nat)
    requires w.om.nextCid <= n && LogOk(w.om) && ExOk(c, w.ex, w.om.nextCid)
    ensures LogOk(w.om.(nextCid := n)) && ExOk(c, w.ex, n)
  {}

  lemma SweepSlotStep(c: Config, w: World, skip: bool)
    requires Inv(c, w) && w.holder.Sweep? && w.holder.i < 2
    ensures Inv(c, AfterSweepSlot(w, skip))
  {
    hide PipelineOk, LiveCount, LogOk, ExOk;
  }

  lemma SweepFlattenStep(c: Config, w: World, ordered: bool, delta: real)
    requires Inv(c, w) && w.holder.Sweep? && w.holder.i == 2 && (delta != 0.0 ==> ordered)
    ensures Inv(c, AfterSweepFlatten(w, ordered, delta))
  {
    WiderIds(c, w, w.om.nextCid + 1);
    hide PipelineOk, LiveCount, LogOk, ExOk;
  }

  lemma KeepOrCancelStep(c: Config, w: World)
    requires Inv(c, w) && w.holder.Side?
    ensures Inv(c, NextSide(w, w.holder.i, w.holder.q))
    ensures Placed(w.om.slots[w.holder.i]) ==> Inv(c, w.(holder := SideCancel(w.holder.i, w.holder.q, 0)))
  {
    hide PipelineOk, LiveCount, LogOk, ExOk;
  }

  lemma BegunEffect(c: Config, w: World, nowNs: int)
    requires Inv(c, w) && w.holder.Side?
    requires Begun(w.om, w.holder.i, Price(w.holder.q, w.holder.i), c.thresh).1.PlaceNow?
    ensures var i, q := w.holder.i, w.holder.q;
            var om := Begun(w.om, i, Price(q, i), c.thresh).0;
            var om' := Prepared(om, i, Price(q, i), q.qty, nowNs);
            && LogOk(om') && om'.nextCid == w.om.nextCid + 1 && ExOk(c, w.ex, om'.nextCid)
            && om'.slots[1 - i] == w.om.slots[1 - i]
            && om'.slots[i].active && om'.slots[i].cid == w.om.nextCid && om'.slots[i].state.Submitted?
            && om'.slots[i].executed == 0.0 && om'.slots[i].qty == q.qty && om'.slots[i].side == SideOf(i)
  {
    hide NoOrphan, LostOk, HaltOk, CountOk, PipelineOk, LagOk;
    var i, q := w.holder.i, w.holder.q;
    var om := Begun(w.om, i, Price(q, i), c.thresh).0;
    WiderIds(c, w, om.nextCid + 1);
    assert LogOk(om);
    PrepareKeepsLog(om, i, Price(q, i), q.qty, nowNs);
    hide LogOk, ExOk;
  }

  /** Filling in a slot that holds no live order. */
  lemma PlaceNowStep(c: Config, w: World, om: Om, i: int)
    requires Inv(c, w) && w.holder.Side? && w.holder.i == i && !Placed(w.om.slots[i])
    requires LogOk(om) && om.nextCid == w.om.nextCid + 1 && ExOk(c, w.ex, om.nextCid)
    requires om.slots[1 - i] == w.om.slots[1 - i]
    requires om.slots[i].active && om.slots[i].cid == w.om.nextCid && om.slots[i].state.Submitted?
    requires om.slots[i].executed == 0.0 && om.slots[i].qty == w.holder.q.qty && om.slots[i].side == SideOf(i)
    ensures Inv(c, w.(om := om, holder := SideCheck(i, w.holder.q)))
  {
    assert w.om.nextCid !in w.ex;
    hide PipelineOk, LiveCount, LogOk, ExOk;
  }

  lemma RequotePlaces(c: Config, w: World, nowNs: int)
    requires Inv(c, w) && w.holder.Side?
    requires Begun(w.om, w.holder.i, Price(w.holder.q, w.holder.i), c.thresh).1.PlaceNow?
    ensures Inv(c, AfterRequote(c, w, nowNs))
  {
    var i, q := w.holder.i, w.holder.q;
    var (om, d) := Begun(w.om, i, Price(q, i), c.thresh);
    assert Shape(w);
    BegunEffect(c, w, nowNs);
    assert !Placed(w.om.slots[i]);
    hide Prepared, Inv, Begun, LogOk, ExOk;
    PlaceNowStep(c, w, Prepared(om, i, Price(q, i), q.qty, nowNs), i);
  }

  lemma RequoteStep(c: Config, w: World, nowNs: int)
    requires Inv(c, w) && w.holder.Side?
    ensures Inv(c, AfterRequote(c, w, nowNs))
  {
    assert Shape(w);
    KeepOrCancelStep(c, w);
    if Begun(w.om, w.holder.i, Price(w.holder.q, w.holder.i), c.thresh).1.PlaceNow? {
      RequotePlaces(c, w, nowNs);
      hide AfterRequote, Inv, Begun;
    } else {
      assert Begun(w.om, w.holder.i, Price(w.holder.q, w.holder.i), c.thresh).1.CancelFirst? ==>
        Placed(w.om.slots[w.holder.i]);
      hide Inv, Prepared;
    }
  }

  lemma CloseKeepsEx(c: Config, ex: map<int, ExOrder>, nextCid: nat, cid: int)
    requires ExOk(c, ex, nextCid)
    ensures ExOk(c, Closed(ex, cid), nextCid)
  {}

  function RetryHolder(h: Holder): Holder
    requires h.SideCancel? || h.SweepCancel?
  {
    if h.SideCancel? then SideCancel(h.i, h.q, h.tries + 1) else SweepCancel(h.i, h.kind, h.tries + 1)
  }

  lemma RetriedReplyIs(w: World, answer: CancelAck, stillOpen: bool)
    requires (w.holder.SideCancel? || w.holder.SweepCancel?) && Index(w.om, w.holder.i) && |w.lost| == 2
    requires !Gone(answer) && w.holder.tries + 1 < MAX_CANCEL_ATTEMPTS
    ensures AfterCancelReply(w, answer, stillOpen) ==
            w.(ex := if stillOpen then w.ex else Closed(w.ex, w.om.slots[w.holder.i].cid),
               holder := RetryHolder(w.holder))
  {}

  /** The attempt failed; the order may have gone all the same. */
  lemma CancelRetryStep(c: Config, w: World, h: Holder, ex: map<int, ExOrder>)
    requires Inv(c, w) && (w.holder.SideCancel? || w.holder.SweepCancel?)
    requires w.holder.tries + 1 < MAX_CANCEL_ATTEMPTS && h == RetryHolder(w.holder)
    requires ExOk(c, ex, w.om.nextCid) && (ex == w.ex || ex == Closed(w.ex, w.om.slots[w.holder.i].cid))
    ensures Inv(c, w.(ex := ex, holder := h))
  {
    hide PipelineOk, LiveCount, LogOk, ExOk;
  }

  lemma RetriedReply(c: Config, w: World, answer: CancelAck, stillOpen: bool)
    requires Inv(c, w) && (w.holder.SideCancel? || w.holder.SweepCancel?)
    requires !Gone(answer) && w.holder.tries + 1 < MAX_CANCEL_ATTEMPTS
    ensures Inv(c, AfterCancelReply(w, answer, stillOpen))
  {
    assert Shape(w);
    CloseKeepsEx(c, w.ex, w.om.nextCid, w.om.slots[w.holder.i].cid);
    hide Inv, ExOk, Shape, Closed, AfterCancelReply;
    RetriedReplyIs(w, answer, stillOpen);
    CancelRetryStep(c, w, RetryHolder(w.holder), if stillOpen then w.ex else Closed(w.ex, w.om.slots[w.holder.i].cid));
  }

  lemma CancelEffects(c: Config, w: World)
    requires Inv(c, w) && (w.holder.SideCancel? || w.holder.SweepCancel?)
    ensures ExOk(c, Closed(w.ex, w.om.slots[w.holder.i].cid), w.om.nextCid)
    ensures var i, om := w.holder.i, CancelConfirmed(w.om, w.holder.i);
            && om.slots == w.om.slots[i := w.om.slots[i].(state := Canceled, active := false)]
            && om.nextCid == w.om.nextCid && om.openOrders == LiveCount(om.slots) && LogOk(om)
    ensures var i, om := w.holder.i, CancelAbandoned(w.om, w.holder.i);
            && om.slots == w.om.slots[i := w.om.slots[i].(active := false)]
            && om.nextCid == w.om.nextCid && om.openOrders == LiveCount(om.slots) && LogOk(om)
  {
    hide NoOrphan, LostOk, HaltOk, CountOk, PipelineOk, LagOk, LogOk, LiveCount;
    CloseKeepsEx(c, w.ex, w.om.nextCid, w.om.slots[w.holder.i].cid);
    hide ExOk;
    ConfirmEffect(w.om, w.holder.i);
    AbandonEffect(w.om, w.holder.i);
  }

  lemma CancelGoneStep(c: Config, w: World, om: Om)
    requires Inv(c, w) && (w.holder.SideCancel? || w.holder.SweepCancel?)
    requires om.slots == w.om.slots[w.holder.i := w.om.slots[w.holder.i].(state := Canceled, active := false)]
    requires om.nextCid == w.om.nextCid && om.openOrders == LiveCount(om.slots) && LogOk(om)
    requires ExOk(c, Closed(w.ex, w.om.slots[w.holder.i].cid), w.om.nextCid)
    ensures var w' := w.(om := om, ex := Closed(w.ex, w.om.slots[w.holder.i].cid));
            && (w.holder.SideCancel? ==> Inv(c, w'.(holder := Side(w.holder.i, w.holder.q))))
            && (w.holder.SweepCancel? ==> Inv(c, w'.(holder := Sweep(w.holder.i + 1, w.holder.kind))))
  {
    hide PipelineOk, LiveCount, LogOk, ExOk;
  }

  lemma ConfirmedReply(c: Config, w: World, answer: CancelAck, stillOpen: bool)
    requires Inv(c, w) && (w.holder.SideCancel? || w.holder.SweepCancel?) && Gone(answer)
    ensures Inv(c, AfterCancelReply(w, answer, stillOpen))
  {
    assert Shape(w);
    hide Inv, CancelConfirmed;
    CancelEffects(c, w);
    CancelGoneStep(c, w, CancelConfirmed(w.om, w.holder.i));
  }

  /** The order given up is the slot's, and stays accounted for as lost. */
  lemma LostKeepsOwnership(c: Config, w: World, ex: map<int, ExOrder>)
    requires Inv(c, w) && (w.holder.SideCancel? || w.holder.SweepCancel?) && NO_CID !in w.ex
    requires ex == w.ex || ex == Closed(w.ex, w.om.slots[w.holder.i].cid)
    ensures var i, slots := w.holder.i, w.om.slots;
            forall h: Holder :: !h.SideAck? ==>
              NoOrphan(slots[i := slots[i].(active := false)], h, ex, w.lost[i := slots[i].cid])
  {
    assert w.lost[w.holder.i] == NO_CID;
    hide PipelineOk, LiveCount, LogOk, ExOk, LagOk, CountOk, HaltOk;
  }

  /** Only a checked order that is about to be sent adds to what the lag must cover. */
  lemma LagWithoutSend(c: Config, h: Holder, h': Holder, ex: map<int, ExOrder>, ex': map<int, ExOrder>, cid: int,
                       position: real, lag: seq<real>)
    requires LagOk(c, h, ex, position, lag) && !h'.SideSend? && (ex' == ex || ex' == Closed(ex, cid))
    ensures LagOk(c, h', ex', position, lag)
  {
    hide WithinLag;
  }

  lemma SideLostSlots(c: Config, w: World, om: Om, ex: map<int, ExOrder>)
    requires Inv(c, w) && w.holder.SideCancel?
    requires om.slots == w.om.slots[w.holder.i := w.om.slots[w.holder.i].(active := false)]
    requires om.nextCid == w.om.nextCid && om.openOrders == LiveCount(om.slots) && LogOk(om)
    requires ExOk(c, ex, w.om.nextCid) && (ex == w.ex || ex == Closed(w.ex, w.om.slots[w.holder.i].cid))
    ensures var i := w.holder.i;
            var w' := w.(om := om, ex := ex, halted := true, lost := w.lost[i := w.om.slots[i].cid]);
            var w'' := NextSide(w', i, w.holder.q);
            && Shape(w'') && SlotsOk(w''.om, w''.holder, w''.ex)
            && LostOk(w''.om.slots, w''.holder, w''.lost, w''.halted) && HaltOk(w'') && CountOk(w''.om, w''.holder)
  {
    hide PipelineOk, LiveCount, LogOk, ExOk, NoOrphan, LagOk;
  }

  lemma SideLostStep(c: Config, w: World, om: Om, ex: map<int, ExOrder>)
    requires Inv(c, w) && w.holder.SideCancel?
    requires om.slots == w.om.slots[w.holder.i := w.om.slots[w.holder.i].(active := false)]
    requires om.nextCid == w.om.nextCid && om.openOrders == LiveCount(om.slots) && LogOk(om)
    requires ExOk(c, ex, w.om.nextCid) && (ex == w.ex || ex == Closed(w.ex, w.om.slots[w.holder.i].cid))
    ensures var i := w.holder.i;
            var w' := w.(om := om, ex := ex, halted := true, lost := w.lost[i := w.om.slots[i].cid]);
            Inv(c, NextSide(w', i, w.holder.q))
  {
    assert NO_CID !in w.ex;
    LostKeepsOwnership(c, w, ex);
    SideLostSlots(c, w, om, ex);
    hide PipelineOk, LiveCount, LogOk, ExOk, NoOrphan, LagOk, SlotsOk, LostOk, HaltOk, CountOk;
    var i, h := w.holder.i, if w.holder.i == BID then Side(ASK, w.holder.q) else Free;
    LagWithoutSend(c, w.holder, h, w.ex, ex, w.om.slots[i].cid, w.position, w.lag);
  }

  lemma SweepLostStep(c: Config, w: World, om: Om, ex: map<int, ExOrder>)
    requires Inv(c, w) && w.holder.SweepCancel?
    requires om.slots == w.om.slots[w.holder.i := w.om.slots[w.holder.i].(active := false)]
    requires om.nextCid == w.om.nextCid && om.openOrders == LiveCount(om.slots) && LogOk(om)
    requires ExOk(c, ex, w.om.nextCid) && (ex == w.ex || ex == Closed(w.ex, w.om.slots[w.holder.i].cid))
    ensures var i := w.holder.i;
            var w' := w.(om := om, ex := ex, halted := true, lost := w.lost[i := w.om.slots[i].cid]);
            Inv(c, w'.(holder := Sweep(i + 1, w.holder.kind)))
  {
    assert NO_CID !in w.ex;
    LostKeepsOwnership(c, w, ex);
    hide PipelineOk, LiveCount, LogOk, ExOk, NoOrphan, WithinLag;
  }

  lemma LostReply(c: Config, w: World, answer: CancelAck, stillOpen: bool)
    requires Inv(c, w) && (w.holder.SideCancel? || w.holder.SweepCancel?)
    requires !Gone(answer) && w.holder.tries + 1 >= MAX_CANCEL_ATTEMPTS
    ensures Inv(c, AfterCancelReply(w, answer, stillOpen))
  {
    assert Shape(w);
    hide Inv, CancelAbandoned;
    var i := w.holder.i;
    CancelEffects(c, w);
    var ex := if stillOpen then w.ex else Closed(w.ex, w.om.slots[i].cid);
    if w.holder.SideCancel? {
      SideLostStep(c, w, CancelAbandoned(w.om, i), ex);
    } else {
      SweepLostStep(c, w, CancelAbandoned(w.om, i), ex);
    }
  }

  lemma CancelReplyStep(c: Config, w: World, answer: CancelAck, stillOpen: bool)
    requires Inv(c, w) && (w.holder.SideCancel? || w.holder.SweepCancel?)
    ensures Inv(c, AfterCancelReply(w, answer, stillOpen))
  {
    assert Shape(w);
    hide Inv, AfterCancelReply;
    if Gone(answer) {
      ConfirmedReply(c, w, answer, stillOpen);
    } else if w.holder.tries + 1 < MAX_CANCEL_ATTEMPTS {
      RetriedReply(c, w, answer, stillOpen);
    } else {
      LostReply(c, w, answer, stillOpen);
    }
  }

  lemma TurnDownSlots(c: Config, w: World, om: Om)
    requires Inv(c, w) && w.holder.SideCheck?
    requires om.slots == w.om.slots[w.holder.i := w.om.slots[w.holder.i].(state := Rejected)]
    requires om.nextCid == w.om.nextCid && om.openOrders == LiveCount(om.slots)
    ensures var w' := NextSide(w.(om := om), w.holder.i, w.holder.q);
            && Shape(w') && SlotsOk(w'.om, w'.holder, w'.ex)
            && LostOk(w'.om.slots, w'.holder, w'.lost, w'.halted) && HaltOk(w') && CountOk(w'.om, w'.holder)
  {
    hide PipelineOk, ExOk, LogOk, LiveCount, LagOk, NoOrphan;
  }

  lemma TurnDownStep(c: Config, w: World)
    requires Inv(c, w) && w.holder.SideCheck?
    ensures Inv(c, NextSide(w.(om := TurnedDown(w.om, w.holder.i)), w.holder.i, w.holder.q))
  {
    TurnDownEffect(w.om, w.holder.i);
    hide PipelineOk, ExOk, LogOk, LiveCount, WithinLag, TurnedDown;
    TurnDownSlots(c, w, TurnedDown(w.om, w.holder.i));
    hide SlotsOk, LostOk, HaltOk, CountOk;
  }

  /** The order stays within the limit of the local inventory, hence within the limit plus
      the lag of the true position. */
  lemma ApproveStep(c: Config, w: World)
    requires Inv(c, w) && w.holder.SideCheck? && !w.halted
    requires Abs(w.tracker.inv + SignedQty(w.holder.i, w.holder.q.qty)) <= c.maxPosition
    ensures var i := w.holder.i;
            Inv(c, w.(holder := SideSend(i, w.holder.q,
              if i == BID then w.position - w.tracker.inv else w.tracker.inv - w.position)))
  {
    hide PipelineOk, ExOk, LogOk, LiveCount;
  }

  lemma CheckStep(c: Config, w: World, approved: bool)
    requires Inv(c, w) && w.holder.SideCheck?
    requires approved ==> Abs(w.tracker.inv + SignedQty(w.holder.i, w.holder.q.qty)) <= c.maxPosition
    ensures Inv(c, AfterCheck(w, approved))
  {
    assert Shape(w);
    hide Inv;
    if w.halted || !approved {
      TurnDownStep(c, w);
    } else {
      ApproveStep(c, w);
    }
  }

  lemma SendStep(c: Config, w: World, accepted: bool)
    requires Sane(c) && Inv(c, w) && w.holder.SideSend?
    requires accepted ==> w.holder.q.qty > 0.0 && OnGrid(w.holder.q.qty, c.lot)
    ensures Inv(c, AfterSend(w, accepted))
  {
    hide PipelineOk, LogOk, LiveCount;
    GridZero(c.lot);
  }

  lemma AckEffects(c: Config, w: World, oid: int)
    requires Inv(c, w) && w.holder.SideAck?
    ensures var i, om := w.holder.i, AckReceived(w.om, w.holder.i, oid);
            && om.slots == w.om.slots[i := w.om.slots[i].(oid := oid, state := Acknowledged)]
            && om.nextCid == w.om.nextCid && om.openOrders == LiveCount(om.slots) && LogOk(om)
    ensures var i, om := w.holder.i, TurnedDown(w.om, w.holder.i);
            && om.slots == w.om.slots[i := w.om.slots[i].(state := Rejected)]
            && om.nextCid == w.om.nextCid && om.openOrders == LiveCount(om.slots) && LogOk(om)
  {
    hide ExOk, NoOrphan, LostOk, HaltOk, CountOk, PipelineOk, LagOk, LogOk, LiveCount;
    AckEffect(w.om, w.holder.i, oid);
    TurnDownEffect(w.om, w.holder.i);
  }

  lemma AckedOrderIsPositive(c: Config, w: World)
    requires Inv(c, w) && w.holder.SideAck? && w.holder.accepted
    ensures w.om.slots[w.holder.i].qty > 0.0
  {
    assert w.om.slots[w.holder.i].cid in w.ex;
  }

  /** The slot once the answer is read, and the other slot, whoever is served next. */
  lemma AckedSlots(s: Slot, t: Slot, nextCid: nat, h: Holder, h': Holder, ex: map<int, ExOrder>, oid: int)
    requires h.SideAck? && 0 <= h.i < 2 && (h.accepted ==> s.qty > 0.0) && (h'.Side? || h'.Free?)
    requires SlotOk(s, h.i, nextCid, h, ex) && SlotOk(t, 1 - h.i, nextCid, h, ex)
    ensures SlotOk(if h.accepted then s.(oid := oid, state := Acknowledged) else s.(state := Rejected),
                   h.i, nextCid, h', ex)
    ensures SlotOk(t, 1 - h.i, nextCid, h', ex)
  {}

  predicate AnswerRead(w: World, om: Om, oid: int)
    requires w.holder.SideAck? && Index(w.om, w.holder.i)
  {
    && om.slots == w.om.slots[w.holder.i :=
         if w.holder.accepted then w.om.slots[w.holder.i].(oid := oid, state := Acknowledged)
         else w.om.slots[w.holder.i].(state := Rejected)]
    && om.nextCid == w.om.nextCid && om.openOrders == LiveCount(om.slots)
  }

  lemma AckReadSlots(c: Config, w: World, om: Om, oid: int)
    requires Inv(c, w) && w.holder.SideAck? && AnswerRead(w, om, oid)
    ensures var w' := NextSide(w.(om := om), w.holder.i, w.holder.q);
            && Shape(w') && SlotsOk(w'.om, w'.holder, w'.ex)
            && LostOk(w'.om.slots, w'.holder, w'.lost, w'.halted) && HaltOk(w') && CountOk(w'.om, w'.holder)
  {
    if w.holder.accepted {
      AckedOrderIsPositive(c, w);
    }
    hide PipelineOk, ExOk, LogOk, LiveCount, LagOk, NoOrphan, SlotOk;
    var i, w' := w.holder.i, NextSide(w.(om := om), w.holder.i, w.holder.q);
    AckedSlots(w.om.slots[i], w.om.slots[1 - i], w.om.nextCid, w.holder, w'.holder, w.ex, oid);
  }

  lemma AckReadStep(c: Config, w: World, om: Om, oid: int)
    requires Inv(c, w) && w.holder.SideAck? && AnswerRead(w, om, oid) && LogOk(om)
    ensures Inv(c, NextSide(w.(om := om), w.holder.i, w.holder.q))
  {
    AckReadSlots(c, w, om, oid);
    hide PipelineOk, ExOk, LogOk, LiveCount, LagOk, SlotsOk, LostOk, HaltOk, CountOk;
    var h := if w.holder.i == BID then Side(ASK, w.holder.q) else Free;
    LagWithoutSend(c, w.holder, h, w.ex, w.ex, NO_CID, w.position, w.lag);
  }

  lemma AckStep(c: Config, w: World, oid: int)
    requires Inv(c, w) && w.holder.SideAck?
    ensures Inv(c, AfterAck(w, oid))
  {
    AckEffects(c, w, oid);
    AckReadStep(c, w, if w.holder.accepted then AckReceived(w.om, w.holder.i, oid) else TurnedDown(w.om, w.holder.i),
      oid);
    hide TurnedDown, AckReceived, Inv;
  }

  lemma ExDropStep(c: Config, w: World, cid: int)
    requires Inv(c, w) && cid in w.ex
    ensures Inv(c, w.(ex := Closed(w.ex, cid)))
  {
    CloseKeepsEx(c, w.ex, w.om.nextCid, cid);
    hide PipelineOk, LogOk, LiveCount, ExOk;
  }

  lemma ExFillKeepsEx(c: Config, w: World, cid: int, qty: real)
    requires ExOk(c, w.ex, w.om.nextCid) && cid in w.ex && w.ex[cid].open
    requires OnGrid(qty, c.lot) && 0.0 < qty <= w.ex[cid].qty - w.ex[cid].executed
    ensures ExOk(c, AfterExFill(w, cid, qty).ex, w.om.nextCid)
    ensures ExOrderOk(c, w.ex[cid])
  {
    GridSum(w.ex[cid].executed, qty, c.lot);
    assert ExOrderOk(c, AfterExFill(w, cid, qty).ex[cid]);
  }

  lemma ExFillKeepsLag(c: Config, w: World, cid: int, qty: real)
    requires LagOk(c, w.holder, w.ex, w.position, w.lag) && cid in w.ex && w.ex[cid].open
    requires 0.0 < qty <= w.ex[cid].qty - w.ex[cid].executed && (w.ex[cid].side == 1 || w.ex[cid].side == -1)
    requires forall d :: d in w.ex && w.ex[d].open && SlotOfSide(w.ex[d].side) == SlotOfSide(w.ex[cid].side) ==>
              d == cid
    requires w.holder.SideSend? ==> SideOf(w.holder.i) != w.ex[cid].side
    ensures var w' := AfterExFill(w, cid, qty); LagOk(c, w'.holder, w'.ex, w'.position, w'.lag)
  {
    var o, w' := w.ex[cid], AfterExFill(w, cid, qty);
    assert WithinLag(c, w.position, o.side, o.qty - o.executed, w.lag[SlotOfSide(o.side)]);
    forall d | d in w'.ex && w'.ex[d].open
      ensures var o' := w'.ex[d];
              WithinLag(c, w'.position, o'.side, o'.qty - o'.executed, w'.lag[SlotOfSide(o'.side)])
    {
      assert d in w.ex && w.ex[d].open && w.ex[d].side == w'.ex[d].side;
      assert WithinLag(c, w.position, w.ex[d].side, w.ex[d].qty - w.ex[d].executed, w.lag[SlotOfSide(w.ex[d].side)]);
    }
  }

  /** The order is the only one of its side, and no other of that side is about to be sent. */
  lemma OpenIsAlone(c: Config, w: World, cid: int)
    requires Inv(c, w) && cid in w.ex && w.ex[cid].open
    ensures forall d :: d in w.ex && w.ex[d].open && SlotOfSide(w.ex[d].side) == SlotOfSide(w.ex[cid].side) ==>
              d == cid
    ensures w.holder.SideSend? ==> SideOf(w.holder.i) != w.ex[cid].side
  {
    assert ExOrderOk(c, w.ex[cid]) && NO_CID !in w.ex;
    hide PipelineOk, LogOk, LiveCount, LagOk, CountOk, HaltOk, ExOrderOk;
  }

  lemma ExFillStep(c: Config, w: World, cid: int, qty: real)
    requires Sane(c) && Inv(c, w) && cid in w.ex && w.ex[cid].open
    requires OnGrid(qty, c.lot) && 0.0 < qty <= w.ex[cid].qty - w.ex[cid].executed
    ensures Inv(c, AfterExFill(w, cid, qty))
  {
    ExFillKeepsEx(c, w, cid, qty);
    OpenIsAlone(c, w, cid);
    hide PipelineOk, LogOk, LiveCount, LagOk, ExOk;
    ExFillKeepsLag(c, w, cid, qty);
    hide ExOrderOk;
  }

  /** Taking a fill into the ring keeps the pipeline, whatever it does to the slots. */
  lemma InjectKeepsPipeline(w: World, f: Fill, bytes: nat)
    requires |w.om.slots| == 2 && PipelineOk(w.inFlight, w.ring, w.accepted, w.tracker)
    ensures var w' := AfterInject(w, f, bytes); PipelineOk(w'.inFlight, w'.ring, w'.accepted, w'.tracker)
  {
    hide FillNoted;
    var queued := Queued(w.inFlight, w.ring);
    var n := |w.accepted| - |queued|;
    assert (w.accepted + [f])[..n] == w.accepted[..n];
    assert (w.accepted + [f])[n..] == w.accepted[n..] + [f];
    assert Queued(w.inFlight, w.ring + [f]) == queued + [f];
  }

  lemma ReportedSlots(c: Config, w: World, f: Fill, bytes: nat)
    requires |w.om.slots| == 2 && f.cid in w.ex
    ensures var w', i := AfterReport(w, f, bytes), SlotFor(w.om, f.cid);
            && w' == w.(ex := w.ex[f.cid := w.ex[f.cid].(reported := w.ex[f.cid].reported + f.qty)],
                        om := w'.om, ring := w'.ring, accepted := w'.accepted)
            && w'.om == if i < 2 then FilledIn(w.om, i, f.qty) else w.om
  {
    hide FilledIn;
  }

  lemma RingOnly(c: Config, w: World, w': World)
    requires Inv(c, w) && w' == w.(ring := w'.ring, accepted := w'.accepted)
    requires PipelineOk(w'.inFlight, w'.ring, w'.accepted, w'.tracker)
    ensures Inv(c, w')
  {
    hide PipelineOk, ExOk, LogOk, LiveCount, SlotsOk, NoOrphan, LostOk, LagOk;
  }

  lemma ReportKeepsEx(c: Config, w: World, f: Fill)
    requires Sane(c) && ExOk(c, w.ex, w.om.nextCid) && f.cid in w.ex && OnGrid(f.qty, c.lot)
    requires 0.0 < f.qty <= w.ex[f.cid].executed - w.ex[f.cid].reported
    ensures var o := w.ex[f.cid];
            && ExOk(c, w.ex[f.cid := o.(reported := o.reported + f.qty)], w.om.nextCid)
            && (IsFull(o.reported + f.qty, o.qty) <==> o.reported + f.qty >= o.qty)
  {
    var o := w.ex[f.cid];
    GridSum(o.reported, f.qty, c.lot);
    GridSum(o.reported + f.qty, o.qty, c.lot);
    GridGap(o.reported + f.qty - o.qty, c.lot);
    assert ExOrderOk(c, o.(reported := o.reported + f.qty));
  }

  lemma ReportKeepsSlots(c: Config, w: World, f: Fill)
    requires Inv(c, w) && w.holder.Free? && f.cid in w.ex && SlotFor(w.om, f.cid) < 2 && LogOk(w.om)
    requires 0.0 < f.qty <= w.ex[f.cid].executed - w.ex[f.cid].reported
    requires var o := w.ex[f.cid];
             ExOrderOk(c, o) && (IsFull(o.reported + f.qty, o.qty) <==> o.reported + f.qty >= o.qty)
    ensures SlotsOk(FilledIn(w.om, SlotFor(w.om, f.cid), f.qty), w.holder,
              w.ex[f.cid := w.ex[f.cid].(reported := w.ex[f.cid].reported + f.qty)])
  {
    hide OnGrid, PipelineOk, ExOk, LogOk, LiveCount, FilledIn, IsFull, LagOk, HaltOk, NoOrphan, LostOk;
    FillEffect(w.om, SlotFor(w.om, f.cid), f.qty);
  }

  lemma ReportKeepsOwners(c: Config, w: World, f: Fill)
    requires Inv(c, w) && w.holder.Free? && f.cid in w.ex && SlotFor(w.om, f.cid) < 2 && LogOk(w.om)
    requires 0.0 < f.qty <= w.ex[f.cid].executed - w.ex[f.cid].reported
    requires var o := w.ex[f.cid];
             ExOrderOk(c, o) && (IsFull(o.reported + f.qty, o.qty) <==> o.reported + f.qty >= o.qty)
    ensures NoOrphan(FilledIn(w.om, SlotFor(w.om, f.cid), f.qty).slots, w.holder,
              w.ex[f.cid := w.ex[f.cid].(reported := w.ex[f.cid].reported + f.qty)], w.lost)
  {
    hide OnGrid, PipelineOk, ExOk, LogOk, LiveCount, FilledIn, IsFull, LagOk, HaltOk;
    FillEffect(w.om, SlotFor(w.om, f.cid), f.qty);
  }

  lemma ReportKeepsLag(c: Config, w: World, f: Fill)
    requires f.cid in w.ex && LagOk(c, w.holder, w.ex, w.position, w.lag)
    ensures LagOk(c, w.holder, w.ex[f.cid := w.ex[f.cid].(reported := w.ex[f.cid].reported + f.qty)],
                  w.position, w.lag)
  {}

  lemma ReportedSlotStep(c: Config, w: World, f: Fill)
    requires Sane(c) && Inv(c, w) && w.holder.Free? && f.cid in w.ex && SlotFor(w.om, f.cid) < 2
    requires 0.0 < f.qty <= w.ex[f.cid].executed - w.ex[f.cid].reported
    requires var o := w.ex[f.cid];
             && ExOk(c, w.ex[f.cid := o.(reported := o.reported + f.qty)], w.om.nextCid)
             && (IsFull(o.reported + f.qty, o.qty) <==> o.reported + f.qty >= o.qty)
    ensures Inv(c, w.(om := FilledIn(w.om, SlotFor(w.om, f.cid), f.qty),
                      ex := w.ex[f.cid := w.ex[f.cid].(reported := w.ex[f.cid].reported + f.qty)]))
  {
    assert ExOrderOk(c, w.ex[f.cid]);
    hide OnGrid, PipelineOk, ExOk, LogOk, LiveCount, FilledIn, IsFull;
    FillEffect(w.om, SlotFor(w.om, f.cid), f.qty);
    ReportKeepsLag(c, w, f);
    ReportKeepsOwners(c, w, f);
    ReportKeepsSlots(c, w, f);
    hide LagOk, NoOrphan, SlotsOk;
  }

  lemma UnownedReportStep(c: Config, w: World, f: Fill)
    requires Inv(c, w) && w.holder.Free? && f.cid in w.ex && SlotFor(w.om, f.cid) == 2
    requires ExOk(c, w.ex[f.cid := w.ex[f.cid].(reported := w.ex[f.cid].reported + f.qty)], w.om.nextCid)
    ensures Inv(c, w.(ex := w.ex[f.cid := w.ex[f.cid].(reported := w.ex[f.cid].reported + f.qty)]))
  {
    hide PipelineOk, ExOk, LogOk, LiveCount;
  }

  /** The exchange reports a fill of one of its orders. */
  lemma ReportStep(c: Config, w: World, f: Fill, bytes: nat)
    requires Sane(c) && Inv(c, w) && w.holder.Free? && f.cid in w.ex && OnGrid(f.qty, c.lot)
    requires 0.0 < f.qty <= w.ex[f.cid].executed - w.ex[f.cid].reported
    ensures Inv(c, AfterReport(w, f, bytes))
  {
    hide SlotsOk, ExOk, NoOrphan, LostOk, HaltOk, CountOk, LogOk, PipelineOk, LagOk, IsFull, OnGrid, FilledIn,
      AfterInject;
    var o := w.ex[f.cid];
    var ex := w.ex[f.cid := o.(reported := o.reported + f.qty)];
    ReportKeepsEx(c, w, f);
    InjectKeepsPipeline(w.(ex := ex), f, bytes);
    ReportedSlots(c, w, f, bytes);
    hide Inv, AfterReport, Shape;
    var w' := AfterReport(w, f, bytes);
    if SlotFor(w.om, f.cid) < 2 {
      ReportedSlotStep(c, w, f);
    } else {
      UnownedReportStep(c, w, f);
    }
    RingOnly(c, w.(om := w'.om, ex := ex), w');
  }

  lemma ForeignFillStep(c: Config, w: World, f: Fill, bytes: nat)
    requires Inv(c, w) && w.holder.Free? && f.cid !in w.ex
    requires f.cid != w.om.slots[BID].cid && f.cid != w.om.slots[ASK].cid
    ensures Inv(c, AfterInject(w, f, bytes))
  {
    InjectKeepsPipeline(w, f, bytes);
    hide PipelineOk, ExOk, LogOk, LiveCount;
  }

  lemma PopStep(c: Config, w: World)
    requires Inv(c, w) && w.inFlight.None? && w.ring != []
    ensures Inv(c, w.(inFlight := Some(w.ring[0]), ring := w.ring[1..]))
  {
    assert Queued(Some(w.ring[0]), w.ring[1..]) == Queued(None, w.ring);
    hide ExOk, LogOk, LiveCount, SlotsOk, NoOrphan, LostOk, LagOk;
  }

  lemma ApplyStep(c: Config, w: World)
    requires Inv(c, w) && w.inFlight.Some?
    ensures Inv(c, w.(tracker := Applied(w.tracker, w.inFlight.value), inFlight := None))
  {
    var n := |w.accepted| - |Queued(w.inFlight, w.ring)|;
    assert w.accepted[n..][0] == w.inFlight.value;
    assert w.accepted[..n + 1][..n] == w.accepted[..n];
    assert w.accepted[n + 1..] == w.accepted[n..][1..] == Queued(None, w.ring);
    hide Applied, ExOk, LogOk, LiveCount, SlotsOk, NoOrphan, LostOk, LagOk;
  }

  /** The steps of whoever holds the lock. */
  predicate IsHeld(step: Step) {
    step.Requote? || step.CancelReply? || step.Check? || step.Send? || step.AckReply? || step.SweepSlot?
    || step.SweepFlatten?
  }

  lemma HeldStepKeepsInv(c: Config, w: World, step: Step)
    requires Sane(c) && Inv(c, w) && Enabled(c, w, step) && IsHeld(step)
    ensures Inv(c, Apply(c, w, step))
  {
    assert Shape(w);
    hide Inv, OnGrid, Abs, AfterRequote, AfterCancelReply, AfterCheck, AfterSend, AfterAck, AfterSweepSlot,
      AfterSweepFlatten;
    match step
    case Requote(nowNs) => RequoteStep(c, w, nowNs);
    case CancelReply(answer, stillOpen) => CancelReplyStep(c, w, answer, stillOpen);
    case Check(approved) => CheckStep(c, w, approved);
    case Send(accepted) => SendStep(c, w, accepted);
    case AckReply(oid) => AckStep(c, w, oid);
    case SweepSlot(skip) => SweepSlotStep(c, w, skip);
    case SweepFlatten(ordered, delta) => SweepFlattenStep(c, w, ordered, delta);
  }

  lemma StepKeepsInv(c: Config, w: World, step: Step)
    requires Sane(c) && Inv(c, w) && Enabled(c, w, step)
    ensures Inv(c, Apply(c, w, step))
  {
    assert Shape(w);
    assert w.om.slots[BID] in w.om.slots && w.om.slots[ASK] in w.om.slots;
    assert w.haltWaiting ==> w.halted;
    hide Inv;
    if IsHeld(step) {
      hide Apply, Enabled;
      HeldStepKeepsInv(c, w, step);
    } else {
      hide OnGrid, Closed, Applied, AfterInject, AfterExFill, AfterReport;
      match step
      case Trip => HaltSteps(c, w);
      case QuoteArrives(q) => LockSteps(c, w);
      case QuoteLocks => LockSteps(c, w);
      case HaltNoticed => HaltSteps(c, w);
      case HaltLocks => LockSteps(c, w);
      case ShutdownLocks => LockSteps(c, w);
      case ExFill(cid, qty) => ExFillStep(c, w, cid, qty);
      case ExDrop(cid) => ExDropStep(c, w, cid);
      case Report(f, bytes) => ReportStep(c, w, f, bytes);
      case ForeignFill(f, bytes) => ForeignFillStep(c, w, f, bytes);
      case PopFill => PopStep(c, w);
      case ApplyFill => ApplyStep(c, w);
    }
  }

  lemma InitialInv(c: Config)
    requires Sane(c)
    ensures Inv(c, INITIAL)
  {
    LiveCountTwo(START.slots);
  }

  // ---- Whole runs ----

  ghost predicate IsRun(c: Config, w: World, steps: seq<Step>)
    decreases |steps|
  {
    steps == [] ||
    (Shape(w) && Enabled(c, w, steps[0]) && IsRun(c, Apply(c, w, steps[0]), steps[1..]))
  }

  ghost function After(c: Config, w: World, steps: seq<Step>): World
    requires IsRun(c, w, steps)
    decreases |steps|
  {
    if steps == [] then w else After(c, Apply(c, w, steps[0]), steps[1..])
  }

  lemma {:induction false} RunKeepsInv(c: Config, w: World, steps: seq<Step>)
    requires Sane(c) && Inv(c, w) && IsRun(c, w, steps)
    ensures Inv(c, After(c, w, steps))
    decreases |steps|
  {
    hide Inv, Apply, Enabled;
    if steps == [] {
    } else {
      StepKeepsInv(c, w, steps[0]);
      RunKeepsInv(c, Apply(c, w, steps[0]), steps[1..]);
    }
  }

  lemma ReachableInv(c: Config, steps: seq<Step>)
    requires Sane(c) && IsRun(c, INITIAL, steps)
    ensures Inv(c, After(c, INITIAL, steps))
  {
    hide Inv, Apply, Enabled;
    InitialInv(c);
    RunKeepsInv(c, INITIAL, steps);
  }

  // ---- Prices ----

  /** The quote that slot `i` follows: the one being handled once its side is done, and
      otherwise the last one handled to the end. */
  function QuoteFor(h: Holder, quoted: Option<Quote>, i: int): Option<Quote> {
    if QuoteHolds(h) && h.i > i then Some(h.q) else quoted
  }

  predicate FollowsQuote(s: Slot, i: int, quote: Option<Quote>, thresh: real) {
    Placed(s) ==> quote.Some? && Abs(s.price - Price(quote.value, i)) <= Max0(thresh)
  }

  /** A slot being placed is at its side of the quote, and what the exchange holds for a slot
      is at the slot's price. */
  predicate SlotPriced(s: Slot, i: int, h: Holder, ex: map<int, ExOrder>, quoted: Option<Quote>, thresh: real) {
    && FollowsQuote(s, i, QuoteFor(h, quoted, i), thresh)
    && (Placing(h, i) ==> s.price == Price(h.q, i))
    && (Placed(s) || Accepting(h, i) ==> s.cid in ex ==> ex[s.cid].price == s.price)
  }

  predicate PricesOk(c: Config, om: Om, h: Holder, ex: map<int, ExOrder>, quoted: Option<Quote>) {
    && |om.slots| == 2
    && SlotPriced(om.slots[BID], BID, h, ex, quoted, c.thresh)
    && SlotPriced(om.slots[ASK], ASK, h, ex, quoted, c.thresh)
  }

  /** The slot is not repriced, and does not become placed. */
  predicate Still(s: Slot, s': Slot) {
    s'.price == s.price && s'.cid == s.cid && (Placed(s') ==> Placed(s))
  }

  predicate Calm(om: Om, om': Om) {
    && |om.slots| == 2 && |om'.slots| == 2
    && Still(om.slots[BID], om'.slots[BID]) && Still(om.slots[ASK], om'.slots[ASK])
  }

  lemma SegmentsAreCalm(om: Om, i: int)
    requires Index(om, i)
    ensures Calm(om, CancelConfirmed(om, i)) && Calm(om, CancelAbandoned(om, i))
    ensures Calm(om, TurnedDown(om, i)) && Calm(om, Deactivated(om, i))
  {}

  lemma FillIsCalm(om: Om, i: int, qty: real)
    requires Index(om, i)
    ensures Calm(om, FilledIn(om, i, qty))
  {
    hide IsFull;
  }

  /** Orders at the exchange keep their price. */
  ghost predicate SamePrices(ex: map<int, ExOrder>, ex': map<int, ExOrder>) {
    forall cid :: cid in ex' ==> cid in ex && ex'[cid].price == ex[cid].price
  }

  lemma CalmKeepsPrices(c: Config, om: Om, om': Om, h: Holder, h': Holder, ex: map<int, ExOrder>,
                        ex': map<int, ExOrder>, quoted: Option<Quote>)
    requires PricesOk(c, om, h, ex, quoted) && Calm(om, om') && SamePrices(ex, ex')
    requires QuoteFor(h', quoted, 0) == QuoteFor(h, quoted, 0) && QuoteFor(h', quoted, 1) == QuoteFor(h, quoted, 1)
    requires forall i :: Placing(h', i) ==> Placing(h, i) && h'.q == h.q && (Accepting(h', i) ==> Accepting(h, i))
    ensures PricesOk(c, om', h', ex', quoted)
  {}

  /** The other slot does not notice that side `i` is done with. */
  lemma OtherSlotPriced(s: Slot, s': Slot, i: int, h: Holder, ex: map<int, ExOrder>, ex': map<int, ExOrder>,
                        quoted: Option<Quote>, thresh: real)
    requires 0 <= i < 2 && QuoteHolds(h) && h.i == i && Still(s, s') && SamePrices(ex, ex')
    requires SlotPriced(s, 1 - i, h, ex, quoted, thresh)
    ensures i == BID ==> SlotPriced(s', ASK, Side(ASK, h.q), ex', quoted, thresh)
    ensures i == ASK ==> SlotPriced(s', BID, Free, ex', Some(h.q), thresh)
  {
    hide Abs, Max0, Placed, Price;
  }

  /** Side `i` is done with, and what it holds is close to its side of the quote. */
  lemma SideDone(c: Config, w: World, om: Om, ex: map<int, ExOrder>, i: int, q: Quote)
    requires PricesOk(c, w.om, w.holder, w.ex, w.quoted) && QuoteHolds(w.holder) && w.holder.i == i && w.holder.q == q
    requires 0 <= i < 2 && |om.slots| == 2 && SamePrices(w.ex, ex)
    requires Still(w.om.slots[1 - i], om.slots[1 - i])
    requires FollowsQuote(om.slots[i], i, Some(q), c.thresh)
    requires Placed(om.slots[i]) && om.slots[i].cid in ex ==> ex[om.slots[i].cid].price == om.slots[i].price
    ensures var w' := NextSide(w.(om := om, ex := ex), i, q); PricesOk(c, w'.om, w'.holder, w'.ex, w'.quoted)
  {
    hide FollowsQuote, Placed, SamePrices, Still;
    var w' := NextSide(w.(om := om, ex := ex), i, q);
    assert SlotPriced(om.slots[i], i, w'.holder, ex, w'.quoted, c.thresh);
    hide SlotPriced;
    OtherSlotPriced(w.om.slots[1 - i], om.slots[1 - i], i, w.holder, w.ex, ex, w.quoted, c.thresh);
  }

  ghost predicate Priced(c: Config, w: World) {
    PricesOk(c, w.om, w.holder, w.ex, w.quoted)
  }

  /** What the opening of a requote does to the slot's price, and what preparing it does. */
  lemma OpeningPrices(om: Om, i: int, price: real, qty: real, thresh: real, nowNs: int)
    requires Index(om, i)
    ensures var (om', d) := Begun(om, i, price, thresh);
            && Calm(om, om')
            && (d.Keep? ==> om' == om && (Placed(om.slots[i]) ==> Abs(om.slots[i].price - price) <= Max0(thresh)))
            && (d.CancelFirst? ==> om' == om)
    ensures var om' := Prepared(om, i, price, qty, nowNs);
            && |om'.slots| == 2 && om'.slots[1 - i] == om.slots[1 - i]
            && om'.slots[i].price == price && !Placed(om'.slots[i])
  {
    SegmentsAreCalm(om, i);
    PreparedSlot(om, i, price, qty, nowNs);
    hide Prepared, Deactivated, Calm;
  }

  /** A slot being placed is at its side of the quote, and holds nothing yet. */
  lemma PlacementStarts(c: Config, w: World, om: Om, i: int, q: Quote)
    requires Priced(c, w) && w.holder.Side? && w.holder.i == i && w.holder.q == q
    requires 0 <= i < 2 && |om.slots| == 2 && Still(w.om.slots[1 - i], om.slots[1 - i])
    requires om.slots[i].price == Price(q, i) && !Placed(om.slots[i])
    ensures Priced(c, w.(om := om, holder := SideCheck(i, q)))
  {
    hide Abs, Max0, Placed, Price;
    var h := SideCheck(i, q);
    assert SlotPriced(om.slots[i], i, h, w.ex, w.quoted, c.thresh);
    assert SlotPriced(om.slots[1 - i], 1 - i, h, w.ex, w.quoted, c.thresh);
  }

  lemma RequoteKeepsPrices(c: Config, w: World, nowNs: int)
    requires Shape(w) && Priced(c, w) && w.holder.Side?
    ensures Priced(c, AfterRequote(c, w, nowNs))
  {
    var i, q := w.holder.i, w.holder.q;
    var (om, d) := Begun(w.om, i, Price(q, i), c.thresh);
    OpeningPrices(w.om, i, Price(q, i), q.qty, c.thresh, nowNs);
    OpeningPrices(om, i, Price(q, i), q.qty, c.thresh, nowNs);
    hide Begun, Prepared, Abs, Max0, Placed, Calm;
    match d {
      case Keep => SideDone(c, w, om, w.ex, i, q);
      case CancelFirst => CalmKeepsPrices(c, w.om, om, w.holder, SideCancel(i, q, 0), w.ex, w.ex, w.quoted);
      case PlaceNow =>
        assert Still(w.om.slots[1 - i], om.slots[1 - i]);
        PlacementStarts(c, w, Prepared(om, i, Price(q, i), q.qty, nowNs), i, q);
    }
  }

  lemma AbandonedIsGone(om: Om, i: int)
    requires Index(om, i)
    ensures !Placed(CancelAbandoned(om, i).slots[i])
  {}

  lemma ClosedKeepsPrices(ex: map<int, ExOrder>, cid: int)
    ensures SamePrices(ex, Closed(ex, cid)) && SamePrices(ex, ex)
  {}

  lemma ConfirmedKeepsPrices(c: Config, w: World, answer: CancelAck, stillOpen: bool)
    requires Shape(w) && Priced(c, w) && (w.holder.SideCancel? || w.holder.SweepCancel?) && Gone(answer)
    ensures Priced(c, AfterCancelReply(w, answer, stillOpen))
  {
    var i := w.holder.i;
    var h := if w.holder.SideCancel? then Side(i, w.holder.q) else Sweep(i + 1, w.holder.kind);
    SegmentsAreCalm(w.om, i);
    ClosedKeepsPrices(w.ex, w.om.slots[i].cid);
    hide CancelConfirmed, Closed, SamePrices, Calm, SlotPriced, Gone;
    CalmKeepsPrices(c, w.om, CancelConfirmed(w.om, i), w.holder, h, w.ex, Closed(w.ex, w.om.slots[i].cid), w.quoted);
    hide PricesOk;
  }

  lemma RetriedKeepsPrices(c: Config, w: World, answer: CancelAck, stillOpen: bool)
    requires Shape(w) && Priced(c, w) && (w.holder.SideCancel? || w.holder.SweepCancel?)
    requires !Gone(answer) && w.holder.tries + 1 < MAX_CANCEL_ATTEMPTS
    ensures Priced(c, AfterCancelReply(w, answer, stillOpen))
  {
    RetriedReplyIs(w, answer, stillOpen);
    hide AfterCancelReply;
    ClosedKeepsPrices(w.ex, w.om.slots[w.holder.i].cid);
    hide Closed, SamePrices, SlotPriced, Gone;
    CalmKeepsPrices(c, w.om, w.om, w.holder, RetryHolder(w.holder), w.ex,
      if stillOpen then w.ex else Closed(w.ex, w.om.slots[w.holder.i].cid), w.quoted);
    hide PricesOk;
  }

  lemma SideLostKeepsPrices(c: Config, w: World, answer: CancelAck, stillOpen: bool)
    requires Shape(w) && Priced(c, w) && w.holder.SideCancel?
    requires !Gone(answer) && w.holder.tries + 1 >= MAX_CANCEL_ATTEMPTS
    ensures Priced(c, AfterCancelReply(w, answer, stillOpen))
  {
    var i := w.holder.i;
    SegmentsAreCalm(w.om, i);
    AbandonedIsGone(w.om, i);
    ClosedKeepsPrices(w.ex, w.om.slots[i].cid);
    var om, ex := CancelAbandoned(w.om, i), if stillOpen then w.ex else Closed(w.ex, w.om.slots[i].cid);
    hide CancelAbandoned, Closed, SamePrices, SlotPriced, Gone, Placed, Still;
    assert Still(w.om.slots[1 - i], om.slots[1 - i]);
    SideDone(c, w, om, ex, i, w.holder.q);
    hide PricesOk, Calm;
  }

  lemma SweepLostKeepsPrices(c: Config, w: World, answer: CancelAck, stillOpen: bool)
    requires Shape(w) && Priced(c, w) && w.holder.SweepCancel?
    requires !Gone(answer) && w.holder.tries + 1 >= MAX_CANCEL_ATTEMPTS
    ensures Priced(c, AfterCancelReply(w, answer, stillOpen))
  {
    var i := w.holder.i;
    SegmentsAreCalm(w.om, i);
    ClosedKeepsPrices(w.ex, w.om.slots[i].cid);
    var om, ex := CancelAbandoned(w.om, i), if stillOpen then w.ex else Closed(w.ex, w.om.slots[i].cid);
    hide CancelAbandoned, Closed, SamePrices, SlotPriced, Gone, Calm, PricesOk;
    CalmKeepsPrices(c, w.om, om, w.holder, Sweep(i + 1, w.holder.kind), w.ex, ex, w.quoted);
  }

  lemma CancelReplyKeepsPrices(c: Config, w: World, answer: CancelAck, stillOpen: bool)
    requires Shape(w) && Priced(c, w) && (w.holder.SideCancel? || w.holder.SweepCancel?)
    ensures Priced(c, AfterCancelReply(w, answer, stillOpen))
  {
    hide Priced, AfterCancelReply;
    if Gone(answer) {
      ConfirmedKeepsPrices(c, w, answer, stillOpen);
    } else if w.holder.tries + 1 < MAX_CANCEL_ATTEMPTS {
      RetriedKeepsPrices(c, w, answer, stillOpen);
    } else if w.holder.SideCancel? {
      SideLostKeepsPrices(c, w, answer, stillOpen);
    } else {
      SweepLostKeepsPrices(c, w, answer, stillOpen);
    }
  }

  lemma CheckKeepsPrices(c: Config, w: World, approved: bool)
    requires Inv(c, w) && Priced(c, w) && w.holder.SideCheck?
    ensures Priced(c, AfterCheck(w, approved))
  {
    var i, q := w.holder.i, w.holder.q;
    SegmentsAreCalm(w.om, i);
    TurnDownEffect(w.om, i);
    if w.halted || !approved {
      SideDone(c, w, TurnedDown(w.om, i), w.ex, i, q);
    }
    hide Inv, TurnedDown;
  }

  lemma SendKeepsPrices(c: Config, w: World, accepted: bool)
    requires Inv(c, w) && Priced(c, w) && w.holder.SideSend?
    ensures Priced(c, AfterSend(w, accepted))
  {
    hide NoOrphan, LostOk, HaltOk, CountOk, LogOk, PipelineOk, LagOk, ExOk;
  }

  lemma AckKeepsPrices(c: Config, w: World, oid: int)
    requires Inv(c, w) && Priced(c, w) && w.holder.SideAck?
    ensures Priced(c, AfterAck(w, oid))
  {
    var i, q := w.holder.i, w.holder.q;
    AckEffects(c, w, oid);
    SegmentsAreCalm(w.om, i);
    var om := if w.holder.accepted then AckReceived(w.om, i, oid) else TurnedDown(w.om, i);
    hide AckReceived, TurnedDown, LogOk, LiveCount;
    SideDone(c, w, om, w.ex, i, q);
    hide Inv;
  }

  lemma InjectKeepsPrices(c: Config, w: World, f: Fill, bytes: nat)
    requires Shape(w) && Priced(c, w) && w.holder.Free?
    ensures Priced(c, AfterInject(w, f, bytes))
  {
    var i := SlotFor(w.om, f.cid);
    if i < 2 {
      FillIsCalm(w.om, i, f.qty);
    }
    var w' := AfterInject(w, f, bytes);
    hide FilledIn;
    assert Calm(w.om, w'.om);
    hide PricesOk, Calm, AfterInject;
    CalmKeepsPrices(c, w.om, w'.om, w.holder, w.holder, w.ex, w.ex, w.quoted);
  }

  lemma ExKeepsPrices(c: Config, w: World, ex: map<int, ExOrder>)
    requires Priced(c, w) && SamePrices(w.ex, ex)
    ensures PricesOk(c, w.om, w.holder, ex, w.quoted)
  {
    CalmKeepsPrices(c, w.om, w.om, w.holder, w.holder, w.ex, ex, w.quoted);
    hide PricesOk, SamePrices;
  }

  /** Taking the free lock, or sweeping on, changes nothing about prices. */
  lemma HolderKeepsPrices(c: Config, w: World, om: Om, h: Holder)
    requires Priced(c, w) && om.slots == w.om.slots
    requires w.holder.Free? || w.holder.Sweep?
    requires h.Free? || h.Sweep? || h.SweepCancel? || (h.Side? && h.i == BID)
    ensures PricesOk(c, om, h, w.ex, w.quoted)
  {
    CalmKeepsPrices(c, w.om, om, w.holder, h, w.ex, w.ex, w.quoted);
    hide PricesOk;
  }

  lemma ReportKeepsPrices(c: Config, w: World, f: Fill, bytes: nat)
    requires Shape(w) && Priced(c, w) && w.holder.Free? && f.cid in w.ex
    ensures Priced(c, AfterReport(w, f, bytes))
  {
    var ex := w.ex[f.cid := w.ex[f.cid].(reported := w.ex[f.cid].reported + f.qty)];
    ExKeepsPrices(c, w, ex);
    InjectKeepsPrices(c, w.(ex := ex), f, bytes);
    hide PricesOk, AfterInject;
  }

  /** The steps of the requote, the sweep and the exchange. */
  lemma CallKeepsPrices(c: Config, w: World, step: Step)
    requires Inv(c, w) && Priced(c, w) && Enabled(c, w, step)
    requires step.Requote? || step.CancelReply? || step.Check? || step.Send? || step.AckReply?
    ensures Priced(c, Apply(c, w, step))
  {
    assert Shape(w);
    hide Inv, OnGrid, Abs, AfterRequote, AfterCancelReply, AfterCheck, AfterSend, AfterAck, Priced;
    match step
    case Requote(nowNs) => RequoteKeepsPrices(c, w, nowNs);
    case CancelReply(answer, stillOpen) => CancelReplyKeepsPrices(c, w, answer, stillOpen);
    case Check(approved) => CheckKeepsPrices(c, w, approved);
    case Send(accepted) => SendKeepsPrices(c, w, accepted);
    case AckReply(oid) => AckKeepsPrices(c, w, oid);
  }

  lemma SweepKeepsPrices(c: Config, w: World, step: Step)
    requires Shape(w) && Priced(c, w) && Enabled(c, w, step) && (step.SweepSlot? || step.SweepFlatten?)
    ensures Priced(c, Apply(c, w, step))
  {
    hide PricesOk;
    var w' := Apply(c, w, step);
    HolderKeepsPrices(c, w, w'.om, w'.holder);
  }

  lemma ExchangeKeepsPrices(c: Config, w: World, step: Step)
    requires Shape(w) && Priced(c, w) && Enabled(c, w, step)
    requires step.ExFill? || step.ExDrop? || step.Report? || step.ForeignFill?
    ensures Priced(c, Apply(c, w, step))
  {
    hide PricesOk, OnGrid, AfterInject, AfterReport;
    match step
    case ExFill(cid, qty) => ExKeepsPrices(c, w, AfterExFill(w, cid, qty).ex);
    case ExDrop(cid) => ExKeepsPrices(c, w, Closed(w.ex, cid));
    case Report(f, bytes) => ReportKeepsPrices(c, w, f, bytes);
    case ForeignFill(f, bytes) => InjectKeepsPrices(c, w, f, bytes);
  }

  lemma StepKeepsPrices(c: Config, w: World, step: Step)
    requires Inv(c, w) && Priced(c, w) && Enabled(c, w, step)
    ensures Priced(c, Apply(c, w, step))
  {
    assert Shape(w);
    hide Inv, OnGrid, Abs, Applied;
    if step.Requote? || step.CancelReply? || step.Check? || step.Send? || step.AckReply? {
      CallKeepsPrices(c, w, step);
      hide Enabled, Apply, Priced;
    } else if step.SweepSlot? || step.SweepFlatten? {
      SweepKeepsPrices(c, w, step);
      hide Enabled, Apply, Priced;
    } else if step.ExFill? || step.ExDrop? || step.Report? || step.ForeignFill? {
      ExchangeKeepsPrices(c, w, step);
      hide Enabled, Apply, Priced;
    } else {
      hide PricesOk;
      if step.QuoteLocks? || step.HaltLocks? || step.ShutdownLocks? {
        HolderKeepsPrices(c, w, w.om, Apply(c, w, step).holder);
      }
    }
  }

  lemma {:induction false} RunKeepsPrices(c: Config, w: World, steps: seq<Step>)
    requires Sane(c) && Inv(c, w) && Priced(c, w) && IsRun(c, w, steps)
    ensures Priced(c, After(c, w, steps))
    decreases |steps|
  {
    hide Inv, Apply, Enabled, Priced;
    if steps == [] {
    } else {
      StepKeepsPrices(c, w, steps[0]);
      StepKeepsInv(c, w, steps[0]);
      RunKeepsPrices(c, Apply(c, w, steps[0]), steps[1..]);
    }
  }

  // ---- Main results ----

  /** Whenever the manager's lock is free, each order resting at the exchange is that of an
      acknowledged or partly filled slot of its side, or its cancel failed persistently and
      the breaker is halted. */
  lemma NoOrphanOrders(c: Config, steps: seq<Step>, cid: int)
    requires Sane(c) && IsRun(c, INITIAL, steps)
    ensures var w := After(c, INITIAL, steps);
            Shape(w) &&
            (w.holder.Free? && cid in w.ex && w.ex[cid].open ==>
              var i := SlotOfSide(w.ex[cid].side);
              || (Placed(w.om.slots[i]) && w.om.slots[i].cid == cid && w.om.slots[i].side == w.ex[cid].side)
              || (w.lost[i] == cid && w.halted))
  {
    ReachableInv(c, steps);
    hide Apply, Enabled, IsRun, After;
  }

  lemma ReachablePrices(c: Config, steps: seq<Step>)
    requires Sane(c) && IsRun(c, INITIAL, steps)
    ensures var w := After(c, INITIAL, steps); Inv(c, w) && Priced(c, w) && Shape(w) && |w.lost| == 2
  {
    hide Apply, Enabled, IsRun, After;
    assert Priced(c, INITIAL) by { hide Inv; }
    InitialInv(c);
    hide Priced;
    RunKeepsPrices(c, INITIAL, steps);
    ReachableInv(c, steps);
    hide SlotsOk, ExOk, NoOrphan, LostOk, HaltOk, CountOk, LogOk, PipelineOk, LagOk;
  }

  lemma RestingFollowsQuote(c: Config, w: World, cid: int)
    requires Inv(c, w) && Priced(c, w) && w.holder.Free?
    requires cid in w.ex && w.ex[cid].open && cid != w.lost[0] && cid != w.lost[1]
    ensures w.quoted.Some? && (w.ex[cid].side == 1 || w.ex[cid].side == -1)
    ensures var near := if w.ex[cid].side == 1 then w.quoted.value.bid else w.quoted.value.ask;
            Abs(w.ex[cid].price - near) <= Max0(c.thresh)
  {
    hide LagOk, PipelineOk, LogOk, CountOk, HaltOk, LostOk, Abs, Max0, OnGrid;
    assert ExOrderOk(c, w.ex[cid]);
    var i := SlotOfSide(w.ex[cid].side);
    assert Owns(w.om.slots[i], i, w.holder, cid);
    hide ExOk, NoOrphan, SlotsOk;
  }

  /** Whenever the lock is free, a resting order that is not lost is within the threshold of
      its side of the last quote handled: a buy of the bid, a sell of the ask. */
  lemma OrdersFollowQuotes(c: Config, steps: seq<Step>, cid: int)
    requires Sane(c) && IsRun(c, INITIAL, steps)
    ensures var w := After(c, INITIAL, steps);
            && |w.lost| == 2
            && (w.holder.Free? && cid in w.ex && w.ex[cid].open && cid != w.lost[0] && cid != w.lost[1] ==>
                  && w.quoted.Some?
                  && (w.ex[cid].side == 1 || w.ex[cid].side == -1)
                  && (w.ex[cid].side == 1 ==> Abs(w.ex[cid].price - w.quoted.value.bid) <= Max0(c.thresh))
                  && (w.ex[cid].side == -1 ==> Abs(w.ex[cid].price - w.quoted.value.ask) <= Max0(c.thresh)))
  {
    hide *;
    ReachablePrices(c, steps);
    var w := After(c, INITIAL, steps);
    if w.holder.Free? && cid in w.ex && w.ex[cid].open && cid != w.lost[0] && cid != w.lost[1] {
      RestingFollowsQuote(c, w, cid);
    }
  }

  /** An order goes to the exchange under its slot's id, on its slot's side, at exactly that
      side of the quote in hand, and for the quoted quantity. */
  lemma OrdersAreSentAsQuoted(c: Config, steps: seq<Step>)
    requires Sane(c) && IsRun(c, INITIAL, steps) && After(c, INITIAL, steps).holder.SideSend?
    ensures var w := After(c, INITIAL, steps);
            && Shape(w)
            && var i, q := w.holder.i, w.holder.q;
               var ex, cid := AfterSend(w, true).ex, w.om.slots[i].cid;
               && cid !in w.ex && cid in ex
               && ex[cid].side == (if i == 0 then 1 else -1)
               && ex[cid].price == (if i == 0 then q.bid else q.ask) && ex[cid].qty == q.qty && ex[cid].open
  {
    ReachablePrices(c, steps);
    hide Apply, Enabled, IsRun, After, LagOk, PipelineOk, LogOk, CountOk, HaltOk, LostOk, NoOrphan, ExOk;
  }

  /** At every moment, even inside a REST call, at most one order per side rests. */
  lemma OneOrderPerSide(c: Config, steps: seq<Step>, a: int, b: int)
    requires Sane(c) && IsRun(c, INITIAL, steps)
    ensures var ex := After(c, INITIAL, steps).ex;
            a in ex && b in ex && ex[a].open && ex[b].open && ex[a].side == ex[b].side ==> a == b
  {
    ReachableInv(c, steps);
    hide Apply, Enabled, IsRun, After;
    assert NO_CID !in After(c, INITIAL, steps).ex;
  }

  lemma HaltIsKept(c: Config, w: World, step: Step)
    requires Shape(w) && Enabled(c, w, step) && w.halted
    ensures Apply(c, w, step).halted
  {
    hide AfterRequote, AfterCancelReply, AfterCheck, AfterSend, AfterAck, AfterInject, AfterSweepSlot,
      AfterSweepFlatten, AfterExFill, AfterReport, Closed, Applied;
  }

  lemma HaltedSendsNothing(c: Config, w: World, step: Step)
    requires Shape(w) && Enabled(c, w, step) && w.haltDone
    requires !w.holder.SideSend? && !w.holder.SideCancel? && !w.holder.SweepCancel?
    ensures var w' := Apply(c, w, step); w'.haltDone && w'.sends == w.sends && w'.lost == w.lost
  {
    hide AfterRequote, AfterCancelReply, AfterCheck, AfterSend, AfterAck, AfterInject, AfterSweepSlot,
      AfterSweepFlatten, AfterExFill, AfterReport, Closed, Applied;
  }

  lemma StepAfterHalt(c: Config, w: World, step: Step)
    requires Sane(c) && Inv(c, w) && Enabled(c, w, step)
    ensures w.halted ==> Apply(c, w, step).halted
    ensures w.haltDone ==> var w' := Apply(c, w, step); w'.haltDone && w'.sends == w.sends && w'.lost == w.lost
  {
    hide NoOrphan, LagOk, LogOk, ExOk, PipelineOk, CountOk, Apply, Enabled;
    if w.halted {
      HaltIsKept(c, w, step);
    }
    if w.haltDone {
      HaltedSendsNothing(c, w, step);
    }
  }

  /** A halt is for good, and once `on_halt` has finished no run ever calls place_order
      again, whatever had been armed, approved or queued before. */
  lemma {:induction false} NoOrderAfterHalt(c: Config, w: World, steps: seq<Step>)
    requires Sane(c) && Inv(c, w) && IsRun(c, w, steps)
    ensures w.halted ==> After(c, w, steps).halted
    ensures w.haltDone ==>
              var w' := After(c, w, steps);
              w'.haltDone && w'.sends == w.sends && w'.lost == w.lost
    decreases |steps|
  {
    hide Inv, Apply, Enabled;
    if steps == [] {
    } else {
      StepAfterHalt(c, w, steps[0]);
      StepKeepsInv(c, w, steps[0]);
      NoOrderAfterHalt(c, Apply(c, w, steps[0]), steps[1..]);
    }
  }

  /** Once `on_halt` has finished, an order that still rests, then or at any later moment, is
      one whose cancel had failed persistently by then; if none had, nothing rests. */
  lemma NothingRestsAfterHalt(c: Config, before: seq<Step>, later: seq<Step>, cid: int)
    requires Sane(c) && IsRun(c, INITIAL, before) && IsRun(c, After(c, INITIAL, before), later)
    requires After(c, INITIAL, before).haltDone
    ensures var lost, w := After(c, INITIAL, before).lost, After(c, After(c, INITIAL, before), later);
            && |lost| == 2
            && (cid in w.ex && w.ex[cid].open ==> lost[SlotOfSide(w.ex[cid].side)] == cid != NO_CID)
  {
    ReachableInv(c, before);
    var w := After(c, INITIAL, before);
    NoOrderAfterHalt(c, w, later);
    RunKeepsInv(c, w, later);
    hide Apply, Enabled, IsRun, After;
    assert NO_CID !in After(c, w, later).ex;
  }

  /** What is true of a slot while nobody holds the lock. */
  predicate SlotAtRest(s: Slot) {
    && (s.active ==> s.state.Acknowledged? || s.state.PartiallyFilled? || s.state.Rejected?)
    && (s.active && !s.state.Rejected? ==>
          && 0.0 <= s.executed < s.qty
          && (s.state.Acknowledged? <==> s.executed == 0.0)
          && (s.state.PartiallyFilled? <==> 0.0 < s.executed))
    && (s.state.Filled? ==> s.executed >= s.qty)
  }

  lemma SlotsRest(c: Config, w: World, i: int)
    requires Inv(c, w) && w.holder.Free? && 0 <= i < 2
    ensures SlotAtRest(w.om.slots[i])
  {
    hide NoOrphan, LostOk, HaltOk, CountOk, LogOk, PipelineOk, LagOk, OnGrid;
    assert Placed(w.om.slots[i]) ==> w.om.slots[i].cid in w.ex;
  }

  /** Whenever the lock is free: no slot is PENDING or SUBMITTED, so the ack watchdog never
      fires; the published open-order count is the number of live slots; and a placed order
      is ACKNOWLEDGED exactly while unfilled, PARTIALLY_FILLED exactly while part filled,
      and gone from the live states once filled. */
  lemma SlotsWhenFree(c: Config, steps: seq<Step>, i: int, nowNs: int, limitNs: int)
    requires Sane(c) && IsRun(c, INITIAL, steps) && 0 <= i < 2
    ensures var w := After(c, INITIAL, steps);
            Shape(w) &&
            (w.holder.Free? ==>
              var s := w.om.slots[i];
              && SlotAtRest(s)
              && !WatchdogFires(s, nowNs, limitNs)
              && w.om.openOrders == (if Live(w.om.slots[0]) then 1 else 0) + (if Live(w.om.slots[1]) then 1 else 0))
  {
    ReachableInv(c, steps);
    hide Apply, Enabled, IsRun, After;
    var w := After(c, INITIAL, steps);
    assert Shape(w);
    LiveCountTwo(w.om.slots);
    if w.holder.Free? {
      SlotsRest(c, w, i);
      hide SlotsOk, ExOk, NoOrphan, LostOk, HaltOk, LogOk, PipelineOk, LagOk, LiveCount;
    }
  }

  /** The state machine never refuses a request, and the states one client order id passes
      through strictly climb. */
  lemma AuditLogClimbs(c: Config, steps: seq<Step>, j: int, k: int)
    requires Sane(c) && IsRun(c, INITIAL, steps)
    requires 0 <= j < k < |After(c, INITIAL, steps).om.log|
    ensures var log := After(c, INITIAL, steps).om.log;
            && log[j].Moved? && log[k].Moved? && IsValidTransition(log[k].from, log[k].to)
            && (log[j].cid == log[k].cid ==> Rank(log[j].to) < Rank(log[k].to))
  {
    ReachableInv(c, steps);
    hide Apply, Enabled, IsRun, After;
  }

  lemma NetQtyPush(fills: seq<Fill>, f: Fill)
    ensures NetQty(fills + [f]) == NetQty(fills) + Signed(f)
  {
    assert (fills + [f])[..|fills|] == fills;
  }

  lemma {:induction false} AcceptedJoins(a: seq<Fill>, b: seq<Fill>)
    ensures NetQty(PositionTracking.Accepted(a + b)) ==
            NetQty(PositionTracking.Accepted(a)) + NetQty(PositionTracking.Accepted(b))
    decreases |b|
  {
    if b == [] {
      assert a + b == a;
    } else {
      var n := |b| - 1;
      assert (a + b)[..|a + b| - 1] == a + b[..n];
      AcceptedJoins(a, b[..n]);
      NetQtyPush(PositionTracking.Accepted(a + b[..n]), b[n]);
      NetQtyPush(PositionTracking.Accepted(b[..n]), b[n]);
    }
  }

  /** Exactly once, in order: the fills the ring took are those the tracker has applied,
      then the one popped but not yet applied, then those still queued; so inventory plus
      what is still to come is the net of them all. */
  lemma FillsExactlyOnce(c: Config, steps: seq<Step>)
    requires Sane(c) && IsRun(c, INITIAL, steps)
    ensures var w := After(c, INITIAL, steps);
            && (exists applied :: w.accepted == applied + Queued(w.inFlight, w.ring)
                                  && w.tracker == AppliedAll(FLAT, applied))
            && w.tracker.inv + NetQty(PositionTracking.Accepted(Queued(w.inFlight, w.ring))) ==
               NetQty(PositionTracking.Accepted(w.accepted))
  {
    ReachableInv(c, steps);
    hide Apply, Enabled, IsRun, After;
    var w := After(c, INITIAL, steps);
    var queued := Queued(w.inFlight, w.ring);
    var applied := w.accepted[..|w.accepted| - |queued|];
    assert w.accepted == applied + queued;
    BooksFollowCash(applied);
    AcceptedJoins(applied, queued);
  }

  /** The true position, with everything that still rests filled, is within the limit
      widened by how far the local inventory lagged when the last order of that side was
      approved, and by what flattens have moved it that way since. */
  lemma PositionWithinLag(c: Config, steps: seq<Step>, cid: int)
    requires Sane(c) && IsRun(c, INITIAL, steps)
    ensures var w := After(c, INITIAL, steps);
            && Shape(w)
            && -(c.maxPosition + w.lag[ASK]) <= w.position <= c.maxPosition + w.lag[BID]
            && (cid in w.ex && w.ex[cid].open && w.ex[cid].side == 1 ==>
                  w.position + (w.ex[cid].qty - w.ex[cid].executed) <= c.maxPosition + w.lag[BID])
            && (cid in w.ex && w.ex[cid].open && w.ex[cid].side == -1 ==>
                  w.position - (w.ex[cid].qty - w.ex[cid].executed) >= -(c.maxPosition + w.lag[ASK]))
  {
    ReachableInv(c, steps);
    hide Apply, Enabled, IsRun, After;
  }
}
