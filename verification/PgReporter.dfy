/** The database reporter: one consumer thread that drains the event ring into batches,
    keeps only the latest daily totals until the date changes, and flushes with retries.
    A flush meets a database that commits the whole batch, is out of reach, or refuses the
    batch and is then offered its events one by one. */
module Reporter {
  import opened Options
  import opened SpscRing

  type Row = seq<int>

  datatype Daily = Daily(date: int, realized: real, unrealized: real, fees: real, total: real)

  datatype Event = Trade(row: Row) | PositionSnapshot(row: Row) | SystemEvent(row: Row) | DailyPnl(daily: Daily)

  /** Three tables that only grow, seen as one list of rows, and one keyed by date. */
  datatype Db = Db(rows: seq<Event>, days: map<int, Daily>)

  const EMPTY_DB := Db([], map[])

  function Exec(db: Db, e: Event): Db {
    if e.DailyPnl? then db.(days := db.days[e.daily.date := e.daily]) else db.(rows := db.rows + [e])
  }

  function ExecAll(db: Db, es: seq<Event>): Db {
    if es == [] then db else Exec(ExecAll(db, es[..|es| - 1]), es[|es| - 1])
  }

  // ---- The consumer ----

  datatype Single = Done | Skipped(reconnected: bool)

  datatype Outcome = Committed | Unavailable | OneByOne(single: nat -> Single)

  datatype Consumer = Consumer(batch: seq<Event>, current: Option<Daily>, failures: nat, db: Db,
                               flushed: nat, dropped: nat)

  const IDLE := Consumer([], None, 0, EMPTY_DB, 0, 0)

  /** One event leaves the ring: daily totals replace the current ones, whose row joins the
      batch when the date changes. */
  function Took(c: Consumer, e: Event): Consumer {
    if !e.DailyPnl? then c.(batch := c.batch + [e])
    else if c.current.Some? && c.current.value.date != 0 && e.daily.date != c.current.value.date
    then c.(batch := c.batch + [DailyPnl(c.current.value)], current := Some(e.daily))
    else c.(current := Some(e.daily))
  }

  function TookAll(c: Consumer, es: seq<Event>): Consumer {
    if es == [] then c else Took(TookAll(c, es[..|es| - 1]), es[|es| - 1])
  }

  lemma Regroup(es: seq<Event>, e: Event, fs: seq<Event>)
    ensures (es + [e]) + fs == es + ([e] + fs)
  {}

  lemma TookNone(c: Consumer)
    ensures TookAll(c, []) == c
  {}

  lemma TookOneMore(c: Consumer, es: seq<Event>, e: Event)
    ensures TookAll(c, es + [e]) == Took(TookAll(c, es), e)
  {
    assert (es + [e])[..|es|] == es;
  }

  /** What the one-by-one fallback has done before reaching position `i`. */
  datatype Progress = Progress(db: Db, done: nat, skipped: nat, lost: bool)

  function Singly(db: Db, es: seq<Event>, single: nat -> Single): Progress {
    if es == [] then Progress(db, 0, 0, false)
    else
      var n := |es| - 1;
      var p := Singly(db, es[..n], single);
      if p.lost then p
      else
        match single(n)
        case Done => p.(db := Exec(p.db, es[n]), done := p.done + 1)
        case Skipped(reconnected) => p.(skipped := p.skipped + 1, lost := !reconnected)
  }

  /** How the database meets one flush: the connection and its schema, the first attempt at
      the whole batch, a fresh connection, the second attempt, another fresh connection, and
      the events one by one. */
  datatype Answers = Answers(connects: bool, schemaReady: bool, first: bool, reconnects: bool, second: bool,
                             reconnectsAgain: bool, single: nat -> Single)

  function OutcomeOf(a: Answers): Outcome {
    if !a.connects || !a.schemaReady then Unavailable
    else if a.first then Committed
    else if !a.reconnects then Unavailable
    else if a.second then Committed
    else if !a.reconnectsAgain then Unavailable
    else OneByOne(a.single)
  }

  /** Both whole-batch attempts need their connection, and only two refusals with a third
      connection lead to the fallback. */
  lemma OutcomeIs(a: Answers)
    ensures OutcomeOf(a).Committed? <==> a.connects && a.schemaReady && (a.first || (a.reconnects && a.second))
    ensures OutcomeOf(a).OneByOne? <==>
            a.connects && a.schemaReady && !a.first && a.reconnects && !a.second && a.reconnectsAgain
    ensures OutcomeOf(a).OneByOne? ==> OutcomeOf(a).single == a.single
  {}

  function Flush(c: Consumer, o: Outcome): (Consumer, bool) {
    if c.batch == [] then (c, true)
    else
      match o
      case Committed =>
        (c.(batch := [], failures := 0, db := ExecAll(c.db, c.batch), flushed := c.flushed + |c.batch|), true)
      case Unavailable => (c.(failures := c.failures + 1), false)
      case OneByOne(single) =>
        var p := Singly(c.db, c.batch, single);
        (c.(batch := [], failures := 0, db := p.db, flushed := c.flushed + p.done,
             dropped := c.dropped + p.skipped), true)
  }

  /** A flush from the loop gives the batch up at the second failure in a row. */
  function LoopFlush(c: Consumer, o: Outcome): Consumer {
    var (c', ok) := Flush(c, o);
    if !ok && c'.failures >= 2 then c'.(dropped := c'.dropped + |c'.batch|, batch := [], failures := 0) else c'
  }

  function LastBatch(c: Consumer, rest: seq<Event>): seq<Event> {
    c.batch + (if c.current.Some? then [DailyPnl(c.current.value)] else []) + rest
  }

  /** The shutdown: the current day's row, then the rest of the ring as it stands, then one
      flush whose result is ignored. */
  function ShutDown(c: Consumer, rest: seq<Event>, o: Outcome): Consumer {
    Flush(c.(batch := LastBatch(c, rest), current := None), o).0
  }

  lemma {:induction false} LostStops(db: Db, es: seq<Event>, single: nat -> Single, i: nat)
    requires i <= |es| && Singly(db, es[..i], single).lost
    ensures Singly(db, es, single) == Singly(db, es[..i], single)
    decreases |es|
  {
    if i < |es| {
      assert es[..|es| - 1][..i] == es[..i];
      LostStops(db, es[..|es| - 1], single, i);
    } else {
      assert es[..i] == es;
    }
  }

  class PgReporter {
    const ring: Ring<Event>
    const batchSize: nat
    const flushInterval: int
    var running: bool
    var batch: seq<Event>
    var hasCurrentDay: bool
    var currentDay: Daily
    var failures: nat
    var db: Db
    var flushedCount: nat
    var droppedCount: nat
    var pendingCount: nat
    var lastFlush: int

    ghost function Now(): Consumer
      reads this
    {
      Consumer(batch, if hasCurrentDay then Some(currentDay) else None, failures, db, flushedCount, droppedCount)
    }

    constructor (ring: Ring<Event>, batchSize: nat, flushInterval: int, now: int)
      ensures this.ring == ring && this.batchSize == batchSize && this.flushInterval == flushInterval
      ensures Now() == IDLE && running && lastFlush == now
    {
      this.ring, this.batchSize, this.flushInterval, running := ring, batchSize, flushInterval, true;
      batch, hasCurrentDay, failures, db := [], false, 0, EMPTY_DB;
      flushedCount, droppedCount, pendingCount, lastFlush := 0, 0, 0, now;
    }

    method Push(e: Event) returns (ok: bool)
      requires ring.Valid()
      modifies ring`head, ring.buffer
      ensures ring.Valid()
      ensures (ok, ring.Contents()) == Offer(old(ring.Contents()), ring.buffer.Length - 1, e)
    {
      ok := ring.Push(e);
    }

    method UpdateDailyCurrent(d: Daily)
      modifies `currentDay, `hasCurrentDay
      ensures hasCurrentDay && currentDay == d
    {
      if !hasCurrentDay {
        currentDay := d;
        hasCurrentDay := true;
        return;
      }
      currentDay := d;
    }

    method Take(e: Event)
      modifies `batch, `currentDay, `hasCurrentDay
      ensures Now() == Took(old(Now()), e)
    {
      if e.DailyPnl? {
        if hasCurrentDay && currentDay.date != 0 && e.daily.date != currentDay.date {
          batch := batch + [DailyPnl(currentDay)];
        }
        UpdateDailyCurrent(e.daily);
      } else {
        batch := batch + [e];
      }
    }

    /** The inner loop: stops at a full batch or an empty ring. */
    method Gather() returns (gotAny: bool, ghost taken: seq<Event>)
      requires ring.Valid()
      modifies this, ring`tail
      ensures ring.Valid() && taken + ring.Contents() == old(ring.Contents())
      ensures Now() == TookAll(old(Now()), taken)
      ensures |batch| >= 2 * batchSize || ring.Contents() == []
      ensures gotAny <==> taken != []
      ensures pendingCount == |batch| && running == old(running)
    {
      hide Took, TookAll;
      TookNone(Now());
      var e: Event := SystemEvent([]);
      gotAny, taken := false, [];
      var popped := true;
      while |batch| < 2 * batchSize && popped
        invariant ring.Valid() && taken + ring.Contents() == old(ring.Contents())
        invariant Now() == TookAll(old(Now()), taken)
        invariant !popped ==> ring.Contents() == []
        invariant gotAny <==> taken != []
        invariant running == old(running)
        decreases popped, |ring.Contents()|
      {
        popped, e := ring.Pop(e);
        if popped {
          Regroup(taken, e, ring.Contents());
          Take(e);
          TookOneMore(old(Now()), taken, e);
          taken := taken + [e];
          gotAny := true;
        }
      }
      pendingCount := |batch|;
    }

    method TryWholeBatch(commits: bool) returns (ok: bool)
      modifies `db
      ensures ok == commits && db == if commits then ExecAll(old(db), batch) else old(db)
    {
      var tx := db;
      for i := 0 to |batch|
        invariant tx == ExecAll(db, batch[..i])
      {
        assert batch[..i + 1][..i] == batch[..i];
        tx := Exec(tx, batch[i]);
      }
      assert batch[..|batch|] == batch;
      if commits {
        db := tx;
      }
      ok := commits;
    }

    method FlushSingly(single: nat -> Single)
      modifies `db, `flushedCount, `droppedCount
      ensures var p := Singly(old(db), batch, single);
              db == p.db && flushedCount == old(flushedCount) + p.done && droppedCount == old(droppedCount) + p.skipped
    {
      var done, skipped, lost, i := 0, 0, false, 0;
      while i < |batch| && !lost
        invariant 0 <= i <= |batch|
        invariant Progress(db, done, skipped, lost) == Singly(old(db), batch[..i], single)
        invariant flushedCount == old(flushedCount) && droppedCount == old(droppedCount)
        decreases |batch| - i
      {
        assert batch[..i + 1][..i] == batch[..i];
        match single(i) {
          case Done =>
            db := Exec(db, batch[i]);
            done := done + 1;
          case Skipped(reconnected) =>
            skipped := skipped + 1;
            lost := !reconnected;
        }
        i := i + 1;
      }
      assert batch[..|batch|] == batch;
      if lost {
        LostStops(old(db), batch, single, i);
      }
      flushedCount, droppedCount := flushedCount + done, droppedCount + skipped;
    }

    method Unreached() returns (ok: bool)
      modifies `failures
      ensures !ok && failures == old(failures) + 1
    {
      failures := failures + 1;
      ok := false;
    }

    method FlushBatch(a: Answers) returns (ok: bool)
      modifies `batch, `failures, `db, `flushedCount, `droppedCount
      ensures (Now(), ok) == Flush(old(Now()), OutcomeOf(a))
    {
      if batch == [] {
        return true;
      }
      var n := |batch|;
      if !a.connects || !a.schemaReady {
        ok := Unreached();
        return;
      }
      var committed := TryWholeBatch(a.first);
      if !committed {
        if !a.reconnects {
          ok := Unreached();
          return;
        }
        committed := TryWholeBatch(a.second);
      }
      if committed {
        flushedCount := flushedCount + n;
      } else {
        if !a.reconnectsAgain {
          ok := Unreached();
          return;
        }
        FlushSingly(a.single);
      }
      batch, failures := [], 0;
      ok := true;
    }

    /** The rest of one turn of the loop. */
    method MaybeFlush(now: int, a: Answers)
      modifies this
      ensures var due := old(|batch|) >= batchSize || (old(batch) != [] && now - old(lastFlush) >= flushInterval);
              var (c, ok) := Flush(old(Now()), OutcomeOf(a));
              && Now() == (if due then LoopFlush(old(Now()), OutcomeOf(a)) else old(Now()))
              && lastFlush == (if due && (ok || c.failures >= 2) then now else old(lastFlush))
      ensures running == old(running)
    {
      var sizeReady := |batch| >= batchSize;
      var timeReady := batch != [] && now - lastFlush >= flushInterval;
      if sizeReady || timeReady {
        var ok := FlushBatch(a);
        if ok {
          lastFlush := now;
        } else if failures >= 2 {
          droppedCount := droppedCount + |batch|;
          batch := [];
          failures := 0;
          lastFlush := now;
        }
        pendingCount := |batch|;
      }
    }

    method Drain() returns (ghost rest: seq<Event>)
      requires ring.Valid()
      modifies `batch, ring`tail
      ensures ring.Valid() && ring.Contents() == [] && rest == old(ring.Contents())
      ensures batch == old(batch) + rest
    {
      rest := [];
      var e: Event := SystemEvent([]);
      var popped := true;
      while popped
        invariant ring.Valid() && rest + ring.Contents() == old(ring.Contents())
        invariant batch == old(batch) + rest
        invariant !popped ==> ring.Contents() == []
        decreases popped, |ring.Contents()|
      {
        popped, e := ring.Pop(e);
        if popped {
          Regroup(rest, e, ring.Contents());
          rest := rest + [e];
          batch := batch + [e];
        }
      }
    }

    method Stop(a: Answers) returns (ghost rest: seq<Event>)
      requires ring.Valid()
      modifies this, ring`tail
      ensures ring.Valid() && ring.Contents() == [] && rest == old(ring.Contents())
      ensures !running && Now() == ShutDown(old(Now()), rest, OutcomeOf(a))
    {
      running := false;
      if hasCurrentDay {
        batch := batch + [DailyPnl(currentDay)];
        hasCurrentDay := false;
      }
      rest := Drain();
      assert batch == LastBatch(old(Now()), rest);
      if batch != [] {
        var ignored := FlushBatch(a);
      }
    }
  }

  // ---- Whole runs ----

  datatype Step = Take(e: Event) | TryFlush(o: Outcome)

  /** The loop takes only while the batch has room, and flushes a batch only when it is
      large enough or, at any time, when it is not empty. */
  predicate Enabled(batchSize: nat, c: Consumer, step: Step) {
    match step
    case Take(_) => |c.batch| < 2 * batchSize
    case TryFlush(_) => |c.batch| >= batchSize || c.batch != []
  }

  function After(steps: seq<Step>): Consumer {
    if steps == [] then IDLE
    else
      var c := After(steps[..|steps| - 1]);
      match steps[|steps| - 1]
      case Take(e) => Took(c, e)
      case TryFlush(o) => LoopFlush(c, o)
  }

  predicate IsRun(batchSize: nat, steps: seq<Step>) {
    steps == [] || (IsRun(batchSize, steps[..|steps| - 1])
                    && Enabled(batchSize, After(steps[..|steps| - 1]), steps[|steps| - 1]))
  }

  function Taken(steps: seq<Step>): seq<Event> {
    if steps == [] then []
    else
      match steps[|steps| - 1]
      case Take(e) => Taken(steps[..|steps| - 1]) + [e]
      case TryFlush(_) => Taken(steps[..|steps| - 1])
  }

  /** Before the shutdown the batch never exceeds twice the batch size, whatever the
      database does. */
  lemma {:induction false} BatchStaysBounded(batchSize: nat, steps: seq<Step>)
    requires IsRun(batchSize, steps)
    ensures |After(steps).batch| <= 2 * batchSize
    decreases |steps|
  {
    if steps == [] {
    } else {
      BatchStaysBounded(batchSize, steps[..|steps| - 1]);
    }
  }

  /** The rows that are not daily totals, in order. */
  function Plain(es: seq<Event>): seq<Event> {
    if es == [] then []
    else Plain(es[..|es| - 1]) + if es[|es| - 1].DailyPnl? then [] else [es[|es| - 1]]
  }

  /** The table that upserting every daily event in order leaves. */
  function Upserts(es: seq<Event>): map<int, Daily> {
    if es == [] then map[]
    else
      var m, e := Upserts(es[..|es| - 1]), es[|es| - 1];
      if e.DailyPnl? then m[e.daily.date := e.daily] else m
  }

  /** The fallback was cut short by a connection it could not get back. */
  predicate Unbroken(batch: seq<Event>, o: Outcome) {
    o.OneByOne? ==> !Singly(EMPTY_DB, batch, o.single).lost
  }

  /** No flush of the run is cut short. */
  predicate NeverCut(steps: seq<Step>) {
    steps == []
    || (NeverCut(steps[..|steps| - 1])
        && (steps[|steps| - 1].TryFlush? ==> Unbroken(After(steps[..|steps| - 1]).batch, steps[|steps| - 1].o)))
  }

  lemma {:induction false} ExecAllSplits(db: Db, es: seq<Event>, fs: seq<Event>)
    ensures ExecAll(db, es + fs) == ExecAll(ExecAll(db, es), fs)
    decreases |fs|
  {
    if fs == [] {
      assert es + fs == es;
    } else {
      assert (es + fs)[..|es| + |fs| - 1] == es + fs[..|fs| - 1];
      ExecAllSplits(db, es, fs[..|fs| - 1]);
    }
  }

  /** A fallback that skips nothing and is not cut short does what a commit does. */
  lemma {:induction false} SinglyIsCommit(db: Db, es: seq<Event>, single: nat -> Single)
    ensures Singly(db, es, single).lost == Singly(EMPTY_DB, es, single).lost
    ensures Singly(db, es, single).skipped == Singly(EMPTY_DB, es, single).skipped
    ensures !Singly(db, es, single).lost && Singly(db, es, single).skipped == 0
            ==> Singly(db, es, single).db == ExecAll(db, es)
    decreases |es|
  {
    if es == [] {
    } else {
      SinglyIsCommit(db, es[..|es| - 1], single);
    }
  }

  /** What the database will hold once the batch has reached it. */
  function Ahead(c: Consumer): Db {
    ExecAll(c.db, c.batch)
  }

  /** The daily table once the current day has been added as well. */
  function WithCurrent(c: Consumer): map<int, Daily> {
    if c.current.Some? then Ahead(c).days[c.current.value.date := c.current.value] else Ahead(c).days
  }

  ghost predicate HasZeroDate(es: seq<Event>) {
    exists e :: e in es && e.DailyPnl? && e.daily.date == 0
  }

  function LastDate(es: seq<Event>): Option<int> {
    if es == [] then None
    else if es[|es| - 1].DailyPnl? then Some(es[|es| - 1].daily.date) else LastDate(es[..|es| - 1])
  }

  lemma TookAhead(c: Consumer, e: Event)
    ensures Ahead(Took(c, e)).rows == if e.DailyPnl? then Ahead(c).rows else Ahead(c).rows + [e]
    ensures WithCurrent(Took(c, e)) ==
            if !e.DailyPnl? then WithCurrent(c)
            else if c.current.Some? && c.current.value.date == 0
            then Ahead(c).days[e.daily.date := e.daily] else WithCurrent(c)[e.daily.date := e.daily]
    ensures 0 !in Ahead(c).days ==> 0 !in Ahead(Took(c, e)).days
    ensures Took(c, e).dropped == c.dropped && Took(c, e).db == c.db
  {
    var b := Took(c, e).batch;
    if |b| > |c.batch| {
      assert b[..|c.batch|] == c.batch;
    }
  }

  lemma FlushAhead(c: Consumer, o: Outcome)
    requires Unbroken(c.batch, o)
    ensures Flush(c, o).0.dropped >= c.dropped && LoopFlush(c, o).dropped >= c.dropped
    ensures Flush(c, o).0.dropped == c.dropped ==> Ahead(Flush(c, o).0) == Ahead(c)
    ensures LoopFlush(c, o).dropped == c.dropped ==> Ahead(LoopFlush(c, o)) == Ahead(c)
    ensures Flush(c, o).0.current == LoopFlush(c, o).current == c.current
    ensures !o.Unavailable? ==> Flush(c, o).0.batch == []
  {
    if o.OneByOne? {
      SinglyIsCommit(c.db, c.batch, o.single);
    }
  }

  /** The database and the batch together hold every plain event once and in order, and the
      daily table of the events so far, except that a row dated zero is there only while it
      is the current one. */
  ghost predicate Kept(c: Consumer, taken: seq<Event>) {
    && Ahead(c).rows == Plain(taken)
    && 0 !in Ahead(c).days
    && LastDate(taken) == (if c.current.Some? then Some(c.current.value.date) else None)
    && WithCurrent(c) == if LastDate(taken) == Some(0) then Upserts(taken) else Upserts(taken) - {0}
  }

  /** How often a daily event follows one of another day that is not dated zero. */
  function Rollovers(es: seq<Event>): nat {
    if es == [] then 0
    else
      var front, e := es[..|es| - 1], es[|es| - 1];
      var before := LastDate(front);
      var rolls := e.DailyPnl? && before.Some? && before.value != 0 && before.value != e.daily.date;
      Rollovers(front) + if rolls then 1 else 0
  }

  lemma {:induction false} SinglyAccounts(db: Db, es: seq<Event>, single: nat -> Single)
    ensures var p := Singly(db, es, single);
            p.done + p.skipped <= |es| && (!p.lost ==> p.done + p.skipped == |es|)
    decreases |es|
  {
    if es == [] {
    } else {
      SinglyAccounts(db, es[..|es| - 1], single);
    }
  }

  lemma FlushAccounts(c: Consumer, o: Outcome)
    ensures var c' := LoopFlush(c, o);
            && c'.flushed + c'.dropped + |c'.batch| <= c.flushed + c.dropped + |c.batch|
            && (Unbroken(c.batch, o) ==>
                  c'.flushed + c'.dropped + |c'.batch| == c.flushed + c.dropped + |c.batch|)
            && c'.current == c.current
  {
    if o.OneByOne? {
      SinglyAccounts(c.db, c.batch, o.single);
      SinglyIsCommit(c.db, c.batch, o.single);
    }
    hide Singly, ExecAll;
  }

  /** Nothing goes uncounted: what was written, what was dropped and what still waits are
      together the plain events and one row for every day that ended. A fallback that is cut
      short is the one way to lose count, and never counts too much. */
  lemma {:induction false} RowsAreCounted(steps: seq<Step>)
    ensures var c, taken := After(steps), Taken(steps);
            && c.flushed + c.dropped + |c.batch| <= |Plain(taken)| + Rollovers(taken)
            && (NeverCut(steps) ==> c.flushed + c.dropped + |c.batch| == |Plain(taken)| + Rollovers(taken))
            && LastDate(taken) == (if c.current.Some? then Some(c.current.value.date) else None)
    decreases |steps|
  {
    if steps == [] {
    } else {
      var n := |steps| - 1;
      RowsAreCounted(steps[..n]);
      hide LoopFlush, Unbroken;
      match steps[n]
      case Take(e) =>
        assert (Taken(steps[..n]) + [e])[..|Taken(steps[..n])|] == Taken(steps[..n]);
      case TryFlush(o) =>
        FlushAccounts(After(steps[..n]), o);
    }
  }

  /** How many batches in a row have found the database out of reach. */
  function Refusals(steps: seq<Step>): nat {
    if steps == [] then 0
    else
      var front, step := steps[..|steps| - 1], steps[|steps| - 1];
      if step.Take? || After(front).batch == [] then Refusals(front)
      else if step.o.Unavailable? then Refusals(front) + 1
      else 0
  }

  /** Every second refusal in a row gives the batch up, and the one before it keeps it. */
  lemma {:induction false} SecondRefusalDrops(steps: seq<Step>)
    ensures After(steps).failures == Refusals(steps) % 2
    ensures steps != [] && steps[|steps| - 1] == TryFlush(Unavailable) ==>
              var c, c' := After(steps[..|steps| - 1]), After(steps);
              && c'.db == c.db && c'.flushed == c.flushed
              && if c.batch != [] && Refusals(steps) % 2 == 0
                 then c'.batch == [] && c'.dropped == c.dropped + |c.batch|
                 else c'.batch == c.batch && c'.dropped == c.dropped
    decreases |steps|
  {
    if steps == [] {
    } else {
      SecondRefusalDrops(steps[..|steps| - 1]);
    }
  }

  /** `days` is what has been written; the current day's row is still to come. */
  lemma TableStep(days: map<int, Daily>, all: map<int, Daily>, current: Option<Daily>, d: Daily)
    requires 0 !in days
    requires var zero := current.Some? && current.value.date == 0;
             (if current.Some? then days[current.value.date := current.value] else days)
             == if zero then all else all - {0}
    ensures var zero := current.Some? && current.value.date == 0;
            var table := if current.Some? && !zero then days[current.value.date := current.value] else days;
            table[d.date := d] == if d.date == 0 then all[d.date := d] else all[d.date := d] - {0}
  {
    if current.Some? && current.value.date == 0 {
      assert days == all - {0};
    }
  }

  lemma TakeKeeps(c: Consumer, taken: seq<Event>, e: Event)
    requires Kept(c, taken)
    ensures Kept(Took(c, e), taken + [e])
  {
    assert (taken + [e])[..|taken|] == taken;
    TookAhead(c, e);
    if e.DailyPnl? {
      TableStep(Ahead(c).days, Upserts(taken), c.current, e.daily);
    }
    hide Ahead, Took;
  }

  lemma {:induction false} LoopKeepsEverything(steps: seq<Step>)
    requires NeverCut(steps) && After(steps).dropped == 0
    ensures Kept(After(steps), Taken(steps))
    decreases |steps|
  {
    if steps == [] {
      assert Upserts([]) - {0} == map[];
    } else {
      hide Took, LoopFlush;
      var n := |steps| - 1;
      var c := After(steps[..n]);
      match steps[n]
      case Take(e) =>
        TookAhead(c, e);
        LoopKeepsEverything(steps[..n]);
        TakeKeeps(c, Taken(steps[..n]), e);
      case TryFlush(o) =>
        FlushAhead(c, o);
        LoopKeepsEverything(steps[..n]);
    }
  }

  /** The final table, for a run that ends by draining `rest`, and the one that upserting
      every daily event in order would leave. */
  lemma DrainedTable(c: Consumer, taken: seq<Event>, rest: seq<Event>)
    requires Kept(c, taken)
    ensures ExecAll(c.db, LastBatch(c, rest)) == ExecAll(Db(Plain(taken), WithCurrent(c)), rest)
  {
    var last := if c.current.Some? then [DailyPnl(c.current.value)] else [];
    ExecAllSplits(c.db, c.batch + last, rest);
    if last == [] {
      assert c.batch + last == c.batch;
    } else {
      assert (c.batch + last)[..|c.batch|] == c.batch;
    }
  }

  lemma {:induction false} ExecAllReads(db: Db, es: seq<Event>)
    ensures ExecAll(db, es).rows == db.rows + Plain(es)
    ensures ExecAll(db, es).days == db.days + Upserts(es)
    decreases |es|
  {
    if es == [] {
    } else {
      ExecAllReads(db, es[..|es| - 1]);
    }
  }

  lemma {:induction false} UpsertsAppend(es: seq<Event>, fs: seq<Event>)
    ensures Upserts(es + fs) == Upserts(es) + Upserts(fs)
    ensures Plain(es + fs) == Plain(es) + Plain(fs)
    decreases |fs|
  {
    if fs == [] {
      assert es + fs == es;
    } else {
      assert (es + fs)[..|es| + |fs| - 1] == es + fs[..|fs| - 1];
      UpsertsAppend(es, fs[..|fs| - 1]);
    }
  }

  lemma {:induction false} UpsertedDates(es: seq<Event>)
    ensures 0 in Upserts(es) <==> HasZeroDate(es)
    ensures LastDate(es) == Some(0) ==> HasZeroDate(es)
    decreases |es|
  {
    if es == [] {
    } else {
      var front, e := es[..|es| - 1], es[|es| - 1];
      UpsertedDates(front);
      assert es == front + [e];
    }
  }

  lemma LossFree(steps: seq<Step>, rest: seq<Event>, o: Outcome)
    requires NeverCut(steps)
    requires Unbroken(LastBatch(After(steps), rest), o)
    requires !o.Unavailable?
    requires ShutDown(After(steps), rest, o).dropped == 0
    ensures var (c, taken) := (After(steps), Taken(steps));
            && WithCurrent(c) == (if LastDate(taken) == Some(0) then Upserts(taken) else Upserts(taken) - {0})
            && ShutDown(c, rest, o).db == ExecAll(Db(Plain(taken), WithCurrent(c)), rest)
  {
    var c := After(steps);
    var c' := c.(batch := LastBatch(c, rest), current := None);
    FlushAhead(c', o);
    LoopKeepsEverything(steps);
    DrainedTable(c, Taken(steps), rest);
    hide ExecAll, Flush;
  }

  lemma MergedTables(table: map<int, Daily>, a: map<int, Daily>, b: map<int, Daily>, zeroLast: bool)
    requires zeroLast ==> 0 in a
    requires table == if zeroLast then a else a - {0}
    ensures table + b == a + b <==> 0 !in a || zeroLast || 0 in b
    ensures (table + b) - {0} == (a + b) - {0}
  {
    if 0 in a && !zeroLast && 0 !in b {
      assert 0 in a + b && 0 !in table + b;
    } else if 0 !in a || zeroLast {
      assert table == a;
    } else {
      assert (table + b).Keys == (a + b).Keys;
    }
  }

  /** Every event reaches the database: the plain ones once and in order, and the daily
      table is that of an upsert for every daily event in ring order, exactly when no row
      dated zero was overtaken in the loop. It holds for a database that refuses, as long
      as nothing was dropped, no fallback was cut short and the last flush was not turned
      away. */
  lemma CoalescingIsTransparent(steps: seq<Step>, rest: seq<Event>, o: Outcome)
    requires NeverCut(steps)
    requires Unbroken(LastBatch(After(steps), rest), o)
    requires !o.Unavailable?
    requires ShutDown(After(steps), rest, o).dropped == 0
    ensures var db := ShutDown(After(steps), rest, o).db;
            && db.rows == Plain(Taken(steps) + rest)
            && (db.days == Upserts(Taken(steps) + rest) <==>
                  !HasZeroDate(Taken(steps)) || LastDate(Taken(steps)) == Some(0) || HasZeroDate(rest))
            && db.days - {0} == Upserts(Taken(steps) + rest) - {0}
  {
    var c, taken := After(steps), Taken(steps);
    LossFree(steps, rest, o);
    ExecAllReads(Db(Plain(taken), WithCurrent(c)), rest);
    UpsertsAppend(taken, rest);
    UpsertedDates(taken);
    UpsertedDates(rest);
    MergedTables(WithCurrent(c), Upserts(taken), Upserts(rest), LastDate(taken) == Some(0));
    hide *;
  }

  /** A row dated zero that another date overtakes is lost. */
  lemma ZeroDateIsLost(d: Daily, d': Daily)
    requires d.date == 0 && d'.date != 0
    ensures var steps := [Take(DailyPnl(d)), Take(DailyPnl(d'))];
            && ShutDown(After(steps), [], Committed).db.days == map[d'.date := d']
            && Upserts(Taken(steps)) == map[0 := d, d'.date := d']
  {
    var e, e' := DailyPnl(d), DailyPnl(d');
    var steps := [Take(e), Take(e')];
    assert steps[..1] == [Take(e)] && steps[..1][..0] == [];
    assert After(steps[..1]) == Took(After([]), e) && Taken(steps[..1]) == [e];
    assert After(steps) == Took(Took(IDLE, e), e') && Taken(steps) == [e] + [e'];
    assert [e, e'][..1] == [e] && [e][..0] == [] && [e'][..0] == [];
    assert Upserts([e]) == map[0 := d];
    assert LastBatch(After(steps), []) == [e'];
    assert ExecAll(EMPTY_DB, [e']) == Exec(ExecAll(EMPTY_DB, []), e');
  }
}
