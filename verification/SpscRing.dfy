/** The lock-free single-producer single-consumer ring: the class, and the state machine
    of the individual loads and stores of its two threads. */
module SpscRing {
  import opened Bits

  // ---- The bounded FIFO that both forms refine ----

  function Offer<T>(q: seq<T>, capacity: nat, x: T): (bool, seq<T>) {
    if |q| < capacity then (true, q + [x]) else (false, q)
  }

  predicate ValidSize(n: nat) {
    n >= 2 && And(n, n - 1) == 0
  }

  function Advance(i: nat, n: nat): nat
    requires n >= 1
  {
    And(i + 1, n - 1)
  }

  lemma NextMod(i: nat, n: nat)
    requires n >= 1
    ensures (i + 1) % n == if i % n + 1 == n then 0 else i % n + 1
  {
    if i % n + 1 == n {
      ModUnique(i + 1, n, i / n + 1, 0);
    } else {
      ModUnique(i + 1, n, i / n, i % n + 1);
    }
  }

  /** Masking with the size minus one is reduction modulo the size. */
  lemma AdvanceIsMod(i: nat, n: nat)
    requires ValidSize(n)
    ensures Advance(i, n) == (i + 1) % n
  {
    PowerOfTwoTest(n);
    var k: nat :| n == Pow2(k);
    AndMask(i + 1, k);
  }

  lemma AdvanceWraps(i: nat, n: nat)
    requires ValidSize(n) && i < n
    ensures Advance(i, n) == if i + 1 == n then 0 else i + 1
  {
    AdvanceIsMod(i, n);
    if i + 1 == n {
      ModUnique(i + 1, n, 1, 0);
    } else {
      ModUnique(i + 1, n, 0, i + 1);
    }
  }

  /** Within a window of n consecutive positions, only its two ends share a slot. */
  lemma SameSlot(i: nat, j: nat, n: nat)
    requires n >= 1 && i <= j <= i + n
    ensures i % n == j % n <==> j == i || j == i + n
  {
    if j == i + n {
      ModUnique(j, n, i / n + 1, i % n);
    } else if i % n == j % n {
      var d := j / n - i / n;
      assert j - i == d * n;
      MulBound(d, n);
    }
  }

  // ---- The class, as one thread sees it ----

  /** Elements between tail and head, going round. */
  function Held(head: nat, tail: nat, n: nat): int {
    if head >= tail then head - tail else head + n - tail
  }

  function Slot(tail: nat, i: nat, n: nat): int {
    if tail + i < n then tail + i else tail + i - n
  }

  class Ring<T(0)> {
    const buffer: array<T>
    var head: nat
    var tail: nat

    ghost predicate Valid()
      reads this
    {
      ValidSize(buffer.Length) && head < buffer.Length && tail < buffer.Length
    }

    ghost function Contents(): (q: seq<T>)
      reads this, buffer
      requires Valid()
      ensures |q| == Held(head, tail, buffer.Length)
      ensures forall i :: 0 <= i < |q| ==> q[i] == buffer[Slot(tail, i, buffer.Length)]
    {
      seq(Held(head, tail, buffer.Length), i requires Valid() && 0 <= i < Held(head, tail, buffer.Length)
        reads this, buffer => buffer[Slot(tail, i, buffer.Length)])
    }

    constructor (n: nat)
      requires ValidSize(n)
      ensures Valid() && fresh(buffer) && buffer.Length == n && Contents() == []
    {
      buffer := new T[n];
      head, tail := 0, 0;
    }

    method Push(item: T) returns (ok: bool)
      requires Valid()
      modifies this`head, buffer
      ensures Valid()
      ensures (ok, Contents()) == Offer(old(Contents()), buffer.Length - 1, item)
    {
      var next := Advance(head, buffer.Length);
      AdvanceWraps(head, buffer.Length);
      if next == tail {
        return false;
      }
      buffer[head] := item;
      head := next;
      ok := true;
      assert Contents() == old(Contents()) + [item];
    }

    method Pop(previous: T) returns (ok: bool, out: T)
      requires Valid()
      modifies this`tail
      ensures Valid()
      ensures ok == (old(Contents()) != [])
      ensures ok ==> [out] + Contents() == old(Contents())
      ensures !ok ==> out == previous && Contents() == old(Contents())
    {
      if tail == head {
        return false, previous;
      }
      AdvanceWraps(tail, buffer.Length);
      out := buffer[tail];
      tail := Advance(tail, buffer.Length);
      ok := true;
      assert [out] + Contents() == old(Contents());
    }

    method Empty() returns (empty: bool)
      requires Valid()
      ensures empty <==> Contents() == []
    {
      empty := head == tail;
    }
  }

  // ---- Every load and store on its own ----

  /** Where the producer stands inside `push`. */
  datatype Producer<T> =
    | PIdle
    | PLoaded(item: T, slot: nat)   // head loaded
    | PWriting(item: T, slot: nat)  // tail loaded, room seen, element being copied
    | PWritten(item: T, slot: nat)  // element copied, head not yet published

  /** Where the consumer stands inside `pop`. */
  datatype Consumer<T> =
    | CIdle
    | CLoaded(slot: nat)            // tail loaded
    | CReading(slot: nat)           // head loaded, element seen
    | CTaken(slot: nat, value: T)   // element moved out, tail not yet published

  /** `pushed` and `popped` are the histories of published pushes and pops. */
  datatype State<T> = State(buf: seq<T>, head: nat, tail: nat,
                            prod: Producer<T>, cons: Consumer<T>,
                            pushed: seq<T>, popped: seq<T>)

  /** Copying an element is not atomic: while it lasts the slot may hold anything, and a
      move leaves anything behind. `junk` and `husk` are those arbitrary contents. */
  datatype Step<T> =
    | PushLoadHead(item: T) | PushLoadTail | PushTear(junk: T) | PushWrite | PushStoreHead
    | PopLoadTail | PopLoadHead | PopMove(husk: T) | PopStoreTail

  predicate Enabled<T(==)>(s: State<T>, step: Step<T>)
  {
    match step
    case PushLoadHead(_) => s.prod.PIdle?
    case PushLoadTail => s.prod.PLoaded?
    case PushTear(_) => s.prod.PWriting? && s.prod.slot < |s.buf|
    case PushWrite => s.prod.PWriting? && s.prod.slot < |s.buf|
    case PushStoreHead => s.prod.PWritten?
    case PopLoadTail => s.cons.CIdle?
    case PopLoadHead => s.cons.CLoaded?
    case PopMove(_) => s.cons.CReading? && s.cons.slot < |s.buf|
    case PopStoreTail => s.cons.CTaken?
  }

  function Apply<T>(s: State<T>, step: Step<T>): State<T>
    requires Enabled(s, step) && |s.buf| >= 1
  {
    var n := |s.buf|;
    match step
    case PushLoadHead(item) => s.(prod := PLoaded(item, s.head))
    case PushLoadTail =>
      if Advance(s.prod.slot, n) == s.tail then s.(prod := PIdle)  // returns false
      else s.(prod := PWriting(s.prod.item, s.prod.slot))
    case PushTear(junk) => s.(buf := s.buf[s.prod.slot := junk])
    case PushWrite =>
      s.(buf := s.buf[s.prod.slot := s.prod.item], prod := PWritten(s.prod.item, s.prod.slot))
    case PushStoreHead =>                                           // returns true
      s.(head := Advance(s.prod.slot, n), prod := PIdle, pushed := s.pushed + [s.prod.item])
    case PopLoadTail => s.(cons := CLoaded(s.tail))
    case PopLoadHead =>
      if s.cons.slot == s.head then s.(cons := CIdle)               // returns false
      else s.(cons := CReading(s.cons.slot))
    case PopMove(husk) =>
      s.(buf := s.buf[s.cons.slot := husk], cons := CTaken(s.cons.slot, s.buf[s.cons.slot]))
    case PopStoreTail =>                                            // returns true
      s.(tail := Advance(s.cons.slot, n), cons := CIdle, popped := s.popped + [s.cons.value])
  }

  /** The abstract queue: published and not yet released. */
  function Queue<T>(s: State<T>): seq<T>
    requires |s.popped| <= |s.pushed|
  {
    s.pushed[|s.popped|..]
  }

  ghost predicate Inv<T>(s: State<T>) {
    var n, p, c := |s.buf|, |s.pushed|, |s.popped|;
    && ValidSize(n)
    && c <= p <= c + n - 1
    && s.head == p % n && s.tail == c % n
    && s.popped <= s.pushed
    && (forall i :: (if s.cons.CTaken? then c + 1 else c) <= i < p ==> s.buf[i % n] == s.pushed[i])
    && (!s.prod.PIdle? ==> s.prod.slot == s.head)
    && (s.prod.PWriting? || s.prod.PWritten? ==> p < c + n - 1)
    && (s.prod.PWritten? ==> s.buf[p % n] == s.prod.item)
    && (!s.cons.CIdle? ==> s.cons.slot == s.tail)
    && (s.cons.CReading? || s.cons.CTaken? ==> c < p)
    && (s.cons.CTaken? ==> s.cons.value == s.pushed[c])
  }

  ghost predicate Initial<T>(s: State<T>) {
    && ValidSize(|s.buf|) && s.head == 0 && s.tail == 0
    && s.prod == PIdle && s.cons == CIdle && s.pushed == [] && s.popped == []
  }

  lemma FullTest<T>(s: State<T>)
    requires Inv(s)
    ensures Advance(s.head, |s.buf|) == (|s.pushed| + 1) % |s.buf|
    ensures Advance(s.tail, |s.buf|) == (|s.popped| + 1) % |s.buf|
    ensures Advance(s.head, |s.buf|) == s.tail <==> |s.pushed| == |s.popped| + |s.buf| - 1
    ensures s.head == s.tail <==> |s.pushed| == |s.popped|
  {
    var n, p, c := |s.buf|, |s.pushed|, |s.popped|;
    AdvanceWraps(s.head, n);
    AdvanceWraps(s.tail, n);
    NextMod(p, n);
    NextMod(c, n);
    SameSlot(c, p + 1, n);
    SameSlot(c, p, n);
  }

  /** The producer's slot and the live slots never coincide while it writes; the consumer's
      slot is distinct from every other live slot and from the producer's. */
  lemma SlotsApart<T>(s: State<T>)
    requires Inv(s)
    ensures s.prod.PWriting? || s.prod.PWritten? ==>
              forall i :: |s.popped| <= i < |s.pushed| ==> i % |s.buf| != |s.pushed| % |s.buf|
    ensures s.cons.CReading? || s.cons.CTaken? ==>
              forall i :: |s.popped| < i < |s.pushed| ==> i % |s.buf| != |s.popped| % |s.buf|
    ensures (s.prod.PWriting? || s.prod.PWritten?) && (s.cons.CReading? || s.cons.CTaken?) ==>
              s.prod.slot != s.cons.slot
  {
    var n, p, c := |s.buf|, |s.pushed|, |s.popped|;
    if s.prod.PWriting? || s.prod.PWritten? {
      forall i | c <= i < p ensures i % n != p % n { SameSlot(i, p, n); }
    }
    if s.cons.CReading? || s.cons.CTaken? {
      forall i | c < i < p ensures i % n != c % n { SameSlot(c, i, n); }
    }
    if c < p {
      assert p < c + n - 1 ==> c % n != p % n by { SameSlot(c, p, n); }
    }
  }

  lemma StepKeepsInv<T>(s: State<T>, step: Step<T>)
    requires Inv(s) && Enabled(s, step)
    ensures Inv(Apply(s, step)) && |Apply(s, step).buf| == |s.buf|
  {
    var n, p, c := |s.buf|, |s.pushed|, |s.popped|;
    FullTest(s);
    match step
    case PushLoadHead(_) =>
    case PushLoadTail =>
    case PushTear(_) => SlotsApart(s);
    case PushWrite => SlotsApart(s);
    case PushStoreHead =>
    case PopLoadTail =>
    case PopLoadHead =>
    case PopMove(_) => SlotsApart(s);
    case PopStoreTail =>
  }

  /** One load or store, seen from the queue. */
  ghost predicate FifoStep<T>(s: State<T>, step: Step<T>, s': State<T>)
    requires Enabled(s, step) && |s.buf| >= 1
    requires |s.popped| <= |s.pushed| && |s'.popped| <= |s'.pushed|
  {
    match step
    case PushLoadTail =>
      Queue(s') == Queue(s) &&
      (s'.prod.PIdle? <==> !Offer(Queue(s), |s.buf| - 1, s.prod.item).0)
    case PushStoreHead => (true, Queue(s')) == Offer(Queue(s), |s.buf| - 1, s.prod.item)
    case PopLoadHead => Queue(s') == Queue(s) && (s'.cons.CIdle? <==> Queue(s) == [])
    case PopStoreTail => Queue(s) == [s.cons.value] + Queue(s')
    case _ => Queue(s') == Queue(s)
  }

  /** Every load and store is a step of the bounded FIFO or leaves it alone: a push takes
      effect when head is stored, a pop when tail is stored, and a refusal is the FIFO's
      own at the moment the other thread's index is loaded. */
  lemma StepRefinesFifo<T>(s: State<T>, step: Step<T>)
    requires Inv(s) && Enabled(s, step)
    ensures |Apply(s, step).popped| <= |Apply(s, step).pushed|
    ensures FifoStep(s, step, Apply(s, step))
  {
    assert s.popped <= s.pushed;
    if step.PushLoadTail? || step.PopLoadHead? {
      FullTest(s);
    } else if step.PushStoreHead? {
      var item := s.prod.item;
      assert (s.pushed + [item])[|s.popped|..] == s.pushed[|s.popped|..] + [item];
    } else if step.PopStoreTail? {
      assert s.pushed[|s.popped|] == s.cons.value;
      assert s.pushed[|s.popped|..] == [s.cons.value] + s.pushed[|s.popped| + 1..];
    }
  }

  // ---- Whole runs ----

  ghost predicate IsRun<T>(s: State<T>, steps: seq<Step<T>>)
    decreases |steps|
  {
    steps == [] ||
    (|s.buf| >= 1 && Enabled(s, steps[0]) && IsRun(Apply(s, steps[0]), steps[1..]))
  }

  ghost function After<T>(s: State<T>, steps: seq<Step<T>>): State<T>
    requires IsRun(s, steps)
    decreases |steps|
  {
    if steps == [] then s else After(Apply(s, steps[0]), steps[1..])
  }

  lemma {:induction false} RunKeepsInv<T>(s: State<T>, steps: seq<Step<T>>)
    requires Inv(s) && IsRun(s, steps)
    ensures Inv(After(s, steps)) && |After(s, steps).buf| == |s.buf|
    decreases |steps|
  {
    if steps == [] {
    } else {
      StepKeepsInv(s, steps[0]);
      RunKeepsInv(Apply(s, steps[0]), steps[1..]);
    }
  }

  /** Under every interleaving: what was popped is a prefix of what was pushed, at most
      size - 1 elements are held, and the slot being written is never the slot being read. */
  lemma RingIsSafe<T>(s: State<T>, steps: seq<Step<T>>)
    requires Initial(s) && IsRun(s, steps)
    ensures var t := After(s, steps);
            && t.popped <= t.pushed
            && |t.pushed| - |t.popped| <= |s.buf| - 1
            && (t.prod.PWriting? && t.cons.CReading? ==> t.prod.slot != t.cons.slot)
            && (t.cons.CTaken? ==> |t.popped| < |t.pushed| && t.cons.value == t.pushed[|t.popped|])
  {
    RunKeepsInv(s, steps);
    SlotsApart(After(s, steps));
  }

  /** In every run, every next load or store is a step of the bounded FIFO. */
  lemma RunRefinesFifo<T>(s: State<T>, steps: seq<Step<T>>, step: Step<T>)
    requires Initial(s) && IsRun(s, steps) && Enabled(After(s, steps), step)
    ensures Inv(After(s, steps)) && Inv(Apply(After(s, steps), step))
    ensures FifoStep(After(s, steps), step, Apply(After(s, steps), step))
  {
    RunKeepsInv(s, steps);
    StepKeepsInv(After(s, steps), step);
    StepRefinesFifo(After(s, steps), step);
  }
}
