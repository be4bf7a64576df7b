/** The ready and event queues: queueing a station and scheduling its completion. */
module RuuQueueProof {
  import opened RuuTypes
  import opened RuuSteps
  import opened RuuInvariants
  import opened RuuLists
  import opened RuuFrame

  /** Station `x` may be put on the ready queue. */
  ghost predicate MayQueue(c: Core, x: nat)
    requires |c.st| == c.R + c.L
  {
    && Live(c, x) && c.st[x].AllReady() && !c.st[x].issued && !c.st[x].queued
    && (c.st[x].eaComp ==> c.st[x].onames.a == DTMP)
    && (c.st[x].inLsq ==> c.st[x].inames.b == DTMP)
    && (c.st[x].kind == Load && x >= c.R ==> LoadSafe(c, x))
  }

  lemma MayQueueParts(c: Core, x: nat)
    requires |c.st| == c.R + c.L && MayQueue(c, x)
    ensures Live(c, x) && x < |c.st| && !c.st[x].queued && !c.st[x].issued
  {
  }

  /** What `Enqueue` does to the state. */
  ghost predicate Enqueued(c: Core, x: nat, b: Core) {
    && x < |c.st| && c.free != []
    && b == With(c, x, c.st[x].(queued := true)).(free := c.free[1..], readyq := b.readyq)
    && Keys(b.readyq) == Keys(c.readyq) + multiset{Key(x, c.st[x].tag, 0)}
    && Ids(b.readyq) == Ids(c.readyq) + multiset{c.free[0]}
    && (forall l :: l in b.readyq ==> l == NewLink(c, x, c.st[x].num) || l in c.readyq)
  }

  lemma EnqueueResult(c: Core, x: nat)
    requires Shape(c) && x < |c.st| && !c.st[x].queued && c.free != []
    ensures Enqueue(c, x).Ok? && Enqueued(c, x, Enqueue(c, x).core)
  {
    var n := NewLink(c, x, c.st[x].num);
    InsertFacts(c.readyq, n);
    PushFacts(n, c.readyq);
  }

  lemma EnqueueKeeps(c: Core, x: nat, f: Flight, pool: nat)
    requires Sound(c, f, pool) && MayQueue(c, x)
    ensures Enqueue(c, x) == Stop(OutOfLinks) || Enqueue(c, x).Ok?
    ensures Enqueue(c, x).Ok? ==>
              && Sound(Enqueue(c, x).core, f.(w := f.w - {x}), pool)
              && (SpecVector(c, f.d) ==> SpecVector(Enqueue(c, x).core, f.d))
  {
    if c.free != [] {
      EnqueueResult(c, x);
      EnqueuedKeeps(c, x, Enqueue(c, x).core, f, pool);
    }
  }

  lemma EnqueuedKeeps(c: Core, x: nat, b: Core, f: Flight, pool: nat)
    requires Sound(c, f, pool) && MayQueue(c, x) && Enqueued(c, x, b)
    ensures Sound(b, f.(w := f.w - {x}), pool)
    ensures SpecVector(c, f.d) ==> SpecVector(b, f.d)
  {
    hide *;
    SplitSound(c, f, pool);
    MayQueueParts(c, x);
    EnqueueFrame(c, x, b, f.d);
    FrameSkeleton(c, b);
    FrameSpeculation(c, b, f.e, f.e);
    FrameVectors(c, b, f.d, f.d);
    FrameMemory(c, b);
    FrameOperands(c, b, f.d, f.d);
    FrameChains(c, b, f.d, f.d);
    EnqueueLists(c, x, b, f.pend, f.held, pool);
    EnqueueQueues(c, x, b, f.pend);
    EnqueueStatus(c, x, b, f.w);
    JoinSound(b, f.(w := f.w - {x}), pool);
  }

  lemma EnqueueFrame(c: Core, x: nat, b: Core, d: int)
    requires Shape(c) && MayQueue(c, x) && Enqueued(c, x, b)
    ensures Shape(b) && Frame(c, b) && Completes(c, b, d) && b.events == c.events && b.cycle == c.cycle
    ensures Timely(c) ==> Timely(b)
    ensures SameOperands(c, b) && ReadyGrows(c, b) && SafeStarts(c, b) && (forall e :: SameBranches(c, b, e, e))
  {
    hide Keys, Ids, Order;
  }

  lemma EnqueueStatus(c: Core, x: nat, b: Core, w: set<nat>)
    requires Shape(c) && MayQueue(c, x) && Enqueued(c, x, b) && Status(c, w)
    ensures Status(b, w - {x})
  {
    forall z: nat | Live(b, z) ensures StatusOk(b, b.st[z], z, w - {x}) {
      assert Live(c, z) && StatusOk(c, c.st[z], z, w);
    }
  }

  lemma EnqueueLinks(c: Core, x: nat, b: Core, pend: seq<Link>)
    requires Shape(c) && Live(c, x) && Enqueued(c, x, b) && LinksOk(c, pend) && Order(c)
    ensures LinksOk(b, pend)
  {
    assert LinkOk(c, NewLink(c, x, c.st[x].num));
    FrameLinks(c, b, pend, pend);
  }

  lemma EnqueueLists(c: Core, x: nat, b: Core, pend: seq<Link>, held: multiset<nat>, pool: nat)
    requires Shape(c) && Live(c, x) && Enqueued(c, x, b)
    requires LinksOk(c, pend) && Conserved(c, pend, held, pool) && Order(c)
    ensures LinksOk(b, pend) && Conserved(b, pend, held, pool)
  {
    EnqueueLinks(c, x, b, pend);
    SameChainIds(c.st, x, b.st[x]);
    hide LinksOk, Order, Shape, ChainIds, Ids;
    MoveRecord(c, b, pend);
  }

  lemma EnqueueQueues(c: Core, x: nat, b: Core, pend: seq<Link>)
    requires Shape(c) && Live(c, x) && !c.st[x].queued && Queues(c, pend) && Enqueued(c, x, b)
    ensures Queues(b, pend)
  {
    hide Keys, Ids;
    var k := Key(x, c.st[x].tag, 0);
    forall z: nat | Live(b, z) ensures QueueOk(b, pend, z) {
      assert Live(c, z) && QueueOk(c, pend, z);
      AddKey(Keys(c.readyq), Keys(b.readyq), k, Key(z, c.st[z].tag, 0));
    }
  }

  // ----- scheduling a completion -----

  /** What issuing `x` with a completion event at `when` does to the state. */
  ghost predicate Scheduled(c: Core, x: nat, when: nat, b: Core) {
    && x < |c.st| && c.free != [] && when > c.cycle
    && b == With(c, x, c.st[x].(issued := true)).(free := c.free[1..], events := b.events)
    && Keys(b.events) == Keys(c.events) + multiset{Key(x, c.st[x].tag, 0)}
    && Ids(b.events) == Ids(c.events) + multiset{c.free[0]}
    && (forall l :: l in b.events ==> l == NewLink(c, x, when) || l in c.events)
    && (Sorted(c.events) ==> Sorted(b.events))
  }

  lemma ScheduleResult(c: Core, x: nat, when: nat)
    requires Shape(c) && x < |c.st| && !c.st[x].completed && c.free != [] && when > c.cycle
    ensures var r := QueueEvent(With(c, x, c.st[x].(issued := true)), x, when);
            r.Ok? && Scheduled(c, x, when, r.core)
  {
    var n := NewLink(c, x, when);
    InsertFacts(c.events, n);
    if Sorted(c.events) {
      InsertSorted(c.events, n);
    }
  }

  lemma ScheduledKeeps(c: Core, x: nat, when: nat, b: Core, f: Flight, pool: nat)
    requires Sound(c, f, pool) && MayQueue(c, x) && !c.st[x].completed && Scheduled(c, x, when, b)
    ensures Sound(b, f.(w := f.w - {x}), pool)
    ensures SpecVector(c, f.d) ==> SpecVector(b, f.d)
  {
    hide *;
    SplitSound(c, f, pool);
    MayQueueParts(c, x);
    ScheduleFrame(c, x, when, b, f.d);
    FrameSkeleton(c, b);
    FrameSpeculation(c, b, f.e, f.e);
    FrameVectors(c, b, f.d, f.d);
    FrameMemory(c, b);
    FrameOperands(c, b, f.d, f.d);
    FrameChains(c, b, f.d, f.d);
    ScheduleLists(c, x, when, b, f.pend, f.held, pool);
    ScheduleTime(c, x, when, b);
    ScheduleQueues(c, x, when, b, f.pend);
    ScheduleStatus(c, x, when, b, f.w);
    JoinSound(b, f.(w := f.w - {x}), pool);
  }

  lemma ScheduleFrame(c: Core, x: nat, when: nat, b: Core, d: int)
    requires Shape(c) && MayQueue(c, x) && Scheduled(c, x, when, b)
    ensures Shape(b) && Frame(c, b) && Completes(c, b, d)
    ensures SameOperands(c, b) && ReadyGrows(c, b) && SafeStarts(c, b) && (forall e :: SameBranches(c, b, e, e))
  {
    hide Keys, Ids, Order;
  }

  lemma ScheduleTime(c: Core, x: nat, when: nat, b: Core)
    requires Scheduled(c, x, when, b) && Timely(c)
    ensures Timely(b)
  {
    assert Sorted(c.events);
    assert Sorted(b.events);
  }

  lemma ScheduleStatus(c: Core, x: nat, when: nat, b: Core, w: set<nat>)
    requires Shape(c) && MayQueue(c, x) && Scheduled(c, x, when, b) && Status(c, w)
    ensures Status(b, w - {x})
  {
    forall z: nat | Live(b, z) ensures StatusOk(b, b.st[z], z, w - {x}) {
      assert Live(c, z) && StatusOk(c, c.st[z], z, w);
    }
  }

  lemma ScheduleLinks(c: Core, x: nat, when: nat, b: Core, pend: seq<Link>)
    requires Shape(c) && Live(c, x) && Scheduled(c, x, when, b) && LinksOk(c, pend) && Order(c)
    ensures LinksOk(b, pend)
  {
    hide Ids, Keys, Sorted;
    assert LinkOk(c, NewLink(c, x, when));
    FrameLinks(c, b, pend, pend);
  }

  lemma ScheduleLists(c: Core, x: nat, when: nat, b: Core, pend: seq<Link>, held: multiset<nat>, pool: nat)
    requires Shape(c) && Live(c, x) && Scheduled(c, x, when, b)
    requires LinksOk(c, pend) && Conserved(c, pend, held, pool) && Order(c)
    ensures LinksOk(b, pend) && Conserved(b, pend, held, pool)
  {
    ScheduleLinks(c, x, when, b, pend);
    SameChainIds(c.st, x, b.st[x]);
    hide LinksOk, Order, Shape, ChainIds, Ids;
    MoveRecord(c, b, pend);
  }

  lemma ScheduleQueues(c: Core, x: nat, when: nat, b: Core, pend: seq<Link>)
    requires Shape(c) && Live(c, x) && !c.st[x].issued && !c.st[x].completed && Queues(c, pend) && Scheduled(c, x, when, b)
    ensures Queues(b, pend)
  {
    ScheduleSameLive(c, x, when, b);
    forall z: nat | Live(b, z) ensures QueueOk(b, pend, z) {
      assert QueueOk(c, pend, z);
      ScheduleQueue(c, x, when, b, pend, z);
    }
  }

  lemma ScheduleSameLive(c: Core, x: nat, when: nat, b: Core)
    requires Shape(c) && Scheduled(c, x, when, b)
    ensures |b.st| == b.R + b.L && forall z: nat :: Live(b, z) <==> Live(c, z)
  {
    hide Keys, Ids, Sorted;
  }

  lemma ScheduleQueue(c: Core, x: nat, when: nat, b: Core, pend: seq<Link>, z: nat)
    requires Scheduled(c, x, when, b) && z < |c.st| && !c.st[x].issued && !c.st[x].completed && QueueOk(c, pend, z)
    ensures |b.st| == |c.st| && QueueOk(b, pend, z)
  {
    hide Keys, Ids, Sorted;
    AddKey(Keys(c.events), Keys(b.events), Key(x, c.st[x].tag, 0), Key(z, c.st[z].tag, 0));
  }
}
