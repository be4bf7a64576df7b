/** Taking a due event: a stale one is dropped, a valid one completes its station. */
module RuuEventProof {
  import opened RuuTypes
  import opened RuuSteps
  import opened RuuInvariants
  import opened RuuLists
  import opened RuuFrame

  function Popped(c: Core): Core
    requires c.events != []
  {
    c.(events := c.events[1..], free := [c.events[0].id] + c.free)
  }

  function MarkCompleted(c: Core, r: nat): Core
    requires r < |c.st|
  {
    With(c, r, c.st[r].(completed := true))
  }

  lemma PoppedFrame(c: Core)
    requires Shape(c) && c.events != [] && Timely(c)
    ensures var b := Popped(c);
            && Shape(b) && Frame(c, b) && Completes(c, b, -1) && Timely(b)
            && SameOperands(c, b) && ReadyGrows(c, b) && SafeStarts(c, b) && SameBranches(c, b, -1, -1)
  {
    var b := Popped(c);
    assert forall l :: l in b.events ==> l in c.events;
  }

  lemma PoppedLists(c: Core, pool: nat)
    requires Shape(c) && c.events != [] && LinksOk(c, []) && Conserved(c, [], multiset{}, pool)
    ensures LinksOk(Popped(c), []) && Conserved(Popped(c), [], multiset{}, pool) && LinkOk(c, c.events[0])
  {
    var b, l := Popped(c), c.events[0];
    assert l in c.events;
    FrameLive(c, b);
    FrameLinks(c, b, [], []);
    PoppedIds(c);
  }

  lemma PoppedIds(c: Core)
    requires c.events != []
    ensures AllIds(Popped(c), []) == AllIds(c, [])
  {
    PushFacts(c.events[0], c.events[1..]);
    assert c.events == [c.events[0]] + c.events[1..];
  }

  lemma PoppedQueues(c: Core)
    requires Shape(c) && c.events != [] && !Valid(c, c.events[0]) && Queues(c, [])
    ensures Queues(Popped(c), [])
  {
    var b, l := Popped(c), c.events[0];
    PushFacts(l, b.events);
    assert c.events == [l] + b.events;
    forall z: nat | Live(b, z) ensures QueueOk(b, [], z) {
      assert Live(c, z) && QueueOk(c, [], z);
    }
  }

  lemma PoppedStatus(c: Core)
    requires Shape(c) && c.events != [] && Status(c, {})
    ensures Status(Popped(c), {})
  {
    var b := Popped(c);
    forall z: nat | Live(b, z) ensures StatusOk(b, b.st[z], z, {}) {
      assert Live(c, z) && StatusOk(c, c.st[z], z, {});
    }
  }

  /** A squashed instance's event is dropped. */
  lemma StaleEventKeeps(c: Core, pool: nat)
    requires Inv(c, pool) && c.events != [] && !Valid(c, c.events[0])
    ensures Inv(Popped(c), pool)
  {
    var b := Popped(c);
    IdleSplit(c, pool);
    hide *;
    PoppedFrame(c);
    FrameSkeleton(c, b);
    FrameSpeculation(c, b, -1, -1);
    FrameVectors(c, b, -1, -1);
    FrameMemory(c, b);
    FrameOperands(c, b, -1, -1);
    FrameChains(c, b, -1, -1);
    PoppedLists(c, pool);
    PoppedQueues(c);
    PoppedStatus(c);
    IdleJoin(b, pool);
  }

  lemma IdleSplit(c: Core, pool: nat)
    requires Inv(c, pool)
    ensures Shape(c) && |c.st| == c.R + c.L && |c.cv| == MD_TOTAL_REGS && |c.scv| == MD_TOTAL_REGS
    ensures Order(c) && Pairs(c) && Speculation(c, -1) && LinksOk(c, []) && Status(c, {}) && Queues(c, [])
    ensures BaseVector(c, -1) && SpecVector(c, -1) && Operands(c, -1) && Chains(c, -1)
    ensures MemoryOrder(c) && Timely(c) && Conserved(c, [], multiset{}, pool)
  {
    SplitSound(c, IDLE, pool);
  }

  lemma IdleJoin(c: Core, pool: nat)
    requires Shape(c)
    requires Order(c) && Pairs(c) && Speculation(c, -1) && LinksOk(c, []) && Status(c, {}) && Queues(c, [])
    requires BaseVector(c, -1) && SpecVector(c, -1) && Operands(c, -1) && Chains(c, -1)
    requires MemoryOrder(c) && Timely(c) && Conserved(c, [], multiset{}, pool)
    ensures Inv(c, pool)
  {
    JoinSound(c, IDLE, pool);
  }

  // ----- a valid event -----

  /** A due event of a live instance finds it executing: completion cannot panic. */
  lemma EventStation(c: Core)
    requires Shape(c) && c.events != [] && Valid(c, c.events[0]) && LinkOk(c, c.events[0])
    requires Queues(c, []) && Status(c, {})
    ensures var r := c.events[0].rs;
            && Live(c, r) && c.st[r].AllReady() && !c.st[r].queued && c.st[r].issued && !c.st[r].completed
            && (c.st[r].inLsq ==> !c.st[r].recoverInst) && (c.st[r].inLsq <==> r >= c.R)
  {
    var l := c.events[0];
    hide Keys, OpKeys;
    SomeKey(c.events, l);
    assert QueueOk(c, [], l.rs);
    hide QueueOk, Queues;
    assert StatusOk(c, c.st[l.rs], l.rs, {});
  }

  function BranchOf(c: Core, r: nat): int
    requires r < |c.st|
  {
    if c.st[r].recoverInst then r else -1
  }

  /** Station `r` has completed; its result is about to be broadcast. */
  function Completing(c: Core, r: nat): Flight
    requires r < |c.st|
  {
    IDLE.(d := r, e := BranchOf(c, r))
  }

  lemma CompletedFrame(c: Core, r: nat)
    requires Shape(c) && c.events != [] && Timely(c) && r < |c.st| && c.st[r].issued && !c.st[r].completed
    ensures var b := MarkCompleted(Popped(c), r);
            && Shape(b) && Frame(c, b) && Completes(c, b, r) && Timely(b)
            && SameOperands(c, b) && ReadyGrows(c, b) && SafeStarts(c, b) && SameBranches(c, b, -1, BranchOf(c, r))
  {
    var b := MarkCompleted(Popped(c), r);
    assert forall l :: l in b.events ==> l in c.events;
  }

  lemma CompletedLists(c: Core, r: nat, pool: nat)
    requires Shape(c) && c.events != [] && r < |c.st| && LinksOk(c, []) && Conserved(c, [], multiset{}, pool)
    ensures var b := MarkCompleted(Popped(c), r); LinksOk(b, []) && Conserved(b, [], multiset{}, pool)
  {
    var a, b := Popped(c), MarkCompleted(Popped(c), r);
    PoppedLists(c, pool);
    FrameLive(a, b);
    FrameLinks(a, b, [], []);
    SameChainIds(a.st, r, b.st[r]);
  }

  lemma RemoveKey(a: multiset<Key>, b: multiset<Key>, k: Key, m: Key)
    requires a == b + multiset{k}
    ensures a[m] == b[m] + (if m == k then 1 else 0)
  {
  }

  lemma CompletedQueues(c: Core, r: nat, b: Core)
    requires Shape(c) && c.events != [] && Valid(c, c.events[0]) && LinkOk(c, c.events[0]) && r == c.events[0].rs
    requires Queues(c, []) && Status(c, {}) && b == MarkCompleted(Popped(c), r)
    ensures Queues(b, [])
  {
    var l := c.events[0];
    EventStation(c);
    assert Keys([]) == multiset{};
    hide Keys, Ids, OpKeys, Status;
    PushFacts(l, b.events);
    assert c.events == [l] + b.events;
    assert forall z: nat :: Live(b, z) ==> Live(c, z);
    forall z: nat | Live(b, z) ensures QueueOk(b, [], z) {
      assert QueueOk(c, [], z);
      CompletedQueue(c, r, b, z);
    }
  }

  lemma CompletedQueue(c: Core, r: nat, b: Core, z: nat)
    requires c.events != [] && r < |c.st| && z < |c.st| && b == MarkCompleted(Popped(c), r)
    requires Keys(c.events) == Keys(b.events) + multiset{Key(r, c.st[r].tag, 0)}
    requires QueueOk(c, [], z) && (z == r ==> c.st[r].issued && !c.st[r].completed)
    ensures QueueOk(b, [], z)
  {
    RemoveKey(Keys(c.events), Keys(b.events), Key(r, c.st[r].tag, 0), Key(z, c.st[z].tag, 0));
    hide Keys;
  }

  lemma CompletedStatus(c: Core, r: nat, b: Core)
    requires Shape(c) && c.events != [] && r < |c.st| && c.st[r].issued && Status(c, {})
    requires b == MarkCompleted(Popped(c), r)
    ensures Status(b, {})
  {
    forall z: nat | Live(b, z) ensures StatusOk(b, b.st[z], z, {}) {
      assert Live(c, z) && StatusOk(c, c.st[z], z, {});
    }
  }

  lemma ValidEventKeeps(c: Core, r: nat, pool: nat)
    requires Inv(c, pool) && c.events != [] && Valid(c, c.events[0]) && r == c.events[0].rs
    ensures var b := MarkCompleted(Popped(c), r);
            && r < |c.st| && Sound(b, Completing(c, r), pool) && SpecVector(b, r)
    ensures Live(c, r) && c.st[r].AllReady() && !c.st[r].queued && c.st[r].issued && !c.st[r].completed
    ensures c.st[r].inLsq ==> !c.st[r].recoverInst
    ensures c.st[r].inLsq <==> r >= c.R
  {
    var b := MarkCompleted(Popped(c), r);
    IdleSplit(c, pool);
    hide *;
    PoppedLists(c, pool);
    EventStation(c);
    CompletedFrame(c, r);
    FrameSkeleton(c, b);
    FrameSpeculation(c, b, -1, BranchOf(c, r));
    FrameVectors(c, b, -1, r);
    FrameMemory(c, b);
    FrameOperands(c, b, -1, r);
    FrameChains(c, b, -1, r);
    CompletedLists(c, r, pool);
    CompletedQueues(c, r, b);
    CompletedStatus(c, r, b);
    CompletedJoin(b, c, r, pool);
  }

  lemma CompletedJoin(b: Core, c: Core, r: nat, pool: nat)
    requires Shape(b) && r < |c.st|
    requires Order(b) && Pairs(b) && Speculation(b, BranchOf(c, r)) && LinksOk(b, []) && Status(b, {}) && Queues(b, [])
    requires BaseVector(b, r) && Operands(b, r) && Chains(b, r)
    requires MemoryOrder(b) && Timely(b) && Conserved(b, [], multiset{}, pool)
    ensures Sound(b, Completing(c, r), pool)
  {
    JoinSound(b, Completing(c, r), pool);
  }
}
