/** Issue: draining the old ready list keeps the invariant and reaches no panic. */
module RuuIssueProof {
  import opened RuuTypes
  import opened RuuSteps
  import opened RuuInvariants
  import opened RuuLists
  import opened RuuFrame
  import opened RuuQueueProof

  function Free(c: Core, id: nat): Core { c.(free := [id] + c.free) }

  function Holding(f: Flight, id: nat): Flight { f.(held := f.held + multiset{id}) }

  /** A record in hand goes back to the free list. */
  lemma FreeKeeps(c: Core, f: Flight, id: nat, pool: nat)
    requires Sound(c, Holding(f, id), pool)
    ensures Sound(Free(c, id), f, pool)
    ensures SpecVector(c, f.d) ==> SpecVector(Free(c, id), f.d)
  {
    var b := Free(c, id);
    FreeSplit(c, f, id, pool);
    hide *;
    FreeFrame(c, f, id, pool);
    FrameSkeleton(c, b);
    FrameSpeculation(c, b, f.e, f.e);
    FrameVectors(c, b, f.d, f.d);
    FrameMemory(c, b);
    FrameOperands(c, b, f.d, f.d);
    FrameChains(c, b, f.d, f.d);
    FreeQueues(c, id, f);
    JoinSound(b, f, pool);
  }

  lemma FreeSplit(c: Core, f: Flight, id: nat, pool: nat)
    requires Sound(c, Holding(f, id), pool)
    ensures Shape(c) && |c.st| == c.R + c.L && |c.cv| == MD_TOTAL_REGS && |c.scv| == MD_TOTAL_REGS
    ensures Order(c) && Pairs(c) && Speculation(c, f.e) && LinksOk(c, f.pend) && Status(c, f.w) && Queues(c, f.pend)
    ensures BaseVector(c, f.d) && Operands(c, f.d) && Chains(c, f.d)
    ensures MemoryOrder(c) && Timely(c) && Conserved(c, f.pend, f.held + multiset{id}, pool)
  {
    SplitSound(c, Holding(f, id), pool);
  }

  lemma FreeFrame(c: Core, f: Flight, id: nat, pool: nat)
    requires Shape(c) && LinksOk(c, f.pend) && Timely(c) && Conserved(c, f.pend, f.held + multiset{id}, pool)
    ensures var b := Free(c, id);
            && Shape(b) && Frame(c, b) && Completes(c, b, f.d) && Timely(b) && LinksOk(b, f.pend)
            && SameOperands(c, b) && ReadyGrows(c, b) && SafeStarts(c, b) && SameBranches(c, b, f.e, f.e)
            && Conserved(b, f.pend, f.held, pool)
  {
    var b := Free(c, id);
    FrameLive(c, b);
    FrameLinks(c, b, f.pend, f.pend);
    assert AllIds(b, f.pend) == AllIds(c, f.pend) + multiset{id};
  }

  lemma FreeQueues(c: Core, id: nat, f: Flight)
    requires Shape(c) && Queues(c, f.pend) && Status(c, f.w)
    ensures Queues(Free(c, id), f.pend) && Status(Free(c, id), f.w)
  {
    var b := Free(c, id);
    forall z: nat | Live(b, z) ensures QueueOk(b, f.pend, z) && StatusOk(b, b.st[z], z, f.w) {
      assert Live(c, z) && QueueOk(c, f.pend, z) && StatusOk(c, c.st[z], z, f.w);
    }
  }

  // ----- one link of the old ready list -----

  lemma TakeSplit(c: Core, f: Flight, l: Link, pool: nat)
    requires Sound(c, f.(pend := [l] + f.pend), pool)
    ensures Shape(c) && |c.st| == c.R + c.L && |c.cv| == MD_TOTAL_REGS && |c.scv| == MD_TOTAL_REGS
    ensures Order(c) && Pairs(c) && Speculation(c, f.e) && LinksOk(c, [l] + f.pend) && Status(c, f.w)
    ensures Queues(c, [l] + f.pend)
    ensures BaseVector(c, f.d) && Operands(c, f.d) && Chains(c, f.d)
    ensures MemoryOrder(c) && Timely(c) && Conserved(c, [l] + f.pend, f.held, pool)
  {
    SplitSound(c, f.(pend := [l] + f.pend), pool);
  }

  /** Taking a stale link off the list. */
  lemma DropKeeps(c: Core, f: Flight, l: Link, pool: nat)
    requires Sound(c, f.(pend := [l] + f.pend), pool) && !Valid(c, l)
    ensures Sound(c, Holding(f, l.id), pool)
  {
    TakeSplit(c, f, l, pool);
    hide *;
    DropLists(c, f, l, pool);
    DropQueues(c, f.pend, l);
    DropJoin(c, f, l, pool);
  }

  lemma DropJoin(c: Core, f: Flight, l: Link, pool: nat)
    requires Shape(c)
    requires Order(c) && Pairs(c) && Speculation(c, f.e) && LinksOk(c, f.pend) && Status(c, f.w) && Queues(c, f.pend)
    requires BaseVector(c, f.d) && Operands(c, f.d) && Chains(c, f.d)
    requires MemoryOrder(c) && Timely(c) && Conserved(c, f.pend, f.held + multiset{l.id}, pool)
    ensures Sound(c, Holding(f, l.id), pool)
  {
    JoinSound(c, Holding(f, l.id), pool);
  }

  lemma DropLists(c: Core, f: Flight, l: Link, pool: nat)
    requires Shape(c) && LinksOk(c, [l] + f.pend) && Conserved(c, [l] + f.pend, f.held, pool)
    ensures LinksOk(c, f.pend) && Conserved(c, f.pend, f.held + multiset{l.id}, pool) && LinkOk(c, l)
  {
    PushFacts(l, f.pend);
    hide ChainIds, Ids;
    assert AllIds(c, [l] + f.pend) == AllIds(c, f.pend) + multiset{l.id};
    assert l in [l] + f.pend;
    assert forall m :: m in f.pend ==> m in [l] + f.pend;
  }

  lemma DropQueues(c: Core, rest: seq<Link>, l: Link)
    requires Shape(c) && Queues(c, [l] + rest) && !Valid(c, l)
    ensures Queues(c, rest)
  {
    PushFacts(l, rest);
    forall z: nat | Live(c, z) ensures QueueOk(c, rest, z) {
      assert QueueOk(c, [l] + rest, z);
    }
  }

  /** What a valid link on the ready list says about its station: issue cannot panic. */
  lemma TakenStation(c: Core, f: Flight, l: Link, pool: nat)
    requires Sound(c, f.(pend := [l] + f.pend), pool) && Valid(c, l)
    ensures Live(c, l.rs)
    ensures var s := c.st[l.rs];
            && s.AllReady() && s.queued && !s.issued && !s.completed
            && (s.inLsq && s.kind == Store ==> s.onames == Duo(NA, NA) && !s.recoverInst)
            && (s.inLsq <==> l.rs >= c.R)
  {
    TakeSplit(c, f, l, pool);
    hide *;
    DropLists(c, f, l, pool);
    TakenStatus(c, f, l);
  }

  lemma TakenStatus(c: Core, f: Flight, l: Link)
    requires Shape(c) && Status(c, f.w) && Queues(c, [l] + f.pend) && Valid(c, l) && LinkOk(c, l)
    ensures Live(c, l.rs)
    ensures var s := c.st[l.rs];
            && s.AllReady() && s.queued && !s.issued && !s.completed
            && (s.inLsq && s.kind == Store ==> s.onames == Duo(NA, NA) && !s.recoverInst)
            && (s.inLsq <==> l.rs >= c.R)
            && (s.eaComp && l.rs !in f.w ==> s.onames.a == DTMP)
            && (s.inLsq && l.rs !in f.w ==> s.inames.b == DTMP)
  {
    PushFacts(l, f.pend);
    assert QueueOk(c, [l] + f.pend, l.rs) && StatusOk(c, c.st[l.rs], l.rs, f.w);
  }

  function Unqueue(c: Core, x: nat): Core
    requires x < |c.st|
  {
    With(c, x, c.st[x].(queued := false))
  }

  /** Taking a valid link off the list; the station may be queued or issued afterwards. */
  lemma UnqueueKeeps(c: Core, f: Flight, l: Link, pool: nat)
    requires Sound(c, f.(pend := [l] + f.pend), pool) && Valid(c, l) && l.rs !in f.w
    ensures var b, x := Unqueue(c, l.rs), l.rs;
            && Sound(b, Holding(f.(w := f.w + {x}), l.id), pool) && (SpecVector(c, f.d) ==> SpecVector(b, f.d))
            && MayQueue(b, x)
  {
    var b, x := Unqueue(c, l.rs), l.rs;
    TakeSplit(c, f, l, pool);
    DropLists(c, f, l, pool);
    TakenStatus(c, f, l);
    hide *;
    UnqueueFrame(c, f, l);
    UnqueueLists(c, f, l, pool);
    FrameSkeleton(c, b);
    FrameSpeculation(c, b, f.e, f.e);
    FrameVectors(c, b, f.d, f.d);
    FrameMemory(c, b);
    FrameOperands(c, b, f.d, f.d);
    FrameChains(c, b, f.d, f.d);
    UnqueueQueues(c, f, l);
    UnqueueMayQueue(c, f, l);
    UnqueueJoin(b, f, l, pool);
  }

  lemma UnqueueJoin(c: Core, f: Flight, l: Link, pool: nat)
    requires Shape(c)
    requires Order(c) && Pairs(c) && Speculation(c, f.e) && LinksOk(c, f.pend) && Status(c, f.w + {l.rs}) && Queues(c, f.pend)
    requires BaseVector(c, f.d) && Operands(c, f.d) && Chains(c, f.d)
    requires MemoryOrder(c) && Timely(c) && Conserved(c, f.pend, f.held + multiset{l.id}, pool)
    ensures Sound(c, Holding(f.(w := f.w + {l.rs}), l.id), pool)
  {
    JoinSound(c, Holding(f.(w := f.w + {l.rs}), l.id), pool);
  }

  lemma UnqueueFrame(c: Core, f: Flight, l: Link)
    requires Shape(c) && l.rs < |c.st| && Timely(c)
    ensures var b := Unqueue(c, l.rs);
            && Shape(b) && Frame(c, b) && Completes(c, b, f.d) && Timely(b)
            && SameOperands(c, b) && ReadyGrows(c, b) && SafeStarts(c, b) && SameBranches(c, b, f.e, f.e)
  {
    FrameLive(c, Unqueue(c, l.rs));
  }

  lemma UnqueueLists(c: Core, f: Flight, l: Link, pool: nat)
    requires Shape(c) && l.rs < |c.st| && LinksOk(c, f.pend)
    requires Conserved(c, f.pend, f.held + multiset{l.id}, pool)
    ensures var b := Unqueue(c, l.rs);
            LinksOk(b, f.pend) && Conserved(b, f.pend, f.held + multiset{l.id}, pool)
  {
    var b := Unqueue(c, l.rs);
    FrameLive(c, b);
    FrameLinks(c, b, f.pend, f.pend);
    SameChainIds(c.st, l.rs, b.st[l.rs]);
  }

  lemma UnqueueQueues(c: Core, f: Flight, l: Link)
    requires Shape(c) && Status(c, f.w) && Queues(c, [l] + f.pend) && Valid(c, l) && LinkOk(c, l)
    ensures Queues(Unqueue(c, l.rs), f.pend) && Status(Unqueue(c, l.rs), f.w + {l.rs})
  {
    var b := Unqueue(c, l.rs);
    PushFacts(l, f.pend);
    forall z: nat | Live(b, z) ensures QueueOk(b, f.pend, z) && StatusOk(b, b.st[z], z, f.w + {l.rs}) {
      assert Live(c, z) && QueueOk(c, [l] + f.pend, z) && StatusOk(c, c.st[z], z, f.w);
    }
  }

  lemma UnqueueMayQueue(c: Core, f: Flight, l: Link)
    requires Shape(c) && Status(c, f.w) && Queues(c, [l] + f.pend) && Valid(c, l) && LinkOk(c, l) && MemoryOrder(c)
    requires l.rs !in f.w
    ensures MayQueue(Unqueue(c, l.rs), l.rs)
  {
    var b, x := Unqueue(c, l.rs), l.rs;
    TakenStatus(c, f, l);
    if c.st[x].kind == Load && x >= c.R {
      assert LoadSafe(c, x);
      assert forall z: nat :: IsOlderStore(b, x, z) <==> IsOlderStore(c, x, z);
      assert forall z: nat :: YoungestOlderStore(b, x, z) ==> YoungestOlderStore(c, x, z);
    }
  }

  // ----- a store completes at issue -----

  function StoreDone(c: Core, x: nat): Core
    requires x < |c.st|
  {
    With(c, x, c.st[x].(issued := true, completed := true))
  }

  /** Nothing names station `x` as a creator any more. */
  ghost predicate Settled(c: Core, x: nat)
    requires |c.cv| == MD_TOTAL_REGS && |c.scv| == MD_TOTAL_REGS
  {
    && x < |c.st| && c.st[x].odeps == Duo([], [])
    && forall n: nat :: 0 < n < MD_TOTAL_REGS ==>
         !(c.cv[n].By? && c.cv[n].slot == x) && (n in c.useSpec ==> !(c.scv[n].By? && c.scv[n].slot == x))
  }

  lemma SettleVectors(c: Core, x: nat)
    requires Shape(c) && Settled(c, x)
    ensures BaseVector(c, x) ==> BaseVector(c, -1)
    ensures SpecVector(c, x) ==> SpecVector(c, -1)
  {
    if BaseVector(c, x) {
      forall n: nat | 0 < n < MD_TOTAL_REGS ensures BaseEntry(c, -1, n, c.cv[n]) {
        assert BaseEntry(c, x, n, c.cv[n]);
      }
    }
    if SpecVector(c, x) {
      forall n: nat | 0 < n < MD_TOTAL_REGS
        ensures if n in c.useSpec then SpecEntry(c, -1, n, c.scv[n]) else NoSpecWriter(c, n) {
        assert if n in c.useSpec then SpecEntry(c, x, n, c.scv[n]) else NoSpecWriter(c, n);
      }
    }
  }

  lemma SettleOperands(c: Core, x: nat)
    requires Shape(c) && Settled(c, x) && Operands(c, x) && Chains(c, x)
    ensures Operands(c, -1) && Chains(c, -1)
  {
    forall z: nat, k: nat | Live(c, z) && k < 3 ensures OperandOk(c, -1, z, k) {
      assert OperandOk(c, x, z, k);
    }
  }

  lemma StoreDoneKeeps(c: Core, x: nat, f: Flight, pool: nat)
    requires Sound(c, f, pool) && f.d == -1 && SpecVector(c, -1) && MayQueue(c, x) && !c.st[x].completed
    requires c.st[x].inLsq && c.st[x].kind == Store && c.st[x].onames == Duo(NA, NA) && !c.st[x].recoverInst
    ensures Sound(StoreDone(c, x), f.(w := f.w - {x}), pool) && SpecVector(StoreDone(c, x), -1)
  {
    var b := StoreDone(c, x);
    hide *;
    SplitSound(c, f, pool);
    StoreDoneFrame(c, x, f.e);
    FrameSkeleton(c, b);
    FrameSpeculation(c, b, f.e, f.e);
    FrameVectors(c, b, -1, x);
    FrameMemory(c, b);
    FrameOperands(c, b, -1, x);
    FrameChains(c, b, -1, x);
    StoreDoneLists(c, x, f.pend, f.held, pool);
    StoreDoneQueues(c, x, f);
    StoreDoneSettled(c, x);
    SettleVectors(b, x);
    SettleOperands(b, x);
    StoreDoneJoin(b, x, f, pool);
  }

  lemma StoreDoneJoin(c: Core, x: nat, f: Flight, pool: nat)
    requires Shape(c) && f.d == -1
    requires Order(c) && Pairs(c) && Speculation(c, f.e) && LinksOk(c, f.pend) && Status(c, f.w - {x}) && Queues(c, f.pend)
    requires BaseVector(c, -1) && Operands(c, -1) && Chains(c, -1)
    requires MemoryOrder(c) && Timely(c) && Conserved(c, f.pend, f.held, pool)
    ensures Sound(c, f.(w := f.w - {x}), pool)
  {
    JoinSound(c, f.(w := f.w - {x}), pool);
  }

  lemma StoreDoneFrame(c: Core, x: nat, e: int)
    requires Shape(c) && MayQueue(c, x) && !c.st[x].recoverInst && c.st[x].kind == Store && Timely(c)
    ensures var b := StoreDone(c, x);
            && Shape(b) && Frame(c, b) && Completes(c, b, x) && Timely(b)
            && SameOperands(c, b) && ReadyGrows(c, b) && SafeStarts(c, b) && SameBranches(c, b, e, e)
  {
  }

  lemma StoreDoneLists(c: Core, x: nat, pend: seq<Link>, held: multiset<nat>, pool: nat)
    requires Shape(c) && x < |c.st| && LinksOk(c, pend) && Conserved(c, pend, held, pool)
    ensures LinksOk(StoreDone(c, x), pend) && Conserved(StoreDone(c, x), pend, held, pool)
  {
    var b := StoreDone(c, x);
    FrameLive(c, b);
    FrameLinks(c, b, pend, pend);
    SameChainIds(c.st, x, b.st[x]);
  }

  lemma StoreDoneQueues(c: Core, x: nat, f: Flight)
    requires Shape(c) && MayQueue(c, x) && Status(c, f.w) && Queues(c, f.pend)
    ensures Queues(StoreDone(c, x), f.pend) && Status(StoreDone(c, x), f.w - {x})
  {
    var b := StoreDone(c, x);
    forall z: nat | Live(b, z) ensures QueueOk(b, f.pend, z) && StatusOk(b, b.st[z], z, f.w - {x}) {
      assert Live(c, z) && QueueOk(c, f.pend, z) && StatusOk(c, c.st[z], z, f.w);
    }
  }

  lemma StoreDoneSettled(c: Core, x: nat)
    requires Shape(c) && x < |c.st| && Chains(c, -1) && BaseVector(c, -1) && SpecVector(c, -1)
    requires c.st[x].onames == Duo(NA, NA)
    ensures Settled(StoreDone(c, x), x)
  {
    assert c.st[x].odeps.Get(0) == [] && c.st[x].odeps.Get(1) == [];
    forall n: nat | 0 < n < MD_TOTAL_REGS
      ensures !(c.cv[n].By? && c.cv[n].slot == x) && (n in c.useSpec ==> !(c.scv[n].By? && c.scv[n].slot == x))
    {
      assert BaseEntry(c, -1, n, c.cv[n]);
      assert n in c.useSpec ==> SpecEntry(c, -1, n, c.scv[n]);
    }
  }
}
