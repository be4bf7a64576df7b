/** Entering mis-speculation: the youngest entry becomes the one whose completion recovers. */
module RuuSpeculateProof {
  import opened RuuTypes
  import opened RuuSteps
  import opened RuuInvariants
  import opened RuuLists
  import opened RuuFrame
  import Events = RuuEventProof

  /** `b` is `c` with its youngest RUU entry `x` marked as the mispredicted branch. */
  ghost predicate Enters(c: Core, b: Core, x: nat) {
    && x < |c.st| && x < c.R && Live(c, x) && !c.specMode
    && !c.st[x].completed && !c.st[x].specMode && !c.st[x].inLsq
    && (forall z: nat :: Live(c, z) && z < c.R && z < |c.st| && z != x ==> c.st[z].num < c.st[x].num)
    && b == c.(st := c.st[x := c.st[x].(recoverInst := true)], specMode := true)
  }

  lemma EntersFields(c: Core, b: Core, x: nat)
    requires Shape(c) && Enters(c, b, x)
    ensures Shape(b) && |b.st| == |c.st| == b.R + b.L && b == c.(st := b.st, specMode := b.specMode)
    ensures |b.cv| == MD_TOTAL_REGS && |b.scv| == MD_TOTAL_REGS
    ensures forall z: nat :: z < |c.st| ==> b.st[z] == c.st[z].(recoverInst := b.st[z].recoverInst)
    ensures forall z: nat :: Live(b, z) <==> Live(c, z)
    ensures forall l :: LinkOk(b, l) <==> LinkOk(c, l)
  {
  }

  lemma EntersOrder(c: Core, b: Core, x: nat)
    requires Shape(c) && Shape(b) && Enters(c, b, x) && Order(c)
    ensures Order(b)
  {
    EntersFields(c, b, x);
    hide Enters, Shape;
    assert forall y: nat, z: nat :: RuuBefore(b, y, z) ==> RuuBefore(c, y, z);
    assert forall y: nat, z: nat :: LsqBefore(b, y, z) ==> LsqBefore(c, y, z);
  }

  lemma EntersPairs(c: Core, b: Core, x: nat)
    requires Shape(c) && Shape(b) && Enters(c, b, x) && Pairs(c)
    ensures Pairs(b)
  {
    EntersFields(c, b, x);
    hide Enters, Shape;
    assert forall y: nat, z: nat :: IsPair(b, y, z) <==> IsPair(c, y, z);
  }

  lemma EntersSpeculation(c: Core, b: Core, x: nat)
    requires Shape(c) && Shape(b) && Enters(c, b, x) && Speculation(c, -1)
    ensures Speculation(b, -1)
  {
    EntersFields(c, b, x);
    assert forall z: nat :: !IsBranch(c, -1, z);
    assert IsBranch(b, -1, x);
    assert forall z: nat :: IsBranch(b, -1, z) ==> z == x || IsBranch(c, -1, z);
  }

  lemma EntersQueues(c: Core, b: Core, x: nat)
    requires Shape(c) && Shape(b) && Enters(c, b, x) && LinksOk(c, []) && Queues(c, []) && Status(c, {})
    ensures LinksOk(b, []) && Queues(b, []) && Status(b, {})
  {
    EntersFields(c, b, x);
    assert forall p: nat, u: nat, l :: InChain(b, p, u, l) ==> InChain(c, p, u, l);
    forall z: nat | Live(b, z) ensures QueueOk(b, [], z) && StatusOk(b, b.st[z], z, {}) {
      assert Live(c, z) && QueueOk(c, [], z) && StatusOk(c, c.st[z], z, {});
    }
  }

  lemma EntersLatest(c: Core, b: Core, x: nat, n: nat, bound: nat, q: nat)
    requires Shape(c) && Shape(b) && Enters(c, b, x)
    ensures Latest(b, n, bound, q) <==> Latest(c, n, bound, q)
    ensures LatestBase(b, n, q) <==> LatestBase(c, n, q)
  {
    EntersFields(c, b, x);
    hide Enters, Shape;
    assert forall z: nat :: z < |c.st| ==>
      Writes(b.st[z], n) == Writes(c.st[z], n) && b.st[z].num == c.st[z].num && b.st[z].specMode == c.st[z].specMode;
  }

  lemma EntersBase(c: Core, b: Core, x: nat)
    requires Shape(c) && Shape(b) && Enters(c, b, x) && BaseVector(c, -1)
    ensures BaseVector(b, -1)
  {
    EntersFields(c, b, x);
    forall n: nat | 0 < n < MD_TOTAL_REGS ensures BaseEntry(b, -1, n, b.cv[n]) {
      assert BaseEntry(c, -1, n, c.cv[n]);
      forall q: nat ensures LatestBase(b, n, q) <==> LatestBase(c, n, q) {
        EntersLatest(c, b, x, n, 0, q);
      }
    }
  }

  /** Nothing speculative is in the machine yet, and the copied vector is empty. */
  lemma EntersSpec(c: Core, b: Core, x: nat)
    requires Shape(c) && Shape(b) && Enters(c, b, x) && Speculation(c, -1)
    ensures SpecVector(b, -1)
  {
    EntersFields(c, b, x);
    assert b.useSpec == {};
    forall n: nat | 0 < n < MD_TOTAL_REGS ensures NoSpecWriter(b, n) {
    }
  }

  lemma EntersOperands(c: Core, b: Core, x: nat)
    requires Shape(c) && Shape(b) && Enters(c, b, x) && Operands(c, -1)
    ensures Operands(b, -1)
  {
    EntersFields(c, b, x);
    forall z: nat, k: nat | Live(b, z) && k < 3 ensures OperandOk(b, -1, z, k) {
      assert Live(c, z) && OperandOk(c, -1, z, k);
      forall q: nat ensures Latest(b, c.st[z].inames.Get(k), c.st[z].num, q) <==> Latest(c, c.st[z].inames.Get(k), c.st[z].num, q) {
        EntersLatest(c, b, x, c.st[z].inames.Get(k), c.st[z].num, q);
      }
    }
  }

  lemma EntersChains(c: Core, b: Core, x: nat)
    requires Shape(c) && Shape(b) && Enters(c, b, x) && Chains(c, -1)
    ensures Chains(b, -1)
  {
    EntersFields(c, b, x);
    forall p: nat, u: nat, l | InChain(b, p, u, l) ensures ChainLinkOk(b, p, u, l) {
      assert InChain(c, p, u, l) && ChainLinkOk(c, p, u, l);
    }
    forall p: nat, u: nat | p < |b.st| && u < 2 && b.st[p].odeps.Get(u) != []
      ensures Pending(b, -1, p) && b.st[p].onames.Get(u) != NA
    {
      assert c.st[p].odeps.Get(u) != [];
    }
  }

  lemma EntersMemory(c: Core, b: Core, x: nat)
    requires Shape(c) && Shape(b) && Enters(c, b, x) && MemoryOrder(c) && Timely(c)
    ensures MemoryOrder(b) && Timely(b)
  {
    EntersFields(c, b, x);
    forall z: nat | Live(b, z) && z >= b.R && b.st[z].kind == Load && Started(b.st[z]) ensures LoadSafe(b, z) {
      assert Live(c, z) && LoadSafe(c, z);
      assert forall y: nat :: IsOlderStore(b, z, y) <==> IsOlderStore(c, z, y);
      assert forall y: nat :: YoungestOlderStore(b, z, y) ==> YoungestOlderStore(c, z, y);
    }
  }

  lemma EntersConserved(c: Core, b: Core, x: nat, pool: nat)
    requires Enters(c, b, x) && Conserved(c, [], multiset{}, pool)
    ensures Conserved(b, [], multiset{}, pool)
  {
    SameChainIds(c.st, x, b.st[x]);
    hide ChainIds, Ids;
    assert AllIds(b, []) == AllIds(c, []);
  }

  lemma EntersKeeps(c: Core, b: Core, x: nat, pool: nat)
    requires Inv(c, pool) && Enters(c, b, x)
    ensures Inv(b, pool)
  {
    Events.IdleSplit(c, pool);
    hide *;
    EntersFields(c, b, x);
    EntersOrder(c, b, x);
    EntersPairs(c, b, x);
    EntersSpeculation(c, b, x);
    EntersQueues(c, b, x);
    EntersBase(c, b, x);
    EntersSpec(c, b, x);
    EntersOperands(c, b, x);
    EntersChains(c, b, x);
    EntersMemory(c, b, x);
    EntersConserved(c, b, x, pool);
    Events.IdleJoin(b, pool);
  }
}
