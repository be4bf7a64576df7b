/** New entries at the tails, before their operands are linked. */
module RuuAllocateProof {
  import opened RuuTypes
  import opened RuuSteps
  import opened RuuInvariants
  import opened RuuLists
  import opened RuuFrame
  import Events = RuuEventProof

  predicate New(c: Core, b: Core, z: nat) { Live(b, z) && !Live(c, z) }

  /** A station as dispatch leaves it before linking anything. */
  predicate Untouched(s: Station) {
    && !s.recoverInst && !s.queued && !s.issued && !s.completed
    && s.onames == Duo(NA, NA) && s.ready == Tri(true, true, true) && s.inames == Tri(NA, NA, NA)
  }

  /** `b` is `c` with new untouched entries that are younger than everything else. */
  ghost predicate Grows(c: Core, b: Core) {
    && b == c.(st := b.st, rn := b.rn, ln := b.ln, instSeq := b.instSeq)
    && |b.st| == |c.st| && b.instSeq >= c.instSeq
    && (forall z: nat :: Live(c, z) ==> Live(b, z))
    && (forall z: nat :: z < |c.st| && !New(c, b, z) ==> b.st[z] == c.st[z])
    && (forall z: nat :: New(c, b, z) && z < |c.st| ==>
          var s := b.st[z];
          && Untouched(s) && c.instSeq < s.num <= b.instSeq && s.specMode == c.specMode
          && s.tag == c.st[z].tag && s.odeps == c.st[z].odeps
          && (s.inLsq <==> z >= c.R) && (s.inLsq ==> !s.eaComp && s.kind != Alu) && (!s.inLsq ==> s.kind == Alu))
  }

  ghost predicate NewInOrder(c: Core, b: Core)
    requires |c.st| == |b.st| == c.R + c.L == b.R + b.L
  {
    && (forall x: nat, y: nat :: RuuBefore(b, x, y) ==> RuuBefore(c, x, y) || (Live(c, x) && New(c, b, y)))
    && (forall x: nat, y: nat :: LsqBefore(b, x, y) ==> LsqBefore(c, x, y) || (Live(c, x) && New(c, b, y)))
    && (forall x: nat, y: nat :: New(c, b, x) && New(c, b, y) && b.st[x].num == b.st[y].num ==> x == y)
  }

  /** The new entries are either one plain operation or the two halves of a memory operation. */
  ghost predicate NewPaired(c: Core, b: Core)
    requires |c.st| == |b.st| == c.R + c.L == b.R + b.L
  {
    && (forall x: nat :: New(c, b, x) && x < c.R && b.st[x].eaComp ==> IsPair(b, x, b.st[x].partner))
    && (forall y: nat :: New(c, b, y) && y >= c.R ==> IsPair(b, b.st[y].partner, y))
  }

  lemma GrowsOrder(c: Core, b: Core)
    requires Shape(c) && Shape(b) && Grows(c, b) && NewInOrder(c, b) && Order(c)
    ensures Order(b)
  {
  }

  lemma GrowsPairs(c: Core, b: Core)
    requires Shape(c) && Shape(b) && Grows(c, b) && NewPaired(c, b) && Pairs(c)
    ensures Pairs(b)
  {
    forall x: nat | Live(b, x) && x < b.R && b.st[x].eaComp ensures IsPair(b, x, b.st[x].partner) {
      if !New(c, b, x) {
        assert IsPair(c, x, c.st[x].partner);
      }
    }
    forall y: nat | Live(b, y) && y >= b.R ensures IsPair(b, b.st[y].partner, y) {
      if !New(c, b, y) {
        assert IsPair(c, c.st[y].partner, y);
      }
    }
  }

  lemma GrowsSpeculation(c: Core, b: Core)
    requires Shape(c) && Shape(b) && Grows(c, b) && Order(c) && Speculation(c, -1)
    ensures Speculation(b, -1)
  {
    assert forall x: nat :: IsBranch(b, -1, x) <==> IsBranch(c, -1, x);
  }

  lemma GrowsLinks(c: Core, b: Core)
    requires Shape(c) && Shape(b) && Grows(c, b) && LinksOk(c, [])
    ensures LinksOk(b, [])
  {
    forall l | LinkOk(c, l) ensures LinkOk(b, l) {
    }
    assert forall p: nat, o: nat, l :: InChain(b, p, o, l) ==> InChain(c, p, o, l);
  }

  lemma GrowsQueues(c: Core, b: Core)
    requires Shape(c) && Shape(b) && Grows(c, b) && LinksOk(c, []) && Queues(c, [])
    ensures Queues(b, [])
  {
    forall z: nat | Live(b, z) ensures QueueOk(b, [], z) {
      if New(c, b, z) {
        NoKey(c.events, z, c.st[z].tag);
        NoKey(c.readyq, z, c.st[z].tag);
      } else {
        assert QueueOk(c, [], z);
      }
    }
  }

  lemma GrowsStatus(c: Core, b: Core, w: set<nat>)
    requires Shape(c) && Shape(b) && Grows(c, b) && Status(c, {})
    requires forall z: nat :: New(c, b, z) ==> z in w
    ensures Status(b, w)
  {
    forall z: nat | Live(b, z) ensures StatusOk(b, b.st[z], z, w) {
      if !New(c, b, z) {
        assert StatusOk(c, c.st[z], z, {});
      }
    }
  }

  /** No new entry writes a register yet, so latest writers are as before. */
  lemma GrowsLatest(c: Core, b: Core, n: nat, m: nat, q: nat)
    requires Shape(c) && Shape(b) && Grows(c, b)
    ensures Latest(b, n, m, q) <==> Latest(c, n, m, q)
  {
    assert forall z: nat :: Live(b, z) && Writes(b.st[z], n) ==> Live(c, z) && b.st[z] == c.st[z];
    assert forall z: nat :: Live(c, z) ==> Live(b, z) && b.st[z] == c.st[z];
  }

  lemma GrowsLatestBase(c: Core, b: Core, n: nat, q: nat)
    requires Shape(c) && Shape(b) && Grows(c, b)
    ensures LatestBase(b, n, q) <==> LatestBase(c, n, q)
  {
    assert forall z: nat :: Live(b, z) && Writes(b.st[z], n) ==> Live(c, z) && b.st[z] == c.st[z];
    assert forall z: nat :: Live(c, z) ==> Live(b, z) && b.st[z] == c.st[z];
  }

  lemma GrowsBase(c: Core, b: Core)
    requires Shape(c) && Shape(b) && Grows(c, b) && BaseVector(c, -1)
    ensures BaseVector(b, -1)
  {
    forall n: nat | 0 < n < MD_TOTAL_REGS ensures BaseEntry(b, -1, n, b.cv[n]) {
      assert BaseEntry(c, -1, n, c.cv[n]);
      forall q: nat ensures LatestBase(b, n, q) <==> LatestBase(c, n, q) {
        GrowsLatestBase(c, b, n, q);
      }
    }
  }

  lemma GrowsBound(c: Core, b: Core, n: nat, q: nat)
    requires Shape(c) && Shape(b) && Grows(c, b) && Order(c)
    ensures Latest(b, n, b.instSeq + 1, q) <==> Latest(c, n, c.instSeq + 1, q)
  {
    GrowsLatest(c, b, n, b.instSeq + 1, q);
    assert forall z: nat :: Live(c, z) ==> c.st[z].num < c.instSeq + 1 <= b.instSeq + 1;
  }

  lemma GrowsSpec(c: Core, b: Core)
    requires Shape(c) && Shape(b) && Grows(c, b) && Order(c) && SpecVector(c, -1)
    ensures SpecVector(b, -1)
  {
    forall n: nat | 0 < n < MD_TOTAL_REGS
      ensures if n in b.useSpec then SpecEntry(b, -1, n, b.scv[n]) else NoSpecWriter(b, n)
    {
      assert if n in c.useSpec then SpecEntry(c, -1, n, c.scv[n]) else NoSpecWriter(c, n);
      if n in c.useSpec {
        var mb, mc := b.instSeq + 1, c.instSeq + 1;
        forall q: nat ensures Latest(b, n, mb, q) <==> Latest(c, n, mc, q) {
          GrowsBound(c, b, n, q);
        }
      }
    }
  }

  lemma GrowsOperands(c: Core, b: Core)
    requires Shape(c) && Shape(b) && Grows(c, b) && Operands(c, -1)
    ensures Operands(b, -1)
  {
    forall x: nat, k: nat | Live(b, x) && k < 3 ensures OperandOk(b, -1, x, k) {
      forall n: nat, m: nat, q: nat ensures Latest(b, n, m, q) <==> Latest(c, n, m, q) {
        GrowsLatest(c, b, n, m, q);
      }
      if !New(c, b, x) {
        assert OperandOk(c, -1, x, k);
      }
    }
  }

  lemma GrowsChains(c: Core, b: Core)
    requires Shape(c) && Shape(b) && Grows(c, b) && LinksOk(c, []) && Chains(c, -1)
    ensures Chains(b, -1)
  {
    forall p: nat, o: nat, l | InChain(b, p, o, l) ensures ChainLinkOk(b, p, o, l) {
      assert InChain(c, p, o, l) && ChainLinkOk(c, p, o, l) && LinkOk(c, l);
    }
    forall p: nat, o: nat | p < |b.st| && o < 2 && b.st[p].odeps.Get(o) != []
      ensures Pending(b, -1, p) && b.st[p].onames.Get(o) != NA
    {
      assert c.st[p].odeps.Get(o) != [];
      assert Pending(c, -1, p);
    }
  }

  lemma GrowsMemory(c: Core, b: Core)
    requires Shape(c) && Shape(b) && Grows(c, b) && Order(c) && MemoryOrder(c) && Timely(c)
    ensures MemoryOrder(b) && Timely(b)
  {
    forall x: nat | Live(b, x) && x >= b.R && b.st[x].kind == Load && Started(b.st[x]) ensures LoadSafe(b, x) {
      assert !New(c, b, x) && LoadSafe(c, x);
      assert forall z: nat :: IsOlderStore(b, x, z) <==> IsOlderStore(c, x, z);
      assert forall z: nat :: YoungestOlderStore(b, x, z) ==> YoungestOlderStore(c, x, z);
    }
  }

  lemma GrowsKeeps(c: Core, b: Core, w: set<nat>, pool: nat)
    requires Inv(c, pool) && Shape(c) && Shape(b) && Grows(c, b) && NewInOrder(c, b) && NewPaired(c, b)
    requires forall z: nat :: New(c, b, z) ==> z in w
    requires ChainIds(b.st) == ChainIds(c.st)
    ensures Sound(b, IDLE.(w := w), pool) && SpecVector(b, -1)
  {
    hide *;
    Events.IdleSplit(c, pool);
    ShapeSize(b);
    GrowsOrder(c, b);
    GrowsPairs(c, b);
    GrowsSpeculation(c, b);
    GrowsLinks(c, b);
    GrowsQueues(c, b);
    GrowsStatus(c, b, w);
    GrowsBase(c, b);
    GrowsSpec(c, b);
    GrowsOperands(c, b);
    GrowsChains(c, b);
    GrowsMemory(c, b);
    GrowsConserved(c, b, pool);
    FillingJoin(b, w, pool);
  }

  lemma ShapeSize(c: Core)
    requires Shape(c)
    ensures |c.st| == c.R + c.L && |c.cv| == MD_TOTAL_REGS && |c.scv| == MD_TOTAL_REGS
  {
  }

  lemma GrowsConserved(c: Core, b: Core, pool: nat)
    requires Grows(c, b) && ChainIds(b.st) == ChainIds(c.st) && Conserved(c, [], multiset{}, pool)
    ensures Conserved(b, [], multiset{}, pool)
  {
    hide ChainIds, Ids;
    assert AllIds(b, []) == AllIds(c, []);
  }

  lemma FillingJoin(c: Core, w: set<nat>, pool: nat)
    requires Shape(c)
    requires Order(c) && Pairs(c) && Speculation(c, -1) && LinksOk(c, []) && Status(c, w) && Queues(c, [])
    requires BaseVector(c, -1) && Operands(c, -1) && Chains(c, -1)
    requires MemoryOrder(c) && Timely(c) && Conserved(c, [], multiset{}, pool)
    ensures Sound(c, IDLE.(w := w), pool)
  {
    JoinSound(c, IDLE.(w := w), pool);
  }
}
