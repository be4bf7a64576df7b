/** Entries leave the machine at one end: the oldest retire, the youngest are squashed. */
module RuuRemovalProof {
  import opened RuuTypes
  import opened RuuSteps
  import opened RuuInvariants

  predicate Gone(c: Core, b: Core, z: nat) { Live(c, z) && !Live(b, z) }

  /** `b` is `c` without some live entries: their slot tags are bumped, their chains empty. */
  ghost predicate Removes(c: Core, b: Core) {
    && b == c.(st := b.st, rh := b.rh, rn := b.rn, lh := b.lh, ln := b.ln, free := b.free)
    && |b.st| == |c.st|
    && (forall z: nat :: Live(b, z) ==> Live(c, z))
    && (forall z: nat :: z < |c.st| && !Gone(c, b, z) ==> b.st[z] == c.st[z])
    && (forall z: nat :: z < |c.st| && Gone(c, b, z) ==>
          b.st[z] == c.st[z].(tag := c.st[z].tag + 1, odeps := Duo([], [])))
    && (forall x: nat, y: nat :: RuuBefore(b, x, y) ==> RuuBefore(c, x, y))
    && (forall x: nat, y: nat :: LsqBefore(b, x, y) ==> LsqBefore(c, x, y))
  }

  /** The removed entries are speculative and younger than all others. */
  ghost predicate Newest(c: Core, b: Core)
    requires |b.st| == |c.st| == c.R + c.L == b.R + b.L
  {
    && (forall g: nat, z: nat :: Gone(c, b, g) && Live(b, z) ==> c.st[z].num < c.st[g].num)
    && (forall g: nat :: Gone(c, b, g) ==> c.st[g].specMode)
  }

  /** The removed entries are completed, non-speculative and older than all others. */
  ghost predicate Oldest(c: Core, b: Core)
    requires |b.st| == |c.st| == c.R + c.L == b.R + b.L
  {
    && (forall g: nat, z: nat :: Gone(c, b, g) && Live(b, z) ==> c.st[g].num < c.st[z].num)
    && (forall g: nat :: Gone(c, b, g) ==> c.st[g].completed && !c.st[g].specMode)
  }

  ghost predicate AtOneEnd(c: Core, b: Core, d: int)
    requires |b.st| == |c.st| == c.R + c.L == b.R + b.L
  {
    Newest(c, b) || (Oldest(c, b) && d == -1)
  }

  /** The two halves of a load or store leave together. */
  ghost predicate Together(c: Core, b: Core)
    requires |b.st| == |c.st| == c.R + c.L == b.R + b.L
  {
    forall x: nat, y: nat :: IsPair(c, x, y) ==> (Live(b, x) <==> Live(b, y))
  }

  lemma RemovesOrder(c: Core, b: Core)
    requires Shape(c) && Shape(b) && Removes(c, b) && Order(c)
    ensures Order(b)
  {
  }

  lemma RemovesPairs(c: Core, b: Core)
    requires Shape(c) && Shape(b) && Removes(c, b) && Pairs(c) && Together(c, b)
    ensures Pairs(b)
  {
    forall x: nat | Live(b, x) && x < b.R && b.st[x].eaComp ensures IsPair(b, x, b.st[x].partner) {
      assert Live(c, x) && IsPair(c, x, c.st[x].partner);
      assert Live(b, c.st[x].partner);
    }
    forall y: nat | Live(b, y) && y >= b.R ensures IsPair(b, b.st[y].partner, y) {
      assert Live(c, y) && IsPair(c, c.st[y].partner, y);
    }
  }

  lemma RemovesSpeculation(c: Core, b: Core, e: int)
    requires Shape(c) && Shape(b) && Removes(c, b) && Speculation(c, e)
    requires c.specMode ==> exists x: nat :: IsBranch(b, e, x)
    ensures Speculation(b, e)
  {
    assert forall x: nat :: IsBranch(b, e, x) ==> IsBranch(c, e, x);
  }

  lemma RemovesLinks(c: Core, b: Core, pend: seq<Link>)
    requires Shape(c) && Shape(b) && Removes(c, b) && LinksOk(c, pend)
    ensures LinksOk(b, pend)
  {
    assert forall l :: LinkOk(c, l) ==> LinkOk(b, l);
    assert forall p: nat, o: nat, l :: InChain(b, p, o, l) ==> InChain(c, p, o, l);
  }

  lemma RemovesQueues(c: Core, b: Core, f: Flight)
    requires Shape(c) && Shape(b) && Removes(c, b) && Queues(c, f.pend) && Status(c, f.w)
    ensures Queues(b, f.pend) && Status(b, f.w)
  {
    forall z: nat | Live(b, z) ensures QueueOk(b, f.pend, z) && StatusOk(b, b.st[z], z, f.w) {
      assert Live(c, z) && QueueOk(c, f.pend, z) && StatusOk(c, c.st[z], z, f.w);
    }
  }

  /** For a surviving reader, the latest older writer is the same, if it survives. */
  lemma RemovesLatest(c: Core, b: Core, d: int, n: nat, x: nat, q: nat)
    requires Shape(c) && Shape(b) && Removes(c, b) && AtOneEnd(c, b, d) && Live(b, x)
    ensures Latest(b, n, c.st[x].num, q) ==> Latest(c, n, c.st[x].num, q)
    ensures Latest(c, n, c.st[x].num, q) && Live(b, q) ==> Latest(b, n, c.st[x].num, q)
  {
    var m := c.st[x].num;
    if Latest(b, n, m, q) {
      forall z: nat | Live(c, z) && Writes(c.st[z], n) && c.st[z].num < m ensures c.st[z].num <= c.st[q].num {
        if Live(b, z) {
          assert Writes(b.st[z], n);
        } else {
          assert Gone(c, b, z);
        }
      }
    }
    if Latest(c, n, m, q) && Live(b, q) {
      forall z: nat | Live(b, z) && Writes(b.st[z], n) && b.st[z].num < m ensures b.st[z].num <= b.st[q].num {
        assert Live(c, z);
      }
    }
  }

  lemma RemovesLatestBase(c: Core, b: Core, d: int, n: nat, q: nat)
    requires Shape(c) && Shape(b) && Removes(c, b) && AtOneEnd(c, b, d)
    ensures LatestBase(b, n, q) ==> LatestBase(c, n, q)
    ensures LatestBase(c, n, q) && Live(b, q) ==> LatestBase(b, n, q)
  {
    if LatestBase(b, n, q) {
      forall z: nat | Live(c, z) && Writes(c.st[z], n) && !c.st[z].specMode ensures c.st[z].num <= c.st[q].num {
        if Live(b, z) {
          assert Writes(b.st[z], n);
        } else {
          assert Gone(c, b, z);
        }
      }
    }
    if LatestBase(c, n, q) && Live(b, q) {
      forall z: nat | Live(b, z) && Writes(b.st[z], n) && !b.st[z].specMode ensures b.st[z].num <= b.st[q].num {
        assert Live(c, z);
      }
    }
  }

  /** A pending producer of a surviving entry, or of the base vector, survives. */
  lemma RemovesPending(c: Core, b: Core, d: int, p: nat)
    requires Shape(c) && Shape(b) && Removes(c, b) && AtOneEnd(c, b, d) && Pending(c, d, p)
    requires !c.st[p].specMode || exists x: nat :: Live(b, x) && c.st[p].num < c.st[x].num
    ensures Pending(b, d, p) && b.st[p] == c.st[p]
  {
    if Gone(c, b, p) {
      assert false;
    }
  }

  lemma RemovesBase(c: Core, b: Core, d: int)
    requires Shape(c) && Shape(b) && Removes(c, b) && AtOneEnd(c, b, d) && BaseVector(c, d)
    ensures BaseVector(b, d)
  {
    forall n: nat | 0 < n < MD_TOTAL_REGS ensures BaseEntry(b, d, n, b.cv[n]) {
      var v := c.cv[n];
      assert BaseEntry(c, d, n, v);
      if v.By? {
        RemovesPending(c, b, d, v.slot);
        RemovesLatestBase(c, b, d, n, v.slot);
      } else {
        forall q: nat | LatestBase(b, n, q) ensures b.st[q].completed {
          RemovesLatestBase(c, b, d, n, q);
        }
      }
    }
  }

  lemma RemovesOperands(c: Core, b: Core, d: int)
    requires Shape(c) && Shape(b) && Removes(c, b) && AtOneEnd(c, b, d) && Operands(c, d)
    ensures Operands(b, d)
  {
    forall x: nat, k: nat | Live(b, x) && k < 3 ensures OperandOk(b, d, x, k) {
      RemovesOperand(c, b, d, x, k);
    }
  }

  lemma RemovesOperand(c: Core, b: Core, d: int, x: nat, k: nat)
    requires Shape(c) && Shape(b) && Removes(c, b) && AtOneEnd(c, b, d) && Operands(c, d) && Live(b, x) && k < 3
    ensures OperandOk(b, d, x, k)
  {
    var s := c.st[x];
    var n := s.inames.Get(k);
    assert Live(c, x) && OperandOk(c, d, x, k) && b.st[x] == s;
    if s.ready.Get(k) {
      forall q: nat | Latest(b, n, s.num, q) ensures b.st[q].completed {
        RemovesLatest(c, b, d, n, x, q);
      }
    } else {
      var p := s.waitOn.Get(k).slot;
      RemovesPending(c, b, d, p);
      RemovesLatest(c, b, d, n, x, p);
    }
  }

  lemma RemovesChains(c: Core, b: Core, d: int)
    requires Shape(c) && Shape(b) && Removes(c, b) && Chains(c, d)
    requires forall l, p: nat, o: nat :: InChain(c, p, o, l) ==> LinkOk(c, l)
    ensures Chains(b, d)
  {
    forall p: nat, o: nat, l | InChain(b, p, o, l) ensures ChainLinkOk(b, p, o, l) {
      assert InChain(c, p, o, l) && ChainLinkOk(c, p, o, l) && LinkOk(c, l);
    }
    forall p: nat, o: nat | p < |b.st| && o < 2 && b.st[p].odeps.Get(o) != []
      ensures Pending(b, d, p) && b.st[p].onames.Get(o) != NA
    {
      assert c.st[p].odeps.Get(o) != [];
      assert !Gone(c, b, p);
    }
  }

  lemma RemovesMemory(c: Core, b: Core, d: int)
    requires Shape(c) && Shape(b) && Removes(c, b) && AtOneEnd(c, b, d) && MemoryOrder(c)
    ensures MemoryOrder(b)
  {
    forall x: nat | Live(b, x) && x >= b.R && b.st[x].kind == Load && Started(b.st[x]) ensures LoadSafe(b, x) {
      RemovesLoad(c, b, d, x);
    }
  }

  lemma RemovesLoad(c: Core, b: Core, d: int, x: nat)
    requires Shape(c) && Shape(b) && Removes(c, b) && AtOneEnd(c, b, d) && MemoryOrder(c)
    requires Live(b, x) && x >= b.R && b.st[x].kind == Load && Started(b.st[x])
    ensures LoadSafe(b, x)
  {
    assert Live(c, x) && LoadSafe(c, x);
    assert forall z: nat :: IsOlderStore(b, x, z) ==> IsOlderStore(c, x, z);
    forall z: nat | YoungestOlderStore(b, x, z) ensures b.st[z].AllReady() {
      forall y: nat | IsOlderStore(c, x, y) && c.st[y].addr == c.st[x].addr ensures c.st[y].num <= c.st[z].num {
        if Live(b, y) {
          assert IsOlderStore(b, x, y);
        } else {
          assert Gone(c, b, y);
        }
      }
      assert YoungestOlderStore(c, x, z);
    }
  }

  lemma RemovesSpecVector(c: Core, b: Core)
    requires Shape(c) && Shape(b) && Removes(c, b) && Oldest(c, b) && SpecVector(c, -1)
    ensures SpecVector(b, -1)
  {
    forall n: nat | 0 < n < MD_TOTAL_REGS
      ensures if n in b.useSpec then SpecEntry(b, -1, n, b.scv[n]) else NoSpecWriter(b, n)
    {
      assert if n in c.useSpec then SpecEntry(c, -1, n, c.scv[n]) else NoSpecWriter(c, n);
      if n in c.useSpec {
        RemovesSpecEntry(c, b, n, c.scv[n]);
      }
    }
  }

  lemma RemovesSpecEntry(c: Core, b: Core, n: nat, v: Creator)
    requires Shape(c) && Shape(b) && Removes(c, b) && Oldest(c, b) && SpecEntry(c, -1, n, v)
    ensures SpecEntry(b, -1, n, v)
  {
    var m := c.instSeq + 1;
    if v.By? {
      assert Live(b, v.slot) by {
        assert !Gone(c, b, v.slot);
      }
      forall z: nat | Live(b, z) && Writes(b.st[z], n) && b.st[z].num < m ensures b.st[z].num <= b.st[v.slot].num {
        assert Live(c, z);
      }
    } else {
      forall q: nat | Latest(b, n, m, q) ensures b.st[q].completed {
        forall z: nat | Live(c, z) && Writes(c.st[z], n) && c.st[z].num < m ensures c.st[z].num <= c.st[q].num {
          if Live(b, z) {
            assert Writes(b.st[z], n);
          } else {
            assert Gone(c, b, z);
          }
        }
        assert Latest(c, n, m, q);
      }
    }
  }
}
