/** Steps that change only a station's progress (queued, issued, completed, its operands and
    its waiting consumers) and the lists of links.  Each lemma says what one part of the
    invariant needs from such a step. */
module RuuFrame {
  import opened RuuTypes
  import opened RuuInvariants

  /** The same instruction in the same slot instance, at possibly different progress. */
  predicate Alike(s: Station, t: Station) {
    t == s.(queued := t.queued, issued := t.issued, completed := t.completed, ready := t.ready, odeps := t.odeps,
            inames := t.inames, waitOn := t.waitOn)
  }

  ghost predicate Frame(c: Core, b: Core) {
    && b == c.(st := b.st, free := b.free, events := b.events, readyq := b.readyq, cycle := b.cycle)
    && |b.st| == |c.st|
    && forall x: nat :: x < |c.st| ==> Alike(c.st[x], b.st[x])
  }

  lemma FrameLive(c: Core, b: Core)
    requires Shape(c) && Frame(c, b)
    ensures Shape(b)
    ensures forall x: nat :: Live(b, x) <==> Live(c, x)
    ensures forall l :: LinkOk(b, l) <==> LinkOk(c, l)
  {
  }

  lemma FrameOrder(c: Core, b: Core)
    requires Shape(c) && Frame(c, b) && Order(c)
    ensures Order(b)
  {
    FrameLive(c, b);
    assert forall y: nat, z: nat :: RuuBefore(b, y, z) ==> RuuBefore(c, y, z);
    assert forall y: nat, z: nat :: LsqBefore(b, y, z) ==> LsqBefore(c, y, z);
  }

  lemma FramePairs(c: Core, b: Core)
    requires Shape(c) && Frame(c, b) && Pairs(c)
    ensures Pairs(b)
  {
    FrameLive(c, b);
    forall x: nat | Live(b, x) && x < b.R && b.st[x].eaComp ensures IsPair(b, x, b.st[x].partner) {
      assert Live(c, x) && IsPair(c, x, c.st[x].partner);
    }
    forall y: nat | Live(b, y) && y >= b.R ensures IsPair(b, b.st[y].partner, y) {
      assert Live(c, y) && IsPair(c, c.st[y].partner, y);
    }
  }

  ghost predicate SameBranches(c: Core, b: Core, e: int, f: int)
    requires |b.st| == |c.st| == c.R + c.L
  {
    forall x: nat :: Live(c, x) && x < c.R && c.st[x].recoverInst ==>
      ((!c.st[x].completed || x == e) <==> (!b.st[x].completed || x == f))
  }

  /** Completion moves only to the exempt branch `f`. */
  lemma FrameSpeculation(c: Core, b: Core, e: int, f: int)
    requires Shape(c) && Frame(c, b) && Speculation(c, e)
    requires SameBranches(c, b, e, f)
    ensures Speculation(b, f)
  {
    FrameLive(c, b);
    assert forall x: nat :: IsBranch(b, f, x) <==> IsBranch(c, e, x);
  }

  /** Completed stations stay completed, and only `d` is newly completed. */
  ghost predicate Completes(c: Core, b: Core, d: int)
    requires |b.st| == |c.st|
  {
    && (forall x: nat :: x < |c.st| && c.st[x].completed ==> b.st[x].completed)
    && (forall x: nat :: x < |c.st| && b.st[x].completed && !c.st[x].completed ==> x == d)
  }

  lemma FrameLatest(c: Core, b: Core)
    requires Shape(c) && Frame(c, b)
    ensures forall n: nat, m: nat, q: nat :: Latest(b, n, m, q) <==> Latest(c, n, m, q)
    ensures forall n: nat, q: nat :: LatestBase(b, n, q) <==> LatestBase(c, n, q)
  {
    FrameLive(c, b);
    forall n: nat, m: nat, q: nat ensures Latest(b, n, m, q) <==> Latest(c, n, m, q) {
      OneLatest(c, b, n, m, q);
    }
    forall n: nat, q: nat ensures LatestBase(b, n, q) <==> LatestBase(c, n, q) {
      OneLatestBase(c, b, n, q);
    }
  }

  lemma OneLatest(c: Core, b: Core, n: nat, m: nat, q: nat)
    requires Shape(c) && Shape(b) && Frame(c, b)
    ensures Latest(b, n, m, q) <==> Latest(c, n, m, q)
  {
    FrameLive(c, b);
    assert forall z: nat :: Live(c, z) ==> Writes(b.st[z], n) == Writes(c.st[z], n) && b.st[z].num == c.st[z].num;
    assert forall z: nat :: Live(b, z) ==> Writes(b.st[z], n) == Writes(c.st[z], n) && b.st[z].num == c.st[z].num;
  }

  lemma OneLatestBase(c: Core, b: Core, n: nat, q: nat)
    requires Shape(c) && Shape(b) && Frame(c, b)
    ensures LatestBase(b, n, q) <==> LatestBase(c, n, q)
  {
    FrameLive(c, b);
    assert forall z: nat :: Live(c, z) ==> Writes(b.st[z], n) == Writes(c.st[z], n) && b.st[z].num == c.st[z].num && b.st[z].specMode == c.st[z].specMode;
    assert forall z: nat :: Live(b, z) ==> Writes(b.st[z], n) == Writes(c.st[z], n) && b.st[z].num == c.st[z].num && b.st[z].specMode == c.st[z].specMode;
  }

  lemma FrameVectors(c: Core, b: Core, d: int, f: int)
    requires Shape(c) && Frame(c, b) && Completes(c, b, f) && (d == -1 || d == f)
    ensures BaseVector(c, d) ==> BaseVector(b, f)
    ensures SpecVector(c, d) ==> SpecVector(b, f)
  {
    FrameLive(c, b);
    FrameLatest(c, b);
    if BaseVector(c, d) {
      forall n: nat | 0 < n < MD_TOTAL_REGS ensures BaseEntry(b, f, n, b.cv[n]) {
        assert BaseEntry(c, d, n, c.cv[n]);
      }
    }
    if SpecVector(c, d) {
      forall n: nat | 0 < n < MD_TOTAL_REGS
        ensures if n in b.useSpec then SpecEntry(b, f, n, b.scv[n]) else NoSpecWriter(b, n) {
        assert if n in c.useSpec then SpecEntry(c, d, n, c.scv[n]) else NoSpecWriter(c, n);
      }
    }
  }

  ghost predicate ReadyGrows(c: Core, b: Core)
    requires |b.st| == |c.st|
  {
    forall x: nat :: x < |c.st| ==>
      (c.st[x].ready.b ==> b.st[x].ready.b) && (c.st[x].AllReady() ==> b.st[x].AllReady())
  }

  ghost predicate SafeStarts(c: Core, b: Core)
    requires |b.st| == |c.st| == c.R + c.L
  {
    forall x: nat :: Live(c, x) && x >= c.R && c.st[x].kind == Load && Started(b.st[x]) ==>
      Started(c.st[x]) || LoadSafe(c, x)
  }

  ghost predicate SameOperands(c: Core, b: Core)
    requires |b.st| == |c.st|
  {
    SameNames(c, b) && forall x: nat :: x < |c.st| ==> b.st[x].ready == c.st[x].ready && b.st[x].odeps == c.st[x].odeps
  }

  ghost predicate SameNames(c: Core, b: Core)
    requires |b.st| == |c.st|
  {
    forall x: nat :: x < |c.st| ==> b.st[x].inames == c.st[x].inames && b.st[x].waitOn == c.st[x].waitOn
  }

  /** Readiness only grows, and every new start of a load is safe. */
  lemma FrameMemory(c: Core, b: Core)
    requires Shape(c) && Frame(c, b) && MemoryOrder(c) && ReadyGrows(c, b) && SafeStarts(c, b)
    ensures MemoryOrder(b)
  {
    FrameLive(c, b);
    forall x: nat | Live(b, x) && x >= b.R && b.st[x].kind == Load && Started(b.st[x]) ensures LoadSafe(b, x) {
      assert Live(c, x);
      assert LoadSafe(c, x);
      assert forall z: nat :: IsOlderStore(b, x, z) <==> IsOlderStore(c, x, z);
      assert forall z: nat :: YoungestOlderStore(b, x, z) ==> YoungestOlderStore(c, x, z);
    }
  }

  /** Operands that no step touched, when chains and readiness are as before. */
  lemma FrameOperands(c: Core, b: Core, d: int, f: int)
    requires Shape(c) && Frame(c, b) && Completes(c, b, f) && (d == -1 || d == f) && Operands(c, d)
    requires SameOperands(c, b)
    ensures Operands(b, f)
  {
    FrameLive(c, b);
    FrameLatest(c, b);
    forall x: nat, k: nat | Live(b, x) && k < 3 ensures OperandOk(b, f, x, k) {
      assert Live(c, x) && OperandOk(c, d, x, k);
    }
  }

  lemma FrameChains(c: Core, b: Core, d: int, f: int)
    requires Shape(c) && Frame(c, b) && Completes(c, b, f) && (d == -1 || d == f) && Chains(c, d)
    requires SameOperands(c, b)
    ensures Chains(b, f)
  {
    FrameLive(c, b);
    forall p: nat, o: nat, l | InChain(b, p, o, l) ensures ChainLinkOk(b, p, o, l) {
      assert InChain(c, p, o, l) && ChainLinkOk(c, p, o, l);
    }
  }

  /** Links whose lists only lost members, or gained valid ones. */
  lemma FrameLinks(c: Core, b: Core, pend: seq<Link>, pend1: seq<Link>)
    requires Shape(c) && Frame(c, b) && LinksOk(c, pend)
    requires forall l :: l in b.events || l in b.readyq || l in pend1 ==>
               l in c.events || l in c.readyq || l in pend || LinkOk(c, l)
    requires forall p: nat, o: nat, l :: InChain(b, p, o, l) ==> InChain(c, p, o, l)
    ensures LinksOk(b, pend1)
  {
    FrameLive(c, b);
  }

  lemma SplitSound(c: Core, f: Flight, pool: nat)
    requires Sound(c, f, pool)
    ensures Shape(c) && |c.st| == c.R + c.L && |c.cv| == MD_TOTAL_REGS && |c.scv| == MD_TOTAL_REGS
    ensures Order(c) && Pairs(c) && Speculation(c, f.e) && LinksOk(c, f.pend) && Status(c, f.w) && Queues(c, f.pend)
    ensures BaseVector(c, f.d) && Operands(c, f.d) && Chains(c, f.d)
             && MemoryOrder(c) && Timely(c) && Conserved(c, f.pend, f.held, pool)
  {
  }

  lemma JoinSound(c: Core, f: Flight, pool: nat)
    requires Shape(c)
    requires Order(c) && Pairs(c) && Speculation(c, f.e) && LinksOk(c, f.pend) && Status(c, f.w) && Queues(c, f.pend)
    requires BaseVector(c, f.d) && Operands(c, f.d) && Chains(c, f.d)
             && MemoryOrder(c) && Timely(c) && Conserved(c, f.pend, f.held, pool)
    ensures Sound(c, f, pool)
  {
  }

  /** What every frame step keeps without conditions of its own. */
  lemma FrameSkeleton(c: Core, b: Core)
    requires Shape(c) && Frame(c, b) && Order(c) && Pairs(c)
    ensures Shape(b) && Order(b) && Pairs(b)
  {
    hide *;
    FrameLive(c, b);
    FrameOrder(c, b);
    FramePairs(c, b);
  }
}
