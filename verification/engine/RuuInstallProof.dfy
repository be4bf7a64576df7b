/** Making a new entry the creator of its output registers. */
module RuuInstallProof {
  import opened RuuTypes
  import opened RuuSteps
  import opened RuuInvariants
  import opened RuuLists
  import opened RuuFrame
  import opened RuuAllocateProof
  import opened RuuLinkProof

  /** `b` is `c` with register `n` made output `o` of the entry `x` being filled in. */
  ghost predicate Installs(c: Core, b: Core, x: nat, o: nat, n: Reg) {
    && x < |c.st| && o < 2 && n != NA
    && b == c.(st := c.st[x := c.st[x].(onames := c.st[x].onames.Set(o, n))], cv := b.cv, scv := b.scv, useSpec := b.useSpec)
    && |c.cv| == |c.scv| == MD_TOTAL_REGS
    && (if c.specMode then b.useSpec == c.useSpec + {n} && b.scv == c.scv[n := By(x, o)] && b.cv == c.cv
        else b.useSpec == c.useSpec && b.cv == c.cv[n := By(x, o)] && b.scv == c.scv)
  }

  lemma InstallIs(c: Core, x: nat, o: nat, n: Reg)
    requires Shape(c) && x < |c.st| && o < 2 && c.st[x].odeps.Get(o) == []
    requires n == NA ==> c.st[x].onames.Get(o) == NA
    ensures n != NA ==> Installs(c, InstallOdep(c, x, o, n), x, o, n)
    ensures n == NA ==> InstallOdep(c, x, o, n) == c
  {
    if n == NA {
      assert c.st[x := c.st[x].(onames := c.st[x].onames.Set(o, NA))] == c.st;
    }
  }

  /** The output being installed was unused. */
  ghost predicate OutputFree(c: Core, x: nat, o: nat)
    requires x < |c.st|
  {
    o < 2 && c.st[x].onames.Get(o) == NA
  }

  lemma InstallLive(c: Core, b: Core, x: nat, o: nat, n: Reg)
    requires Shape(c) && Installs(c, b, x, o, n)
    ensures |b.st| == b.R + b.L && forall z: nat :: Live(b, z) <==> Live(c, z)
    ensures forall l :: LinkOk(b, l) <==> LinkOk(c, l)
    ensures x < |b.st| ==> Shape(b)
  {
  }

  lemma InstallFields(c: Core, b: Core, x: nat, o: nat, n: Reg)
    requires Shape(c) && Installs(c, b, x, o, n)
    ensures |b.st| == |c.st| && b == c.(st := b.st, cv := b.cv, scv := b.scv, useSpec := b.useSpec)
    ensures forall z: nat :: z < |c.st| ==> b.st[z] == c.st[z].(onames := b.st[z].onames)
    ensures forall z: nat :: Live(b, z) <==> Live(c, z)
  {
  }

  lemma InstallOrder(c: Core, b: Core, x: nat, o: nat, n: Reg)
    requires Shape(c) && Shape(b) && Installs(c, b, x, o, n) && Order(c)
    ensures Order(b)
  {
    InstallFields(c, b, x, o, n);
    hide Installs, Shape;
    assert forall y: nat, z: nat :: RuuBefore(b, y, z) ==> RuuBefore(c, y, z);
    assert forall y: nat, z: nat :: LsqBefore(b, y, z) ==> LsqBefore(c, y, z);
  }

  lemma InstallPairs(c: Core, b: Core, x: nat, o: nat, n: Reg)
    requires Shape(c) && Shape(b) && Installs(c, b, x, o, n) && Pairs(c)
    ensures Pairs(b)
  {
    InstallFields(c, b, x, o, n);
    hide Installs, Shape;
    assert forall y: nat, z: nat :: IsPair(b, y, z) <==> IsPair(c, y, z);
  }

  lemma InstallSpeculation(c: Core, b: Core, x: nat, o: nat, n: Reg)
    requires Shape(c) && Shape(b) && Installs(c, b, x, o, n) && Speculation(c, -1)
    requires c.specMode || c.useSpec == b.useSpec
    ensures Speculation(b, -1)
  {
    InstallFields(c, b, x, o, n);
    hide Installs, Shape;
    assert forall z: nat :: IsBranch(b, -1, z) <==> IsBranch(c, -1, z);
  }

  lemma InstallQueues(c: Core, b: Core, x: nat, o: nat, n: Reg, w: set<nat>)
    requires Shape(c) && Shape(b) && Installs(c, b, x, o, n) && LinksOk(c, []) && Queues(c, []) && Status(c, w)
    requires x in w && (c.st[x].inLsq ==> c.st[x].kind != Store)
    ensures LinksOk(b, []) && Queues(b, []) && Status(b, w)
  {
    InstallLive(c, b, x, o, n);
    assert forall p: nat, u: nat, l :: InChain(b, p, u, l) ==> InChain(c, p, u, l);
    forall z: nat | Live(b, z) ensures QueueOk(b, [], z) && StatusOk(b, b.st[z], z, w) {
      assert Live(c, z) && QueueOk(c, [], z) && StatusOk(c, c.st[z], z, w);
    }
  }

  /** For a reader no younger than `x`, latest older writers are as before. */
  lemma InstallOlder(c: Core, b: Core, x: nat, o: nat, n: Reg, m: nat, bound: nat, q: nat)
    requires Shape(c) && Shape(b) && Installs(c, b, x, o, n) && bound <= c.st[x].num
    ensures Latest(b, m, bound, q) <==> Latest(c, m, bound, q)
  {
    InstallLive(c, b, x, o, n);
    assert forall z: nat :: z < |c.st| && z != x ==> b.st[z] == c.st[z];
    assert b.st[x].num == c.st[x].num;
  }

  /** For another register, latest writers are as before. */
  lemma InstallOther(c: Core, b: Core, x: nat, o: nat, n: Reg, m: nat, bound: nat, q: nat)
    requires Shape(c) && Shape(b) && Installs(c, b, x, o, n) && OutputFree(c, x, o) && m != n
    ensures Latest(b, m, bound, q) <==> Latest(c, m, bound, q)
    ensures LatestBase(b, m, q) <==> LatestBase(c, m, q)
  {
    InstallLive(c, b, x, o, n);
    assert forall z: nat :: z < |c.st| ==>
      Writes(b.st[z], m) == Writes(c.st[z], m) && b.st[z].num == c.st[z].num && b.st[z].specMode == c.st[z].specMode;
  }

  lemma InstallOwn(c: Core, b: Core, x: nat, o: nat, n: Reg)
    requires Shape(c) && Shape(b) && Installs(c, b, x, o, n) && Filling(c, x) && Order(c)
    ensures Latest(b, n, b.instSeq + 1, x)
    ensures !c.specMode ==> LatestBase(b, n, x)
    ensures forall q: nat :: c.specMode ==> (LatestBase(b, n, q) <==> LatestBase(c, n, q))
  {
    InstallLive(c, b, x, o, n);
    forall z: nat | Live(b, z) && Writes(b.st[z], n) ensures b.st[z].num <= b.st[x].num {
      assert Live(c, z);
      assert c.st[z].num > c.st[x].num ==> Untouched(c.st[z]);
    }
    if c.specMode {
      forall q: nat ensures LatestBase(b, n, q) <==> LatestBase(c, n, q) {
        assert forall z: nat :: Live(b, z) && Writes(b.st[z], n) && !b.st[z].specMode <==>
                                Live(c, z) && Writes(c.st[z], n) && !c.st[z].specMode;
      }
    }
  }

  lemma InstallBase(c: Core, b: Core, x: nat, o: nat, n: Reg)
    requires Shape(c) && Shape(b) && Installs(c, b, x, o, n) && OutputFree(c, x, o) && Filling(c, x) && Order(c)
    requires BaseVector(c, -1)
    ensures BaseVector(b, -1)
  {
    InstallLive(c, b, x, o, n);
    InstallOwn(c, b, x, o, n);
    forall m: nat | 0 < m < MD_TOTAL_REGS ensures BaseEntry(b, -1, m, b.cv[m]) {
      assert BaseEntry(c, -1, m, c.cv[m]);
      if m != n {
        forall q: nat ensures LatestBase(b, m, q) <==> LatestBase(c, m, q) {
          InstallOther(c, b, x, o, n, m, 0, q);
        }
      }
    }
  }

  lemma InstallSpecEntry(c: Core, b: Core, x: nat, o: nat, n: Reg, m: nat)
    requires Shape(c) && Shape(b) && Installs(c, b, x, o, n) && OutputFree(c, x, o) && m < MD_TOTAL_REGS && m != n
    requires SpecEntry(c, -1, m, c.scv[m])
    ensures SpecEntry(b, -1, m, c.scv[m])
  {
    InstallLive(c, b, x, o, n);
    var bound := c.instSeq + 1;
    forall q: nat ensures Latest(b, m, bound, q) <==> Latest(c, m, bound, q) {
      InstallOther(c, b, x, o, n, m, bound, q);
    }
  }

  lemma InstallSpec(c: Core, b: Core, x: nat, o: nat, n: Reg)
    requires Shape(c) && Shape(b) && Installs(c, b, x, o, n) && OutputFree(c, x, o) && Filling(c, x) && Order(c)
    requires Speculation(c, -1) && SpecVector(c, -1)
    ensures SpecVector(b, -1)
  {
    InstallLive(c, b, x, o, n);
    InstallOwn(c, b, x, o, n);
    forall m: nat | 0 < m < MD_TOTAL_REGS
      ensures if m in b.useSpec then SpecEntry(b, -1, m, b.scv[m]) else NoSpecWriter(b, m)
    {
      assert if m in c.useSpec then SpecEntry(c, -1, m, c.scv[m]) else NoSpecWriter(c, m);
      if m != n && m in c.useSpec {
        InstallSpecEntry(c, b, x, o, n, m);
      }
    }
  }

  lemma InstallOperands(c: Core, b: Core, x: nat, o: nat, n: Reg)
    requires Shape(c) && Shape(b) && Installs(c, b, x, o, n) && OutputFree(c, x, o) && Filling(c, x) && Operands(c, -1)
    ensures Operands(b, -1)
  {
    InstallLive(c, b, x, o, n);
    forall z: nat, k: nat | Live(b, z) && k < 3 ensures OperandOk(b, -1, z, k) {
      assert Live(c, z) && OperandOk(c, -1, z, k);
      if c.st[z].num <= c.st[x].num {
        forall q: nat ensures Latest(b, c.st[z].inames.Get(k), c.st[z].num, q) <==> Latest(c, c.st[z].inames.Get(k), c.st[z].num, q) {
          InstallOlder(c, b, x, o, n, c.st[z].inames.Get(k), c.st[z].num, q);
        }
      } else {
        assert Untouched(c.st[z]);
      }
    }
  }

  lemma InstallChains(c: Core, b: Core, x: nat, o: nat, n: Reg)
    requires Shape(c) && Shape(b) && Installs(c, b, x, o, n) && Chains(c, -1)
    ensures Chains(b, -1)
  {
    InstallLive(c, b, x, o, n);
    forall p: nat, u: nat, l | InChain(b, p, u, l) ensures ChainLinkOk(b, p, u, l) {
      assert InChain(c, p, u, l) && ChainLinkOk(c, p, u, l);
    }
    forall p: nat, u: nat | p < |b.st| && u < 2 && b.st[p].odeps.Get(u) != []
      ensures Pending(b, -1, p) && b.st[p].onames.Get(u) != NA
    {
      assert c.st[p].odeps.Get(u) != [];
    }
  }

  lemma InstallMemory(c: Core, b: Core, x: nat, o: nat, n: Reg)
    requires Shape(c) && Shape(b) && Installs(c, b, x, o, n) && MemoryOrder(c) && Timely(c)
    ensures MemoryOrder(b) && Timely(b)
  {
    InstallLive(c, b, x, o, n);
    forall z: nat | Live(b, z) && z >= b.R && b.st[z].kind == Load && Started(b.st[z]) ensures LoadSafe(b, z) {
      assert Live(c, z) && LoadSafe(c, z);
      assert forall y: nat :: IsOlderStore(b, z, y) <==> IsOlderStore(c, z, y);
      assert forall y: nat :: YoungestOlderStore(b, z, y) ==> YoungestOlderStore(c, z, y);
    }
  }

  lemma InstallConserved(c: Core, b: Core, x: nat, o: nat, n: Reg, pool: nat)
    requires Installs(c, b, x, o, n) && Conserved(c, [], multiset{}, pool)
    ensures Conserved(b, [], multiset{}, pool)
  {
    SameChainIds(c.st, x, b.st[x]);
    hide ChainIds, Ids;
    assert AllIds(b, []) == AllIds(c, []);
  }

  lemma InstallsKeeps(c: Core, b: Core, x: nat, o: nat, n: Reg, w: set<nat>, pool: nat)
    requires Sound(c, IDLE.(w := w), pool) && SpecVector(c, -1) && Shape(c) && Filling(c, x) && x < |c.st| && OutputFree(c, x, o)
    requires Installs(c, b, x, o, n) && x in w && (c.st[x].inLsq ==> c.st[x].kind != Store)
    ensures Sound(b, IDLE.(w := w), pool) && SpecVector(b, -1) && Shape(b)
  {
    hide *;
    FillingSplit(c, w, pool);
    InstallShape(c, b, x, o, n);
    InstallOrder(c, b, x, o, n);
    InstallPairs(c, b, x, o, n);
    InstallSpeculation(c, b, x, o, n);
    InstallQueues(c, b, x, o, n, w);
    InstallBase(c, b, x, o, n);
    InstallSpec(c, b, x, o, n);
    InstallOperands(c, b, x, o, n);
    InstallChains(c, b, x, o, n);
    InstallMemory(c, b, x, o, n);
    InstallConserved(c, b, x, o, n, pool);
    FillingJoin(b, w, pool);
  }

  lemma InstallShape(c: Core, b: Core, x: nat, o: nat, n: Reg)
    requires Shape(c) && Installs(c, b, x, o, n)
    ensures Shape(b) && |b.st| == b.R + b.L && |b.cv| == MD_TOTAL_REGS && |b.scv| == MD_TOTAL_REGS
    ensures c.specMode || c.useSpec == b.useSpec
  {
  }

  /** What installing outputs leaves alone. */
  ghost predicate OnlyOutputs(c: Core, b: Core, x: nat) {
    && b == c.(st := b.st, cv := b.cv, scv := b.scv, useSpec := b.useSpec) && |b.st| == |c.st| && x < |c.st|
    && (forall z: nat :: z < |c.st| && z != x ==> b.st[z] == c.st[z])
    && b.st[x] == c.st[x].(onames := b.st[x].onames)
  }

  lemma OnlyOutputsFilling(c: Core, b: Core, x: nat)
    requires Shape(c) && OnlyOutputs(c, b, x) && Filling(c, x)
    ensures |b.st| == b.R + b.L && Filling(b, x)
  {
    assert forall z: nat :: Live(b, z) ==> Live(c, z);
  }

  lemma OutputChainEmpty(c: Core, x: nat, o: nat)
    requires Shape(c) && x < |c.st| && OutputFree(c, x, o) && Chains(c, -1)
    ensures c.st[x].odeps.Get(o) == []
  {
  }

  lemma InstallsOnly(c: Core, b: Core, x: nat, o: nat, n: Reg)
    requires Shape(c) && Installs(c, b, x, o, n)
    ensures OnlyOutputs(c, b, x) && b.st[x].onames == c.st[x].onames.Set(o, n)
  {
  }

  lemma InstallKeeps(c: Core, x: nat, o: nat, n: Reg, w: set<nat>, pool: nat)
    requires Sound(c, IDLE.(w := w), pool) && SpecVector(c, -1) && Shape(c) && Filling(c, x) && x < |c.st| && OutputFree(c, x, o)
    requires x in w && (n != NA && c.st[x].inLsq ==> c.st[x].kind != Store)
    ensures var b := InstallOdep(c, x, o, n);
            && Sound(b, IDLE.(w := w), pool) && SpecVector(b, -1) && Shape(b) && |b.st| == b.R + b.L && Filling(b, x)
            && OnlyOutputs(c, b, x) && b.st[x].onames == c.st[x].onames.Set(o, n)
  {
    FillingSplit(c, w, pool);
    OutputChainEmpty(c, x, o);
    InstallIs(c, x, o, n);
    var b := InstallOdep(c, x, o, n);
    SetSame(c, x, o);
    hide *;
    if n != NA {
      InstallsKeeps(c, b, x, o, n, w, pool);
      InstallsOnly(c, b, x, o, n);
      OnlyOutputsFilling(c, b, x);
    }
  }

  lemma SetSame(c: Core, x: nat, o: nat)
    requires Shape(c) && x < |c.st| && OutputFree(c, x, o)
    ensures OnlyOutputs(c, c, x) && c.st[x].onames == c.st[x].onames.Set(o, NA)
    ensures o < 2 && |c.st| == c.R + c.L
  {
  }

  lemma InstallTwoKeeps(c: Core, x: nat, n0: Reg, n1: Reg, w: set<nat>, pool: nat)
    requires Sound(c, IDLE.(w := w), pool) && SpecVector(c, -1) && Shape(c) && Filling(c, x) && x < |c.st| && NoOutputs(c.st[x])
    requires x in w && (c.st[x].inLsq && c.st[x].kind == Store ==> n0 == NA && n1 == NA)
    ensures var b := InstallTwo(c, x, n0, n1);
            && Sound(b, IDLE.(w := w), pool) && SpecVector(b, -1) && Shape(b) && |b.st| == b.R + b.L && Filling(b, x)
            && OnlyOutputs(c, b, x) && b.st[x].onames == Duo(n0, n1)
  {
    var a := InstallOdep(c, x, 0, n0);
    FreeOutputs(c, x);
    InstallKeeps(c, x, 0, n0, w, pool);
    SecondFree(c, a, x, n0);
    InstallKeeps(a, x, 1, n1, w, pool);
    BothOutputs(c, a, InstallOdep(a, x, 1, n1), x, n0, n1);
    hide *;
  }

  lemma FreeOutputs(c: Core, x: nat)
    requires x < |c.st| && NoOutputs(c.st[x])
    ensures OutputFree(c, x, 0)
  {
  }

  lemma SecondFree(c: Core, a: Core, x: nat, n0: Reg)
    requires OnlyOutputs(c, a, x) && NoOutputs(c.st[x]) && a.st[x].onames == c.st[x].onames.Set(0, n0)
    ensures OutputFree(a, x, 1) && a.st[x].inLsq == c.st[x].inLsq && a.st[x].kind == c.st[x].kind
  {
  }

  lemma BothOutputs(c: Core, a: Core, b: Core, x: nat, n0: Reg, n1: Reg)
    requires OnlyOutputs(c, a, x) && NoOutputs(c.st[x]) && a.st[x].onames == c.st[x].onames.Set(0, n0)
    requires OnlyOutputs(a, b, x) && b.st[x].onames == a.st[x].onames.Set(1, n1)
    ensures OnlyOutputs(c, b, x) && b.st[x].onames == Duo(n0, n1)
  {
  }
}
