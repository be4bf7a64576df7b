/** Dispatch: new numbers leave no gap, new consumers are for new operands, and an instruction
    takes eight link records at most. */
module RuuDispatchBound {
  import opened RuuTypes
  import opened RuuSteps
  import opened RuuInvariants
  import opened RuuNumberSets
  import opened RuuChainCodes
  import opened RuuTame
  import opened RuuStill
  import opened RuuLinkRoom
  import opened RuuNumbers
  import opened RuuConsumers
  import opened RuuDispatchStage
  import Events = RuuEventProof

  // ----- the new entries -----

  /** Entries `x` and, for a memory operation, `y` are new in `b`; nothing else changed. */
  ghost predicate Enlarges(c: Core, b: Core, x: nat, y: nat) {
    && Shape(b) && SameSize(c, b) && x < |c.st| && y < |c.st| && !Live(c, x) && !Live(c, y)
    && b == c.(st := b.st, rn := c.rn + 1, ln := b.ln, instSeq := c.instSeq + if x == y then 1 else 2)
    && (forall z: nat :: Live(b, z) <==> Live(c, z) || z == x || z == y)
    && (forall z: nat :: z < |c.st| && z != x && z != y ==> b.st[z] == c.st[z])
    && (forall z: nat :: z < |c.st| ==> b.st[z].tag == c.st[z].tag && b.st[z].odeps == c.st[z].odeps)
    && b.st[x].num == c.instSeq + 1 && b.st[x].specMode == c.specMode
    && b.st[y].num == b.instSeq && b.st[y].specMode == c.specMode
  }

  lemma AllocateEnlarges(c: Core, i: Inst)
    requires Shape(c) && c.rn < c.R && c.ln < c.L
    ensures 0 <= Tail(c) < |c.st| && 0 <= LsqTail(c) < |c.st| && Tail(c) != LsqTail(c)
    ensures Enlarges(c, Allocate(c, i), Tail(c), if i.kind == Alu then Tail(c) else LsqTail(c))
  {
    TailDead(c);
    if i.kind == Alu {
      AllocateOpLive(c, i);
    } else {
      AllocateMemIs(c, i);
      AllocateMemLive(c, i);
    }
    hide Allocate;
  }

  /** The numbers of the new entries. */
  ghost function NewNums(c: Core, b: Core): set<nat> { {c.instSeq + 1, b.instSeq} }

  lemma EnlargesNums(c: Core, b: Core, x: nat, y: nat)
    requires Shape(c) && Enlarges(c, b, x, y)
    ensures Nums(b) == Nums(c) + NewNums(c, b)
    ensures Firm(b) == Firm(c) + if c.specMode then {} else NewNums(c, b)
  {
    assert Live(b, x) && Live(b, y);
    forall a: nat ensures a in Nums(b) <==> a in Nums(c) + NewNums(c, b) {
      if a in Nums(b) {
        var z: nat :| z < |b.st| && Live(b, z) && b.st[z].num == a;
      }
      if a in Nums(c) {
        var z: nat :| z < |c.st| && Live(c, z) && c.st[z].num == a;
        assert Live(b, z);
      }
    }
    forall a: nat ensures a in Firm(b) <==> a in Firm(c) || (!c.specMode && a in NewNums(c, b)) {
      if a in Firm(b) {
        var z: nat :| z < |b.st| && Live(b, z) && !b.st[z].specMode && b.st[z].num == a;
      }
      if a in Firm(c) {
        var z: nat :| z < |c.st| && Live(c, z) && !c.st[z].specMode && c.st[z].num == a;
        assert Live(b, z);
      }
    }
  }

  lemma NumsBelow(c: Core)
    requires Shape(c) && Order(c)
    ensures |c.st| == c.R + c.L && forall a: nat :: a in Nums(c) ==> a <= c.instSeq
  {
  }

  lemma EnlargesParts(c: Core, b: Core, x: nat, y: nat)
    requires Enlarges(c, b, x, y)
    ensures b.R == c.R && b.L == c.L && b.specMode == c.specMode && b.instSeq == c.instSeq + if x == y then 1 else 2
  {
  }

  lemma EnlargesNumbered(c: Core, b: Core, x: nat, y: nat)
    requires Shape(c) && Enlarges(c, b, x, y) && Order(c) && Numbered(c)
    ensures Numbered(b) && (!c.specMode ==> b.instSeq in Firm(b))
  {
    hide *;
    EnlargesNums(c, b, x, y);
    NumsBelow(c);
    EnlargesParts(c, b, x, y);
    JoinNumbered(c, b);
  }

  lemma JoinNumbered(c: Core, b: Core)
    requires |c.st| == c.R + c.L && Numbered(c) && (forall a: nat :: a in Nums(c) ==> a <= c.instSeq)
    requires Nums(b) == Nums(c) + NewNums(c, b) && Firm(b) == Firm(c) + if c.specMode then {} else NewNums(c, b)
    requires b.R == c.R && b.L == c.L && b.specMode == c.specMode && c.instSeq < b.instSeq <= c.instSeq + 2
    ensures Numbered(b) && (!c.specMode ==> b.instSeq in Firm(b))
  {
    hide Nums, Firm, Gaps, Dense;
    ExtendGaps(Nums(c), c.instSeq, b.instSeq, c.R + c.L - 1);
    if c.specMode {
      ExtendDense(Nums(c), Firm(c), c.instSeq, b.instSeq);
      assert Firm(c) + {} == Firm(c);
    }
  }

  /** A free slot has no consumers. */
  lemma NoConsumers(c: Core, x: nat)
    requires |c.st| == c.R + c.L && Chains(c, -1) && x < |c.st| && !Live(c, x)
    ensures StationCodes(c.st[x]) == multiset{}
  {
    assert c.st[x].odeps.Get(0) == [] && c.st[x].odeps.Get(1) == [];
  }

  lemma CodesBelow(c: Core)
    requires |c.st| == c.R + c.L && Chains(c, -1) && LinksOk(c, [])
    ensures Below(c, 3 * (c.instSeq + 1))
  {
    forall k: nat | k in ChainCodes(c.st) ensures k < 3 * (c.instSeq + 1) {
      var p := ChainCodeIn(c.st, k);
      var o := if k in Codes(c.st[p].odeps.a) then 0 else 1;
      CodeIn(c.st[p].odeps.Get(o), k);
      var l: Link :| l in c.st[p].odeps.Get(o) && Code(l) == k;
      assert InChain(c, p, o, l) && ChainLinkOk(c, p, o, l) && LinkOk(c, l);
    }
  }

  lemma CreatorsOlder(c: Core)
    requires Shape(c) && BaseVector(c, -1) && SpecVector(c, -1) && Order(c)
    ensures CreatorsBelow(c, c.instSeq + 1)
    ensures forall n: nat :: 0 < n < MD_TOTAL_REGS ==>
              && (n in c.useSpec && c.scv[n].By? ==> Live(c, c.scv[n].slot))
              && (c.cv[n].By? ==> Live(c, c.cv[n].slot))
  {
    forall n: nat | 0 < n < MD_TOTAL_REGS
      ensures n in c.useSpec && c.scv[n].By? ==> Live(c, c.scv[n].slot)
      ensures c.cv[n].By? ==> Live(c, c.cv[n].slot) {
      assert BaseEntry(c, -1, n, c.cv[n]);
      assert if n in c.useSpec then SpecEntry(c, -1, n, c.scv[n]) else NoSpecWriter(c, n);
    }
  }

  lemma EnlargesLinked(c: Core, b: Core, x: nat, y: nat, pool: nat)
    requires Inv(c, pool) && Shape(c) && Enlarges(c, b, x, y) && Consumers(c)
    ensures Linked(b, x, 0)
  {
    Events.IdleSplit(c, pool);
    hide Inv;
    NoConsumers(c, x);
    NoConsumers(c, y);
    CodesBelow(c);
    CreatorsOlder(c);
    hide Order, Pairs, Speculation, LinksOk, Status, Queues, BaseVector, SpecVector, Operands, Chains, MemoryOrder, StationCodes;
    EnlargesConsumers(c, b, x, y);
    EnlargesCreators(c, b, x, y);
  }

  lemma EnlargesConsumers(c: Core, b: Core, x: nat, y: nat)
    requires Shape(c) && Enlarges(c, b, x, y) && Consumers(c)
    requires StationCodes(c.st[x]) == StationCodes(c.st[y]) == multiset{}
    ensures Consumers(b) && forall lim: nat :: Below(c, lim) ==> Below(b, lim)
  {
    EnlargesCodes(c, b, x, y);
    hide StationCodes, Codes, Shape, Live;
    forall k: nat ensures ChainCodes(b.st)[k] <= ChainCodes(c.st)[k] {
      FewerCodes(c.st, b.st, k);
    }
    hide ChainCodes;
    assert Young(b);
  }

  lemma EnlargesCodes(c: Core, b: Core, x: nat, y: nat)
    requires Enlarges(c, b, x, y)
    ensures |b.st| == |c.st| && forall z: nat :: z < |c.st| ==> StationCodes(b.st[z]) == StationCodes(c.st[z])
  {
    hide Codes;
  }

  lemma EnlargesCreators(c: Core, b: Core, x: nat, y: nat)
    requires Shape(c) && Enlarges(c, b, x, y) && CreatorsBelow(c, c.instSeq + 1)
    requires forall n: nat :: 0 < n < MD_TOTAL_REGS ==>
               && (n in c.useSpec && c.scv[n].By? ==> Live(c, c.scv[n].slot))
               && (c.cv[n].By? ==> Live(c, c.cv[n].slot))
    ensures CreatorsBelow(b, c.instSeq + 1)
  {
    forall n: nat | 0 < n < MD_TOTAL_REGS
      ensures n in b.useSpec && b.scv[n].By? ==> b.st[b.scv[n].slot].num < c.instSeq + 1
      ensures b.cv[n].By? ==> b.st[b.cv[n].slot].num < c.instSeq + 1 {
      assert n in c.useSpec && c.scv[n].By? ==> Live(c, c.scv[n].slot);
      assert c.cv[n].By? ==> Live(c, c.cv[n].slot);
    }
  }

  // ----- one instruction -----

  /** The entry in `b` since `c0`: consumers in order, `k` records less. */
  ghost predicate Filled(c0: Core, r: Outcome, k: int) {
    Roomy(r, |c0.free| - k) && (r.Ok? ==> Shape(r.core) && |r.core.st| == |c0.st| && Still(c0, r.core) && Consumers(r.core))
  }

  lemma FillThree(c: Core, x: nat, n0: Reg, n1: Reg, n2: Reg)
    requires Shape(c) && x < |c.st| && Linked(c, x, 0) && |c.free| >= 3
    ensures var r := LinkThree(c, x, n0, n1, n2);
            Filled(c, r, 3) && (r.Ok? ==> Linked(r.core, x, 3) && r.core.st[x].num == c.st[x].num)
  {
    ThreeConsumers(c, x, n0, n1, n2);
    ThreeStill(c, x, n0, n1, n2);
    ThreeRoom(c, x, n0, n1, n2);
    hide LinkThree, Still, Consumers, Below, CreatorsBelow;
  }

  lemma FillTwo(c: Core, x: nat, n0: Reg, n1: Reg)
    requires Shape(c) && x < |c.st| && Linked(c, x, 3)
    ensures var b, m := InstallTwo(c, x, n0, n1), c.st[x].num;
            && Filled(c, Ok(b), 0) && CreatorsBelow(b, m + 1) && Below(b, 3 * (m + 1))
            && forall z: nat :: z < |c.st| ==> b.st[z].num == c.st[z].num
  {
    assert CreatorsBelow(c, c.st[x].num + 1);
    TwoConsumers(c, x, n0, n1, c.st[x].num + 1, 3 * c.st[x].num + 3);
    TwoStill(c, x, n0, n1);
    TwoRoom(c, x, n0, n1);
    hide InstallTwo, Still, Consumers, Below, CreatorsBelow;
  }

  lemma TwoRoom(c: Core, x: nat, n0: Reg, n1: Reg)
    requires Shape(c) && x < |c.st|
    ensures InstallTwo(c, x, n0, n1).free == c.free
  {
  }

  lemma FillReady(c: Core, x: nat)
    requires Shape(c) && x < |c.st| && |c.free| >= 1 && Consumers(c)
    ensures Filled(c, EnqueueIfReady(c, x), 1)
  {
    ReadyStill(c, x);
    ReadyRoom(c, x);
    ReadyLoses(c, x);
    var r := EnqueueIfReady(c, x);
    if r.Ok? {
      LosesConsumers(c, r.core);
    }
    hide EnqueueIfReady, Still, Consumers, Loses;
  }

  lemma ReadyLoses(c: Core, x: nat)
    requires Shape(c) && x < |c.st|
    ensures EnqueueIfReady(c, x).Ok? ==> Loses(c, EnqueueIfReady(c, x).core)
  {
    EnqueueTame(c, x);
    SameTame(c);
    hide Enqueue, Tame, Loses;
    if EnqueueIfReady(c, x).Ok? {
      TameLoses(c, EnqueueIfReady(c, x).core);
    }
  }

  lemma FilledThen(a: Core, b: Core, r: Outcome, j: nat, k: nat)
    requires Filled(a, Ok(b), j) && Filled(b, r, k)
    ensures Filled(a, r, j + k)
  {
    StillThen(a, b, r);
    hide Still, Consumers;
  }

  lemma FilledParts(a: Core, r: Outcome, k: nat)
    requires Filled(a, r, k) && r.Ok?
    ensures Shape(r.core) && |r.core.st| == |a.st| && Consumers(r.core) && |r.core.free| >= |a.free| - k && Filled(a, Ok(r.core), k)
  {
  }

  lemma FilledMore(a: Core, r: Outcome, j: nat, k: nat)
    requires Filled(a, r, j) && j <= k
    ensures Filled(a, r, k)
  {
  }

  lemma OpBound(c: Core, i: Inst)
    requires Shape(c) && c.rn < c.R && c.ln < c.L && WellFormed(i) && i.kind == Alu
    requires 0 <= Tail(c) && Linked(Allocate(c, i), Tail(c), 0) && |Allocate(c, i).free| >= 8
    ensures Filled(Allocate(c, i), DispatchOp(c, i), 8)
  {
    hide *;
    DispatchOpIs(c, i);
    var x, c0 := Tail(c), Allocate(c, i);
    FillThree(c0, x, i.in1, i.in2, i.in3);
    var r := LinkThree(c0, x, i.in1, i.in2, i.in3);
    if r.Ok? {
      FilledParts(c0, r, 3);
      FillTwo(r.core, x, i.out1, i.out2);
      var b := InstallTwo(r.core, x, i.out1, i.out2);
      FilledThen(c0, r.core, Ok(b), 3, 0);
      FilledParts(c0, Ok(b), 3);
      FillReady(b, x);
      FilledThen(c0, b, EnqueueIfReady(b, x), 3, 1);
      FilledMore(c0, EnqueueIfReady(b, x), 4, 8);
    } else {
      FilledMore(c0, r, 3, 8);
    }
  }

  /** After the address half, the memory half can be linked. */
  lemma SecondLinked(b: Core, x: nat, y: nat)
    requires Shape(b) && x < |b.st| && y < |b.st| && Consumers(b) && b.st[y].num == b.st[x].num + 1
    requires CreatorsBelow(b, b.st[x].num + 1) && Below(b, 3 * (b.st[x].num + 1))
    ensures Linked(b, y, 0)
  {
  }

  lemma MemBound(c: Core, i: Inst)
    requires Shape(c) && c.rn < c.R && c.ln < c.L && WellFormed(i) && i.kind != Alu
    requires 0 <= Tail(c) && Linked(Allocate(c, i), Tail(c), 0) && |Allocate(c, i).free| >= 8
    requires 0 <= LsqTail(c) < |Allocate(c, i).st| && Tail(c) < |Allocate(c, i).st|
    requires Allocate(c, i).st[LsqTail(c)].num == Allocate(c, i).st[Tail(c)].num + 1
    ensures Filled(Allocate(c, i), DispatchMem(c, i), 8)
  {
    hide *;
    DispatchMemIs(c, i);
    var x, y, c0 := Tail(c), LsqTail(c), Allocate(c, i);
    FillThree(c0, x, NA, i.in2, i.in3);
    var r := LinkThree(c0, x, NA, i.in2, i.in3);
    FilledMore(c0, r, 3, 8);
    if r.Ok? {
      FilledParts(c0, r, 3);
      FillTwo(r.core, x, DTMP, NA);
      var c2 := InstallTwo(r.core, x, DTMP, NA);
      FilledThen(c0, r.core, Ok(c2), 3, 0);
      FilledParts(c0, Ok(c2), 3);
      FilledNums(c0, c2, 3);
      SecondLinked(c2, x, y);
      FillThree(c2, y, i.in1, DTMP, NA);
      var q := LinkThree(c2, y, i.in1, DTMP, NA);
      FilledThen(c0, c2, q, 3, 3);
      FilledMore(c0, q, 6, 8);
      if q.Ok? {
        FilledParts(c0, q, 6);
        MemEnds(c0, q.core, i, x, y);
      }
    }
  }

  lemma FilledNums(a: Core, b: Core, k: nat)
    requires Filled(a, Ok(b), k)
    ensures |b.st| == |a.st| && forall z: nat :: z < |a.st| ==> b.st[z].num == a.st[z].num
  {
  }

  lemma MemEnds(c0: Core, d: Core, i: Inst, x: nat, y: nat)
    requires Shape(d) && Filled(c0, Ok(d), 6) && x < |d.st| && y < |d.st| && Linked(d, y, 3) && |d.free| >= 2
    ensures var p := EnqueueIfReady(InstallTwo(d, y, i.out1, i.out2), x);
            && (p.Stop? ==> Filled(c0, p, 8))
            && (p.Ok? ==> y < |p.core.st| && Filled(c0, if i.kind == Store then EnqueueIfReady(p.core, y) else Ok(p.core), 8))
  {
    hide *;
    var b := InstallTwo(d, y, i.out1, i.out2);
    FillTwo(d, y, i.out1, i.out2);
    FilledThen(c0, d, Ok(b), 6, 0);
    FilledParts(d, Ok(b), 0);
    FillReady(b, x);
    var p := EnqueueIfReady(b, x);
    FilledThen(c0, b, p, 6, 1);
    FilledMore(c0, p, 7, 8);
    if p.Ok? {
      FilledParts(b, p, 1);
      FilledParts(c0, p, 7);
      FillReady(p.core, y);
      FilledThen(c0, p.core, EnqueueIfReady(p.core, y), 7, 1);
    }
  }
}
