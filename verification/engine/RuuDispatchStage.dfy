/** The dispatch stage as a whole, and the switch into mis-speculation. */
module RuuDispatchStage {
  import opened RuuTypes
  import opened RuuSteps
  import opened RuuInvariants
  import opened RuuLists
  import opened RuuFrame
  import opened RuuAllocateProof
  import opened RuuLinkProof
  import opened RuuInstallProof
  import opened RuuDispatchProof
  import Events = RuuEventProof

  // ----- allocation -----

  lemma TailDead(c: Core)
    requires Shape(c)
    ensures c.rn < c.R ==> 0 <= Tail(c) < c.R && !Live(c, Tail(c))
    ensures c.ln < c.L ==> c.R <= LsqTail(c) < c.R + c.L && !Live(c, LsqTail(c))
  {
  }

  lemma AllocateOpLive(c: Core, i: Inst)
    requires Shape(c) && c.rn < c.R && c.ln < c.L && i.kind == Alu
    ensures var b, x := Allocate(c, i), Tail(c);
            && 0 <= x < c.R && !Live(c, x)
            && (forall z: nat :: Live(b, z) <==> Live(c, z) || z == x)
            && b == c.(st := c.st[x := Blank(c.st[x], i, false, c.specMode, c.instSeq + 1, LsqTail(c))], rn := c.rn + 1, instSeq := c.instSeq + 1)
  {
    TailDead(c);
  }

  lemma AllocateOpGrows(c: Core, i: Inst)
    requires Shape(c) && c.rn < c.R && c.ln < c.L && i.kind == Alu
    ensures var b, x := Allocate(c, i), Tail(c);
            && Shape(b) && Grows(c, b) && (forall z: nat :: New(c, b, z) ==> z in {x})
  {
    AllocateOpLive(c, i);
    hide Allocate;
  }

  lemma AllocateOpOrder(c: Core, i: Inst)
    requires Shape(c) && c.rn < c.R && c.ln < c.L && i.kind == Alu
    ensures var b := Allocate(c, i);
            && Shape(b) && NewInOrder(c, b) && NewPaired(c, b)
  {
    var b := Allocate(c, i);
    AllocateOpLive(c, i);
    hide Allocate, Shape;
    assert forall y: nat, z: nat :: RuuBefore(b, y, z) ==> RuuBefore(c, y, z) || (Live(c, y) && New(c, b, z));
    assert forall y: nat, z: nat :: LsqBefore(b, y, z) ==> LsqBefore(c, y, z) || (Live(c, y) && New(c, b, z));
  }

  lemma AllocateOpIds(c: Core, i: Inst)
    requires Shape(c) && c.rn < c.R && c.ln < c.L && i.kind == Alu
    ensures ChainIds(Allocate(c, i).st) == ChainIds(c.st)
  {
    var b, x := Allocate(c, i), Tail(c);
    AllocateOpLive(c, i);
    hide ChainIds, Allocate, Live, Shape;
    SameChainIds(c.st, x, b.st[x]);
  }

  lemma AllocateOpFilling(c: Core, i: Inst)
    requires Shape(c) && c.rn < c.R && c.ln < c.L && i.kind == Alu && Order(c)
    ensures var b, x := Allocate(c, i), Tail(c);
            && |b.st| == b.R + b.L && 0 <= x < |b.st| && Filling(b, x) && NoOutputs(b.st[x]) && AllFree(b.st[x])
            && !b.st[x].inLsq && !b.st[x].eaComp && x < b.R
  {
    AllocateOpLive(c, i);
  }

  lemma AllocateMemIs(c: Core, i: Inst)
    requires Shape(c) && c.rn < c.R && c.ln < c.L && i.kind != Alu
    ensures var b, x, y := Allocate(c, i), Tail(c), LsqTail(c);
            && 0 <= x < c.R <= y < c.R + c.L && !Live(c, x) && !Live(c, y)
            && b == c.(st := c.st[x := Blank(c.st[x], i, false, c.specMode, c.instSeq + 1, y)]
                                 [y := Blank(c.st[y], i, true, c.specMode, c.instSeq + 2, x)],
                       rn := c.rn + 1, ln := c.ln + 1, instSeq := c.instSeq + 2)
  {
    TailDead(c);
  }

  lemma AllocateMemLive(c: Core, i: Inst)
    requires Shape(c) && c.rn < c.R && c.ln < c.L && i.kind != Alu
    ensures var b, x, y := Allocate(c, i), Tail(c), LsqTail(c);
            forall z: nat :: Live(b, z) <==> Live(c, z) || z == x || z == y
  {
    AllocateMemIs(c, i);
  }

  lemma AllocateMemGrows(c: Core, i: Inst)
    requires Shape(c) && c.rn < c.R && c.ln < c.L && i.kind != Alu
    ensures var b, x, y := Allocate(c, i), Tail(c), LsqTail(c);
            && Shape(b) && Grows(c, b) && (forall z: nat :: New(c, b, z) ==> z in {x, y})
  {
    AllocateMemIs(c, i);
    AllocateMemLive(c, i);
    hide Allocate;
  }

  lemma AllocateMemOrder(c: Core, i: Inst)
    requires Shape(c) && c.rn < c.R && c.ln < c.L && i.kind != Alu
    ensures Shape(Allocate(c, i)) && NewInOrder(c, Allocate(c, i))
  {
    var b := Allocate(c, i);
    AllocateMemIs(c, i);
    AllocateMemLive(c, i);
    hide Allocate, Shape;
    assert forall u: nat, z: nat :: RuuBefore(b, u, z) ==> RuuBefore(c, u, z) || (Live(c, u) && New(c, b, z));
    assert forall u: nat, z: nat :: LsqBefore(b, u, z) ==> LsqBefore(c, u, z) || (Live(c, u) && New(c, b, z));
  }

  lemma AllocateMemPaired(c: Core, i: Inst)
    requires Shape(c) && c.rn < c.R && c.ln < c.L && i.kind != Alu
    ensures Shape(Allocate(c, i)) && NewPaired(c, Allocate(c, i))
  {
    AllocateMemIs(c, i);
    AllocateMemLive(c, i);
    hide Allocate, Shape, Live;
  }

  lemma AllocateMemIds(c: Core, i: Inst)
    requires Shape(c) && c.rn < c.R && c.ln < c.L && i.kind != Alu
    ensures ChainIds(Allocate(c, i).st) == ChainIds(c.st)
  {
    var b, x, y := Allocate(c, i), Tail(c), LsqTail(c);
    AllocateMemIs(c, i);
    var s, t := b.st[x], b.st[y];
    assert b.st == c.st[x := s][y := t];
    hide Allocate, ChainIds, Shape, Live;
    SameChainIds(c.st, x, s);
    SameChainIds(c.st[x := s], y, t);
  }

  lemma AllocateMemFilling(c: Core, i: Inst)
    requires Shape(c) && c.rn < c.R && c.ln < c.L && i.kind != Alu && Order(c)
    ensures var b, x, y := Allocate(c, i), Tail(c), LsqTail(c);
            && |b.st| == b.R + b.L && 0 <= x < b.R <= y < |b.st| && x != y
            && Filling(b, x) && NoOutputs(b.st[x]) && AllFree(b.st[x]) && !b.st[x].inLsq
            && Filling(b, y) && NoOutputs(b.st[y]) && AllFree(b.st[y]) && b.st[y].inLsq && b.st[y].kind == i.kind && !b.st[y].eaComp
            && b.st[x].kind == Alu && b.st[x].num < b.st[y].num
  {
    AllocateMemIs(c, i);
    AllocateMemLive(c, i);
    hide Allocate;
  }

  // ----- a plain operation -----

  ghost predicate NewGood(c: Core, r: Outcome, x: nat, pool: nat) {
    match r
    case Ok(b) => Inv(b, pool) && NewEntry(c, b, x)
    case Stop(why) => why == OutOfLinks
  }

  /** `b` is `c` with a new youngest RUU entry in slot `x`; the clock stands still. */
  ghost predicate NewEntry(c: Core, b: Core, x: nat) {
    && b.R == c.R && b.L == c.L && b.rn == c.rn + 1 && b.rh == c.rh && b.specMode == c.specMode
    && b.events == c.events && b.cycle == c.cycle && b.instSeq > c.instSeq
    && x < |b.st| && x < c.R && !b.st[x].completed && b.st[x].specMode == c.specMode && Live(b, x)
    && b.st[x].num == c.instSeq + 1
    && (forall z: nat :: Live(b, z) ==> (Live(c, z) && z < |c.st| && z < |b.st| && b.st[z].num == c.st[z].num)
                                        || (z < |b.st| && b.st[z].num > c.instSeq))
    && (forall z: nat :: Live(b, z) && z < c.R && z != x ==> Live(c, z))
  }

  lemma DispatchOpIs(c: Core, i: Inst)
    requires Shape(c) && c.rn < c.R && c.ln < c.L && WellFormed(i)
    ensures var x, c0 := Tail(c), Allocate(c, i);
            && 0 <= x < |c0.st| && Shape(c0)
            && DispatchOp(c, i) ==
              var r := LinkThree(c0, x, i.in1, i.in2, i.in3);
              if r.Stop? then r else EnqueueIfReady(InstallTwo(r.core, x, i.out1, i.out2), x)
  {
  }

  lemma ThreeParts(c: Core, r: Outcome, x: nat, n0: Reg, n1: Reg, n2: Reg, w: set<nat>, pool: nat)
    requires ThreeGood(c, r, x, n0, n1, n2, w, pool) && Shape(c) && Filling(c, x) && NoOutputs(c.st[x])
    ensures r.Stop? ==> r == Stop(OutOfLinks)
    ensures r.Ok? ==>
              var b := r.core;
              && Shape(b) && |b.st| == b.R + b.L && Sound(b, IDLE.(w := w), pool) && SpecVector(b, -1)
              && OnlyLinks(c, b, x) && Filling(b, x) && x < |b.st| && NoOutputs(b.st[x]) && b.st[x].inames == Tri(n0, n1, n2)
              && b.st[x].inLsq == c.st[x].inLsq && b.st[x].kind == c.st[x].kind && b.st[x].eaComp == c.st[x].eaComp
  {
    if r.Ok? {
      OnlyLinksFilling(c, r.core, x);
    }
  }

  lemma OpFilled(c: Core, a: Core, b: Core, x: nat)
    requires OnlyLinks(c, a, x) && OnlyOutputs(a, b, x) && x < c.R && !a.st[x].eaComp && !a.st[x].inLsq
    ensures x < |b.st| && x < b.R && Filled(b.st[x])
  {
  }

  lemma ReadyParts(r: Outcome, c: Core, x: nat, w: set<nat>, pool: nat)
    requires ReadyGood(r, c, x, w, pool)
    ensures r.Stop? ==> r == Stop(OutOfLinks)
    ensures r.Ok? ==>
              && Shape(r.core) && |r.core.st| == r.core.R + r.core.L && |r.core.scv| == MD_TOTAL_REGS
              && Sound(r.core, IDLE.(w := w), pool) && SpecVector(r.core, -1) && SameEntries(c, r.core, x)
  {
  }

  lemma OpNewEntry(c: Core, i: Inst, c0: Core, c1: Core, c2: Core, c3: Core, x: nat)
    requires Shape(c) && c.rn < c.R && c.ln < c.L && i.kind == Alu && c0 == Allocate(c, i) && x == Tail(c)
    requires OnlyLinks(c0, c1, x) && OnlyOutputs(c1, c2, x) && SameEntries(c2, c3, x)
    ensures NewEntry(c, c3, x)
  {
    AllocateOpLive(c, i);
    assert forall z: nat :: z < |c3.st| ==> c3.st[z].num == c0.st[z].num;
    assert forall z: nat :: Live(c3, z) <==> Live(c0, z);
  }

  lemma FillingRests(c: Core, x: nat)
    requires |c.st| == c.R + c.L && Filling(c, x)
    ensures Resting(c, x)
  {
  }

  lemma InvFromSound(c: Core, x: nat, pool: nat)
    requires Sound(c, IDLE.(w := {x} - {x}), pool) && |c.scv| == MD_TOTAL_REGS && |c.st| == c.R + c.L && SpecVector(c, -1)
    ensures Inv(c, pool)
  {
    assert {x} - {x} == {};
  }

  lemma NewGoodStop(c: Core, x: nat, pool: nat)
    ensures NewGood(c, Stop(OutOfLinks), x, pool)
  {
  }

  lemma NewGoodOk(c: Core, b: Core, x: nat, pool: nat)
    requires Inv(b, pool) && NewEntry(c, b, x)
    ensures NewGood(c, Ok(b), x, pool)
  {
  }

  lemma DispatchOpKeeps(c: Core, i: Inst, pool: nat)
    requires Inv(c, pool) && Shape(c) && c.rn < c.R && c.ln < c.L && i.kind == Alu && WellFormed(i)
    ensures 0 <= Tail(c) && NewGood(c, DispatchOp(c, i), Tail(c), pool)
  {
    hide *;
    Events.IdleSplit(c, pool);
    DispatchOpIs(c, i);
    var x, c0, w := Tail(c), Allocate(c, i), {Tail(c)};
    NewGoodStop(c, x, pool);
    AllocateOpGrows(c, i);
    AllocateOpOrder(c, i);
    AllocateOpIds(c, i);
    AllocateOpFilling(c, i);
    GrowsKeeps(c, c0, w, pool);
    LinkThreeKeeps(c0, x, i.in1, i.in2, i.in3, w, pool);
    var r := LinkThree(c0, x, i.in1, i.in2, i.in3);
    ThreeParts(c0, r, x, i.in1, i.in2, i.in3, w, pool);
    if r.Ok? {
      var c1 := r.core;
      InstallTwoKeeps(c1, x, i.out1, i.out2, w, pool);
      var c2 := InstallTwo(c1, x, i.out1, i.out2);
      OpFilled(c0, c1, c2, x);
      FillingRests(c2, x);
      EnqueueIfReadyKeeps(c2, x, w, pool);
      var q := EnqueueIfReady(c2, x);
      ReadyParts(q, c2, x, w - {x}, pool);
      if q.Ok? {
        InvFromSound(q.core, x, pool);
        OpNewEntry(c, i, c0, c1, c2, q.core, x);
        NewGoodOk(c, q.core, x, pool);
      }
    }
  }

  // ----- a load or store -----

  lemma DispatchMemIs(c: Core, i: Inst)
    requires Shape(c) && c.rn < c.R && c.ln < c.L && WellFormed(i) && i.kind != Alu
    ensures var x, y, c0 := Tail(c), LsqTail(c), Allocate(c, i);
            && 0 <= x < |c0.st| && 0 <= y < |c0.st| && Shape(c0)
            && DispatchMem(c, i) ==
              var r := LinkThree(c0, x, NA, i.in2, i.in3);
              if r.Stop? then r else
                var c2 := InstallTwo(r.core, x, DTMP, NA);
                var q := LinkThree(c2, y, i.in1, DTMP, NA);
                if q.Stop? then q else
                  var p := EnqueueIfReady(InstallTwo(q.core, y, i.out1, i.out2), x);
                  if p.Stop? then p
                  else if i.kind == Store then EnqueueIfReady(p.core, y) else Ok(p.core)
  {
    TailDead(c);
  }

  /** The memory half is still untouched after its address half was filled in. */
  lemma HalfStillFilling(c0: Core, c1: Core, c2: Core, x: nat, y: nat)
    requires Shape(c0) && OnlyLinks(c0, c1, x) && OnlyOutputs(c1, c2, x) && x != y && y < |c0.st|
    requires Filling(c0, y) && NoOutputs(c0.st[y]) && AllFree(c0.st[y]) && c0.st[x].num < c0.st[y].num
    ensures |c2.st| == c2.R + c2.L && y < |c2.st| && Filling(c2, y) && NoOutputs(c2.st[y]) && AllFree(c2.st[y])
    ensures c2.st[y].inLsq == c0.st[y].inLsq && c2.st[y].kind == c0.st[y].kind && c2.st[y].eaComp == c0.st[y].eaComp
    ensures c2.R == c0.R
  {
    assert forall z: nat :: Live(c2, z) ==> Live(c0, z);
  }

  lemma OtherRests(c4: Core, c5: Core, x: nat, y: nat)
    requires SameEntries(c4, c5, x) && x != y && Resting(c4, y) && Filled(c4.st[y])
    ensures y < |c5.st| && Resting(c5, y) && Filled(c5.st[y]) && c5.st[y].kind == c4.st[y].kind && c5.st[y].inLsq == c4.st[y].inLsq
  {
  }

  lemma MemNewEntry(c: Core, i: Inst, c0: Core, c1: Core, c2: Core, c3: Core, c4: Core, c5: Core, c6: Core, x: nat, y: nat)
    requires Shape(c) && c.rn < c.R && c.ln < c.L && i.kind != Alu && c0 == Allocate(c, i) && x == Tail(c) && y == LsqTail(c)
    requires OnlyLinks(c0, c1, x) && OnlyOutputs(c1, c2, x) && OnlyLinks(c2, c3, y) && OnlyOutputs(c3, c4, y)
    requires SameEntries(c4, c5, x) && SameEntries(c5, c6, y)
    ensures NewEntry(c, c6, x)
  {
    AllocateNew(c, i);
    hide *;
    HalfSame(c0, c1, c2, x, x);
    HalfSame(c2, c3, c4, y, x);
    EntriesSame(c4, c5, x, x);
    EntriesSame(c5, c6, y, x);
    SameAgain(c0, c2, c4, x);
    SameAgain(c0, c4, c5, x);
    SameAgain(c0, c5, c6, x);
    NewEntryStays(c, c0, c6, x);
  }

  /** `b` has the entries of `c`, of the same age; entry `x` is as complete and speculative. */
  ghost predicate SameAges(c: Core, b: Core, x: nat) {
    && |b.st| == |c.st| && x < |c.st|
    && b == c.(st := b.st, free := b.free, readyq := b.readyq, cv := b.cv, scv := b.scv, useSpec := b.useSpec)
    && (forall z: nat :: z < |c.st| ==> b.st[z].num == c.st[z].num)
    && b.st[x].completed == c.st[x].completed && b.st[x].specMode == c.st[x].specMode
  }

  lemma HalfSame(c: Core, a: Core, b: Core, z: nat, x: nat)
    requires OnlyLinks(c, a, z) && OnlyOutputs(a, b, z) && x < |c.st|
    ensures SameAges(c, b, x)
  {
  }

  lemma EntriesSame(c: Core, b: Core, z: nat, x: nat)
    requires SameEntries(c, b, z) && x < |c.st|
    ensures SameAges(c, b, x) && x < |b.st|
  {
  }

  lemma SameAgain(a: Core, b: Core, c: Core, x: nat)
    requires SameAges(a, b, x) && SameAges(b, c, x)
    ensures SameAges(a, c, x) && x < |c.st|
  {
  }

  lemma AllocateNew(c: Core, i: Inst)
    requires Shape(c) && c.rn < c.R && c.ln < c.L && i.kind != Alu
    ensures 0 <= Tail(c) < |c.st| && |Allocate(c, i).st| == |c.st|
    ensures NewEntry(c, Allocate(c, i), Tail(c))
  {
    AllocateMemIs(c, i);
    AllocateMemLive(c, i);
    hide Allocate;
  }

  lemma NewEntryStays(c: Core, a: Core, b: Core, x: nat)
    requires NewEntry(c, a, x) && SameAges(a, b, x)
    ensures NewEntry(c, b, x)
  {
    assert forall z: nat :: Live(b, z) <==> Live(a, z);
  }

  lemma InvFromPair(c: Core, x: nat, y: nat, pool: nat)
    requires Sound(c, IDLE.(w := {x, y} - {x} - {y}), pool) && |c.scv| == MD_TOTAL_REGS && |c.st| == c.R + c.L && SpecVector(c, -1)
    ensures Inv(c, pool)
  {
    assert {x, y} - {x} - {y} == {};
  }

  /** The memory half is queued if it is a ready store, and left to the refresh stage otherwise. */
  lemma FinishMem(c: Core, y: nat, kind: Kind, w: set<nat>, pool: nat)
    requires Sound(c, IDLE.(w := w), pool) && SpecVector(c, -1) && Shape(c) && Resting(c, y) && y < |c.st|
    requires Filled(c.st[y]) && c.st[y].kind == kind && c.st[y].inLsq && kind != Alu
    ensures ReadyGood(if kind == Store then EnqueueIfReady(c, y) else Ok(c), c, y, w - {y}, pool)
  {
    if kind == Store {
      EnqueueIfReadyKeeps(c, y, w, pool);
    } else {
      ReleaseKeeps(c, y, w, pool);
      ReadyIs(c, y, w);
      hide *;
      ShapeSize(c);
      ReadyJoin(c, c, y, w - {y}, pool);
    }
  }

  /** The address half `x` is filled in, the memory half `y` is untouched. */
  ghost predicate AddressDone(c: Core, x: nat, y: nat, kind: Kind) {
    && Shape(c) && x != y && x < |c.st| && y < |c.st|
    && Filling(c, x) && c.st[x].onames.a == DTMP && !c.st[x].inLsq && c.st[x].kind == Alu
    && Filling(c, y) && NoOutputs(c.st[y]) && AllFree(c.st[y]) && c.st[y].inLsq && c.st[y].kind == kind && !c.st[y].eaComp
  }

  /** Both halves are filled in and have not started. */
  ghost predicate BothDone(c: Core, x: nat, y: nat, kind: Kind) {
    && Shape(c) && x != y && Resting(c, x) && Resting(c, y) && Filled(c.st[x]) && Filled(c.st[y])
    && c.st[x].kind == Alu && c.st[y].kind == kind && c.st[y].inLsq
  }

  ghost predicate StateGood(c: Core, w: set<nat>, pool: nat) {
    Sound(c, IDLE.(w := w), pool) && SpecVector(c, -1)
  }

  lemma StateParts(c: Core, w: set<nat>, pool: nat)
    requires StateGood(c, w, pool)
    ensures Shape(c) && |c.st| == c.R + c.L && |c.scv| == MD_TOTAL_REGS && |c.cv| == MD_TOTAL_REGS
    ensures Sound(c, IDLE.(w := w), pool) && SpecVector(c, -1)
  {
  }

  lemma StateJoin(c: Core, w: set<nat>, pool: nat)
    requires |c.st| == c.R + c.L && |c.scv| == MD_TOTAL_REGS && Sound(c, IDLE.(w := w), pool) && SpecVector(c, -1)
    ensures StateGood(c, w, pool)
  {
  }

  lemma AddressDoneJoin(c: Core, x: nat, y: nat, kind: Kind)
    requires Shape(c) && |c.st| == c.R + c.L && x != y && x < |c.st| && y < |c.st|
    requires Filling(c, x) && c.st[x].onames.a == DTMP && !c.st[x].inLsq && c.st[x].kind == Alu
    requires Filling(c, y) && NoOutputs(c.st[y]) && AllFree(c.st[y]) && c.st[y].inLsq && c.st[y].kind == kind && !c.st[y].eaComp
    ensures AddressDone(c, x, y, kind)
  {
  }

  lemma AddressHalfKeeps(c: Core, c0: Core, i: Inst, x: nat, y: nat, w: set<nat>, pool: nat)
    requires Inv(c, pool) && Shape(c) && c.rn < c.R && c.ln < c.L && i.kind != Alu
    requires c0 == Allocate(c, i) && x == Tail(c) && y == LsqTail(c) && w == {x, y}
    ensures Shape(c0) && 0 <= x < |c0.st|
    ensures var r := LinkThree(c0, x, NA, i.in2, i.in3);
            && (r.Stop? ==> r == Stop(OutOfLinks))
            && (r.Ok? ==>
                  && Shape(r.core) && x < |r.core.st|
                  && var c2 := InstallTwo(r.core, x, DTMP, NA);
                     && OnlyLinks(c0, r.core, x) && OnlyOutputs(r.core, c2, x)
                     && StateGood(c2, w, pool) && AddressDone(c2, x, y, i.kind))
  {
    hide *;
    Events.IdleSplit(c, pool);
    AllocateMemGrows(c, i);
    AllocateMemOrder(c, i);
    AllocateMemPaired(c, i);
    AllocateMemIds(c, i);
    AllocateMemFilling(c, i);
    GrowsKeeps(c, c0, w, pool);
    LinkThreeKeeps(c0, x, NA, i.in2, i.in3, w, pool);
    var r := LinkThree(c0, x, NA, i.in2, i.in3);
    ThreeParts(c0, r, x, NA, i.in2, i.in3, w, pool);
    if r.Ok? {
      var c1 := r.core;
      InstallTwoKeeps(c1, x, DTMP, NA, w, pool);
      var c2 := InstallTwo(c1, x, DTMP, NA);
      AddressHalf(c1, c2, x, NA);
      HalfStillFilling(c0, c1, c2, x, y);
      ShapeSize(c2);
      StateJoin(c2, w, pool);
      OnlyOutputsSize(c1, c2, x);
      AddressDoneJoin(c2, x, y, i.kind);
    }
  }

  lemma OnlyOutputsSize(c: Core, b: Core, x: nat)
    requires OnlyOutputs(c, b, x)
    ensures x < |b.st| && b.R == c.R && b.L == c.L
  {
  }

  lemma AddressParts(c: Core, x: nat, y: nat, kind: Kind)
    requires AddressDone(c, x, y, kind)
    ensures Shape(c) && |c.st| == c.R + c.L && x != y && x < |c.st| && y < |c.st|
    ensures Filling(c, x) && c.st[x].onames.a == DTMP && !c.st[x].inLsq && c.st[x].kind == Alu
    ensures Filling(c, y) && NoOutputs(c.st[y]) && AllFree(c.st[y]) && c.st[y].inLsq && c.st[y].kind == kind && !c.st[y].eaComp
  {
  }

  lemma BothFilled(c2: Core, c3: Core, c4: Core, x: nat, y: nat, kind: Kind)
    requires AddressDone(c2, x, y, kind) && OnlyLinks(c2, c3, y) && OnlyOutputs(c3, c4, y) && c3.st[y].inames.b == DTMP && Shape(c4)
    ensures BothDone(c4, x, y, kind)
  {
  }

  lemma MemoryHalfKeeps(c2: Core, i: Inst, x: nat, y: nat, w: set<nat>, pool: nat)
    requires StateGood(c2, w, pool) && AddressDone(c2, x, y, i.kind) && y in w && WellFormed(i)
    ensures Shape(c2) && y < |c2.st|
    ensures var q := LinkThree(c2, y, i.in1, DTMP, NA);
            && (q.Stop? ==> q == Stop(OutOfLinks))
            && (q.Ok? ==>
                  && Shape(q.core) && y < |q.core.st|
                  && var c4 := InstallTwo(q.core, y, i.out1, i.out2);
                     && OnlyLinks(c2, q.core, y) && OnlyOutputs(q.core, c4, y)
                     && StateGood(c4, w, pool) && BothDone(c4, x, y, i.kind))
  {
    StoreOutputs(i);
    hide *;
    StateParts(c2, w, pool);
    AddressParts(c2, x, y, i.kind);
    LinkThreeKeeps(c2, y, i.in1, DTMP, NA, w, pool);
    var q := LinkThree(c2, y, i.in1, DTMP, NA);
    ThreeParts(c2, q, y, i.in1, DTMP, NA, w, pool);
    if q.Ok? {
      var c3 := q.core;
      InstallTwoKeeps(c3, y, i.out1, i.out2, w, pool);
      var c4 := InstallTwo(c3, y, i.out1, i.out2);
      AddressName(c3, y, i.in1, NA);
      ShapeSize(c4);
      StateJoin(c4, w, pool);
      BothFilled(c2, c3, c4, x, y, i.kind);
    }
  }

  lemma BothParts(c: Core, x: nat, y: nat, kind: Kind)
    requires BothDone(c, x, y, kind)
    ensures Shape(c) && |c.st| == c.R + c.L && x < |c.st| && y < |c.st| && x != y
    ensures Resting(c, x) && Resting(c, y) && Filled(c.st[x]) && Filled(c.st[y])
    ensures c.st[x].kind == Alu && c.st[y].kind == kind && c.st[y].inLsq
  {
  }

  function FinishHalves(c: Core, x: nat, y: nat, kind: Kind): Outcome
    requires Shape(c) && x < |c.st| && y < |c.st|
  {
    var p := EnqueueIfReady(c, x);
    if p.Stop? then p
    else if kind == Store then EnqueueIfReady(p.core, y) else Ok(p.core)
  }

  lemma FinishIs(c: Core, x: nat, y: nat, kind: Kind)
    requires Shape(c) && x < |c.st| && y < |c.st|
    ensures EnqueueIfReady(c, x).Ok? ==> Shape(EnqueueIfReady(c, x).core) && y < |EnqueueIfReady(c, x).core.st|
    ensures FinishHalves(c, x, y, kind) ==
            var p := EnqueueIfReady(c, x);
            if p.Stop? then p
            else if kind == Store then EnqueueIfReady(p.core, y) else Ok(p.core)
  {
  }

  /** Queueing the address half, and then the memory half of a ready store. */
  lemma FinishKeeps(c4: Core, x: nat, y: nat, kind: Kind, pool: nat)
    requires StateGood(c4, {x, y}, pool) && BothDone(c4, x, y, kind) && kind != Alu
    ensures Shape(c4) && x < |c4.st| && y < |c4.st|
    ensures var f := FinishHalves(c4, x, y, kind);
            && (f.Stop? ==> f == Stop(OutOfLinks))
            && (f.Ok? ==> Inv(f.core, pool) && exists c5: Core :: SameEntries(c4, c5, x) && SameEntries(c5, f.core, y))
  {
    hide *;
    var w := {x, y};
    StateParts(c4, w, pool);
    BothParts(c4, x, y, kind);
    FinishIs(c4, x, y, kind);
    EnqueueIfReadyKeeps(c4, x, w, pool);
    var p := EnqueueIfReady(c4, x);
    ReadyParts(p, c4, x, w - {x}, pool);
    if p.Ok? {
      var c5 := p.core;
      OtherRests(c4, c5, x, y);
      FinishMem(c5, y, kind, w - {x}, pool);
      var f := if kind == Store then EnqueueIfReady(c5, y) else Ok(c5);
      ReadyParts(f, c5, y, w - {x} - {y}, pool);
      if f.Ok? {
        InvFromPair(f.core, x, y, pool);
      }
    }
  }

  lemma DispatchMemIsHalves(c: Core, i: Inst, x: nat, y: nat, c0: Core)
    requires Shape(c) && c.rn < c.R && c.ln < c.L && WellFormed(i) && i.kind != Alu
    requires x == Tail(c) && y == LsqTail(c) && c0 == Allocate(c, i)
    ensures 0 <= x < |c0.st| && Shape(c0) && y < |c0.st|
    ensures var r := LinkThree(c0, x, NA, i.in2, i.in3);
            if r.Stop? then DispatchMem(c, i) == r else
              Shape(r.core) && x < |r.core.st| &&
              var c2 := InstallTwo(r.core, x, DTMP, NA);
              Shape(c2) && y < |c2.st| &&
              var q := LinkThree(c2, y, i.in1, DTMP, NA);
              if q.Stop? then DispatchMem(c, i) == q
              else
                Shape(q.core) && y < |q.core.st| &&
                var c4 := InstallTwo(q.core, y, i.out1, i.out2);
                Shape(c4) && x < |c4.st| && y < |c4.st| && DispatchMem(c, i) == FinishHalves(c4, x, y, i.kind)
  {
    DispatchMemIs(c, i);
  }

  lemma DispatchMemKeeps(c: Core, i: Inst, pool: nat)
    requires Inv(c, pool) && Shape(c) && c.rn < c.R && c.ln < c.L && i.kind != Alu && WellFormed(i)
    ensures 0 <= Tail(c) && NewGood(c, DispatchMem(c, i), Tail(c), pool)
  {
    hide *;
    AllocateMemIs(c, i);
    var x, y, c0 := Tail(c), LsqTail(c), Allocate(c, i);
    NewGoodStop(c, x, pool);
    DispatchMemIsHalves(c, i, x, y, c0);
    AddressHalfKeeps(c, c0, i, x, y, {x, y}, pool);
    var r := LinkThree(c0, x, NA, i.in2, i.in3);
    if r.Ok? {
      var c2 := InstallTwo(r.core, x, DTMP, NA);
      MemoryHalfKeeps(c2, i, x, y, {x, y}, pool);
      var q := LinkThree(c2, y, i.in1, DTMP, NA);
      if q.Ok? {
        var c4 := InstallTwo(q.core, y, i.out1, i.out2);
        FinishKeeps(c4, x, y, i.kind, pool);
        var f := FinishHalves(c4, x, y, i.kind);
        if f.Ok? {
          var c5: Core :| SameEntries(c4, c5, x) && SameEntries(c5, f.core, y);
          MemNewEntry(c, i, c0, r.core, c2, q.core, c4, c5, f.core, x, y);
          NewGoodOk(c, f.core, x, pool);
        }
      }
    }
  }

  lemma StoreOutputs(i: Inst)
    requires WellFormed(i)
    ensures i.kind == Store ==> i.out1 == NA && i.out2 == NA
  {
  }

  lemma AddressHalf(c1: Core, c2: Core, x: nat, n: Reg)
    requires OnlyOutputs(c1, c2, x) && c2.st[x].onames == Duo(DTMP, n)
    ensures c2.st[x].onames.a == DTMP && c2.st[x].inLsq == c1.st[x].inLsq && c2.st[x].kind == c1.st[x].kind
  {
  }

  lemma AddressName(c: Core, y: nat, n0: Reg, n2: Reg)
    requires y < |c.st| && c.st[y].inames == Tri(n0, DTMP, n2)
    ensures c.st[y].inames.b == DTMP
  {
  }
}
