/** Dispatching one instruction: allocation, linking, installation, queueing. */
module RuuDispatchProof {
  import opened RuuTypes
  import opened RuuSteps
  import opened RuuInvariants
  import opened RuuLists
  import opened RuuFrame
  import opened RuuQueueProof
  import opened RuuAllocateProof
  import opened RuuLinkProof
  import opened RuuInstallProof
  import Events = RuuEventProof

  // ----- three operands -----

  ghost predicate AllFree(s: Station) { OperandFree(s, 0) && OperandFree(s, 1) && OperandFree(s, 2) }

  ghost predicate ThreeGood(c: Core, r: Outcome, x: nat, n0: Reg, n1: Reg, n2: Reg, w: set<nat>, pool: nat) {
    match r
    case Ok(b) => Sound(b, IDLE.(w := w), pool) && SpecVector(b, -1) && OnlyLinks(c, b, x) && b.st[x].inames == Tri(n0, n1, n2)
    case Stop(why) => why == OutOfLinks
  }

  lemma LinkGoodParts(c: Core, r: Outcome, x: nat, k: nat, n: Reg, w: set<nat>, pool: nat)
    requires LinkGood(c, r, x, k, n, w, pool) && Shape(c) && Filling(c, x) && NoOutputs(c.st[x]) && r.Ok?
    ensures var b := r.core;
            && Shape(b) && |b.st| == b.R + b.L && Sound(b, IDLE.(w := w), pool) && SpecVector(b, -1)
            && LinkedOne(c, b, x, k, n) && OnlyLinks(c, b, x) && Filling(b, x) && NoOutputs(b.st[x])
  {
    OnlyLinksFilling(c, r.core, x);
  }

  lemma StillFree(c: Core, b: Core, x: nat, k: nat, n: Reg, j: nat)
    requires LinkedOne(c, b, x, k, n) && OperandFree(c.st[x], j) && j != k && j < 3 && k < 3
    ensures OperandFree(b.st[x], j)
  {
  }

  lemma ThreeNames(c: Core, a: Core, b: Core, d: Core, x: nat, n0: Reg, n1: Reg, n2: Reg)
    requires LinkedOne(c, a, x, 0, n0) && LinkedOne(a, b, x, 1, n1) && LinkedOne(b, d, x, 2, n2)
    ensures OnlyLinks(c, d, x) && d.st[x].inames == Tri(n0, n1, n2)
  {
  }

  lemma ThreeIs(c: Core, x: nat, n0: Reg, n1: Reg, n2: Reg)
    requires Shape(c) && x < |c.st|
    ensures LinkThree(c, x, n0, n1, n2) ==
            var r0 := LinkIdep(c, x, 0, n0);
            if r0.Stop? then r0 else
              var r1 := LinkIdep(r0.core, x, 1, n1);
              if r1.Stop? then r1 else LinkIdep(r1.core, x, 2, n2)
  {
  }

  lemma LinkStops(c: Core, r: Outcome, x: nat, k: nat, n: Reg, w: set<nat>, pool: nat)
    requires LinkGood(c, r, x, k, n, w, pool) && r.Stop?
    ensures r == Stop(OutOfLinks)
  {
  }

  lemma ThreeStops(c: Core, x: nat, n0: Reg, n1: Reg, n2: Reg, w: set<nat>, pool: nat)
    ensures ThreeGood(c, Stop(OutOfLinks), x, n0, n1, n2, w, pool)
  {
  }

  lemma ThreeJoin(c: Core, b: Core, x: nat, n0: Reg, n1: Reg, n2: Reg, w: set<nat>, pool: nat)
    requires Sound(b, IDLE.(w := w), pool) && |b.st| == b.R + b.L && |b.scv| == MD_TOTAL_REGS && SpecVector(b, -1)
    requires OnlyLinks(c, b, x) && b.st[x].inames == Tri(n0, n1, n2)
    ensures ThreeGood(c, Ok(b), x, n0, n1, n2, w, pool)
  {
  }

  lemma LinkThreeKeeps(c: Core, x: nat, n0: Reg, n1: Reg, n2: Reg, w: set<nat>, pool: nat)
    requires Sound(c, IDLE.(w := w), pool) && SpecVector(c, -1) && Shape(c) && Filling(c, x) && x < |c.st| && NoOutputs(c.st[x])
    requires AllFree(c.st[x]) && x in w
    ensures ThreeGood(c, LinkThree(c, x, n0, n1, n2), x, n0, n1, n2, w, pool)
  {
    assert OperandFree(c.st[x], 0) && OperandFree(c.st[x], 1) && OperandFree(c.st[x], 2);
    hide *;
    ThreeIs(c, x, n0, n1, n2);
    ThreeStops(c, x, n0, n1, n2, w, pool);
    LinkIdepKeeps(c, x, 0, n0, w, pool);
    var r0 := LinkIdep(c, x, 0, n0);
    if r0.Stop? {
      LinkStops(c, r0, x, 0, n0, w, pool);
    } else {
      var a := r0.core;
      LinkGoodParts(c, r0, x, 0, n0, w, pool);
      StillFree(c, a, x, 0, n0, 1);
      StillFree(c, a, x, 0, n0, 2);
      LinkIdepKeeps(a, x, 1, n1, w, pool);
      var r1 := LinkIdep(a, x, 1, n1);
      if r1.Stop? {
        LinkStops(a, r1, x, 1, n1, w, pool);
      } else {
        var b := r1.core;
        LinkGoodParts(a, r1, x, 1, n1, w, pool);
        StillFree(a, b, x, 1, n1, 2);
        LinkIdepKeeps(b, x, 2, n2, w, pool);
        var r2 := LinkIdep(b, x, 2, n2);
        if r2.Stop? {
          LinkStops(b, r2, x, 2, n2, w, pool);
        } else {
          LinkGoodParts(b, r2, x, 2, n2, w, pool);
          ThreeNames(c, a, b, r2.core, x, n0, n1, n2);
          ShapeSize(r2.core);
          ThreeJoin(c, r2.core, x, n0, n1, n2, w, pool);
        }
      }
    }
  }

  // ----- letting go of a filled-in station -----

  /** Station `x` is filled in. */
  ghost predicate Filled(s: Station) {
    && (s.eaComp ==> s.onames.a == DTMP) && (s.inLsq ==> s.inames.b == DTMP)
  }

  lemma ReleaseStatus(c: Core, x: nat, w: set<nat>)
    requires Shape(c) && x < |c.st| && Status(c, w) && Filled(c.st[x])
    requires c.st[x].AllReady() ==> c.st[x].inLsq && c.st[x].kind == Load
    ensures Status(c, w - {x})
  {
    forall z: nat | Live(c, z) ensures StatusOk(c, c.st[z], z, w - {x}) {
      assert StatusOk(c, c.st[z], z, w);
    }
  }

  lemma ReleaseKeeps(c: Core, x: nat, w: set<nat>, pool: nat)
    requires Sound(c, IDLE.(w := w), pool) && Shape(c) && x < |c.st| && Filled(c.st[x])
    requires c.st[x].AllReady() ==> c.st[x].inLsq && c.st[x].kind == Load
    ensures Sound(c, IDLE.(w := w - {x}), pool)
  {
    FillingSplit(c, w, pool);
    ReleaseStatus(c, x, w);
    hide *;
    FillingJoin(c, w - {x}, pool);
  }

  ghost predicate ReadyGood(r: Outcome, c: Core, x: nat, w: set<nat>, pool: nat) {
    match r
    case Ok(b) => Sound(b, IDLE.(w := w), pool) && SpecVector(b, -1) && SameEntries(c, b, x)
    case Stop(why) => why == OutOfLinks
  }

  /** The same entries; `x` may be queued now. */
  ghost predicate SameEntries(c: Core, b: Core, x: nat) {
    && b == c.(st := b.st, free := b.free, readyq := b.readyq) && |b.st| == |c.st| && x < |c.st|
    && (forall z: nat :: z < |c.st| && z != x ==> b.st[z] == c.st[z])
    && b.st[x] == c.st[x].(queued := b.st[x].queued)
  }

  /** Station `x` has not started. */
  predicate Resting(c: Core, x: nat) {
    Live(c, x) && x < |c.st| && !c.st[x].queued && !c.st[x].issued
  }

  lemma EnqueueEntries(c: Core, x: nat)
    requires Shape(c) && x < |c.st| && Enqueue(c, x).Ok?
    ensures SameEntries(c, Enqueue(c, x).core, x)
  {
  }

  lemma RestingMayQueue(c: Core, x: nat)
    requires Shape(c) && Resting(c, x) && Filled(c.st[x]) && c.st[x].AllReady() && (c.st[x].kind != Load || x < c.R)
    ensures MayQueue(c, x)
  {
  }

  lemma ReadyIs(c: Core, x: nat, w: set<nat>)
    requires Shape(c) && x < |c.st|
    ensures EnqueueIfReady(c, x) == if c.st[x].AllReady() then Enqueue(c, x) else Ok(c)
    ensures SameEntries(c, c, x)
    ensures IDLE.(w := w).(w := IDLE.(w := w).w - {x}) == IDLE.(w := w - {x}) && IDLE.(w := w).d == -1
  {
  }

  lemma ReadyJoin(c: Core, b: Core, x: nat, w: set<nat>, pool: nat)
    requires Sound(b, IDLE.(w := w), pool) && |b.st| == b.R + b.L && |b.scv| == MD_TOTAL_REGS && SpecVector(b, -1)
    requires SameEntries(c, b, x)
    ensures ReadyGood(Ok(b), c, x, w, pool)
  {
  }

  lemma ReadyStop(c: Core, x: nat, w: set<nat>, pool: nat)
    ensures ReadyGood(Stop(OutOfLinks), c, x, w, pool)
  {
  }

  lemma EnqueueIfReadyKeeps(c: Core, x: nat, w: set<nat>, pool: nat)
    requires Sound(c, IDLE.(w := w), pool) && SpecVector(c, -1) && Shape(c) && Resting(c, x) && x < |c.st|
    requires Filled(c.st[x]) && (c.st[x].kind != Load || x < c.R)
    ensures ReadyGood(EnqueueIfReady(c, x), c, x, w - {x}, pool)
  {
    hide *;
    ShapeSize(c);
    ReadyIs(c, x, w);
    ReadyStop(c, x, w - {x}, pool);
    if c.st[x].AllReady() {
      RestingMayQueue(c, x);
      EnqueueKeeps(c, x, IDLE.(w := w), pool);
      var e := Enqueue(c, x);
      if e.Ok? {
        EnqueueEntries(c, x);
        SoundSize(e.core, IDLE.(w := w - {x}), pool);
        ReadyJoin(c, e.core, x, w - {x}, pool);
      }
    } else {
      ReleaseKeeps(c, x, w, pool);
      ReadyJoin(c, c, x, w - {x}, pool);
    }
  }

  lemma SoundSize(c: Core, f: Flight, pool: nat)
    requires Sound(c, f, pool)
    ensures Shape(c) && |c.st| == c.R + c.L && |c.cv| == MD_TOTAL_REGS && |c.scv| == MD_TOTAL_REGS
  {
  }
}
