/** The whole of misprediction recovery. */
module RuuRecoverProof {
  import opened RuuTypes
  import opened RuuSteps
  import opened RuuInvariants
  import opened RuuFrame
  import opened RuuRemovalProof
  import opened RuuSquashProof

  /** Only the branch, its elders and their memory halves are left. */
  ghost predicate BranchIsYoungest(c: Core, r: nat) {
    c.rn > 0 && r == Youngest(c)
  }

  lemma TailIndex(c: Core)
    requires Shape(c) && c.rn > 0
    ensures Youngest(c) == At(c.rh, c.R, c.rn - 1)
    ensures 0 <= Youngest(c) < c.R && Prev(At(c.rh, c.R, c.rn), c.R) == Youngest(c)
    ensures c.rn != 1 ==> Youngest(c) != c.rh
  {
  }

  lemma BranchLives(c: Core, f: Flight, r: nat, pool: nat)
    requires Sound(c, f, pool) && IsBranch(c, f.e, r)
    ensures Shape(c) && c.rn > 0 && r < c.R && r < |c.st|
  {
  }

  lemma RecoverUnfold(c: Core, r: nat)
    requires Shape(c) && c.rn > 0
    requires r != Youngest(c) ==> c.rn != 1 && (c.st[Youngest(c)].eaComp ==> c.ln > 0)
    ensures Recover(c, r) == if r == Youngest(c) then Ok(c.(useSpec := {})) else Recover(Squash(c), r)
  {
    TailIndex(c);
  }

  /** `b` is a sound state in which `r` is the youngest, with its speculative vector dropped. */
  ghost predicate Recovered(a: Core, b: Core, f: Flight, r: nat, pool: nat) {
    b == a.(useSpec := {}) && Sound(a, f, pool) && IsBranch(a, f.e, r) && BranchIsYoungest(a, r)
  }

  /** Recovery reaches no panic and leaves the branch as the youngest entry. */
  lemma {:induction false} RecoverKeeps(c: Core, f: Flight, r: nat, pool: nat) returns (a: Core)
    requires Sound(c, f, pool) && IsBranch(c, f.e, r)
    ensures Shape(c) && Recover(c, r).Ok? && Recovered(a, Recover(c, r).core, f, r, pool)
    ensures r < |c.st| && r < |a.st| && a.st[r] == c.st[r] && a.events == c.events
    decreases c.rn
  {
    hide *;
    BranchLives(c, f, r, pool);
    if r == Youngest(c) {
      RecoverUnfold(c, r);
      a := c;
      RecoveredHere(c, f, r, pool);
    } else {
      SquashKeeps(c, f, r, pool);
      TailIndex(c);
      RecoverUnfold(c, r);
      a := RecoverKeeps(Squash(c), f, r, pool);
      SquashSame(c, r);
    }
  }

  lemma RecoveredHere(c: Core, f: Flight, r: nat, pool: nat)
    requires Sound(c, f, pool) && IsBranch(c, f.e, r) && c.rn > 0 && r == Youngest(c)
    ensures Recovered(c, c.(useSpec := {}), f, r, pool)
  {
  }

  lemma SquashSame(c: Core, r: nat)
    requires Shape(c) && c.rn > 0 && (c.st[Youngest(c)].eaComp ==> c.ln > 0) && r < c.R && r != Youngest(c)
    ensures Squash(c).st[r] == c.st[r] && Squash(c).events == c.events && Squash(c).rn < c.rn
  {
  }

  // ----- back to the precise state -----

  function Precise(a: Core): Core { a.(useSpec := {}, specMode := false) }

  /** With the branch youngest, no live entry is speculative and no other branch is open. */
  lemma NothingSpeculative(a: Core, e: int, r: nat)
    requires Shape(a) && Order(a) && Pairs(a) && Speculation(a, e) && IsBranch(a, e, r) && BranchIsYoungest(a, r)
    ensures forall z: nat :: Live(a, z) ==> !a.st[z].specMode
    ensures forall z: nat :: IsBranch(a, e, z) ==> z == r
    ensures a.specMode
  {
    TailFacts(a);
    assert forall z: nat :: Live(a, z) && z >= a.R ==> IsPair(a, a.st[z].partner, z);
    forall z: nat | IsBranch(a, e, z) ensures z == r {
    }
  }

  lemma PreciseSpeculation(a: Core, r: nat)
    requires Shape(a) && Order(a) && Pairs(a) && Speculation(a, r) && IsBranch(a, r, r) && BranchIsYoungest(a, r)
    requires a.st[r].completed
    ensures Shape(Precise(a)) && Speculation(Precise(a), -1) && a.specMode
  {
    NothingSpeculative(a, r, r);
    var b := Precise(a);
    forall z: nat ensures !IsBranch(b, -1, z) {
      if IsBranch(b, -1, z) {
        assert IsBranch(a, r, z);
      }
    }
    assert forall z: nat :: Live(b, z) ==> Live(a, z);
  }

  lemma PreciseVector(a: Core, r: nat, d: int)
    requires Shape(a) && Order(a) && Pairs(a) && Speculation(a, r) && IsBranch(a, r, r) && BranchIsYoungest(a, r)
    ensures Shape(Precise(a)) && SpecVector(Precise(a), d)
  {
    NothingSpeculative(a, r, r);
    var b := Precise(a);
    assert forall z: nat :: Live(b, z) ==> Live(a, z);
    forall n: nat | 0 < n < MD_TOTAL_REGS ensures NoSpecWriter(b, n) {
    }
  }

  /** The state differs only in the speculative view. */
  ghost predicate SameButView(a: Core, b: Core) {
    b == a.(useSpec := b.useSpec, specMode := b.specMode, scv := b.scv)
  }

  lemma ViewLatest(a: Core, b: Core)
    requires Shape(a) && Shape(b) && SameButView(a, b)
    ensures forall n: nat, m: nat, q: nat :: Latest(b, n, m, q) <==> Latest(a, n, m, q)
    ensures forall n: nat, q: nat :: LatestBase(b, n, q) <==> LatestBase(a, n, q)
    ensures forall z: nat :: Live(b, z) <==> Live(a, z)
    ensures forall l :: LinkOk(b, l) <==> LinkOk(a, l)
  {
    forall z: nat ensures Live(b, z) <==> Live(a, z) {
    }
    forall n: nat, m: nat, q: nat ensures Latest(b, n, m, q) <==> Latest(a, n, m, q) {
      OneViewLatest(a, b, n, m, q);
    }
    forall n: nat, q: nat ensures LatestBase(b, n, q) <==> LatestBase(a, n, q) {
      OneViewLatestBase(a, b, n, q);
    }
  }

  lemma OneViewLatest(a: Core, b: Core, n: nat, m: nat, q: nat)
    requires Shape(a) && Shape(b) && SameButView(a, b)
    ensures Latest(b, n, m, q) <==> Latest(a, n, m, q)
  {
    assert forall z: nat :: Live(b, z) <==> Live(a, z);
  }

  lemma OneViewLatestBase(a: Core, b: Core, n: nat, q: nat)
    requires Shape(a) && Shape(b) && SameButView(a, b)
    ensures LatestBase(b, n, q) <==> LatestBase(a, n, q)
  {
    assert forall z: nat :: Live(b, z) <==> Live(a, z);
  }

  lemma ViewOrder(a: Core, b: Core)
    requires Shape(a) && Shape(b) && SameButView(a, b) && Order(a)
    ensures Order(b)
  {
    assert forall x: nat, y: nat :: RuuBefore(b, x, y) ==> RuuBefore(a, x, y);
    assert forall x: nat, y: nat :: LsqBefore(b, x, y) ==> LsqBefore(a, x, y);
  }

  lemma ViewPairs(a: Core, b: Core)
    requires Shape(a) && Shape(b) && SameButView(a, b) && Pairs(a)
    ensures Pairs(b)
  {
    assert forall x: nat, y: nat :: IsPair(b, x, y) <==> IsPair(a, x, y);
  }

  lemma ViewQueues(a: Core, b: Core, f: Flight)
    requires Shape(a) && Shape(b) && SameButView(a, b) && LinksOk(a, f.pend) && Queues(a, f.pend) && Status(a, f.w)
    ensures LinksOk(b, f.pend) && Queues(b, f.pend) && Status(b, f.w)
  {
    ViewLatest(a, b);
    assert forall p: nat, o: nat, l :: InChain(b, p, o, l) ==> InChain(a, p, o, l);
    forall z: nat | Live(b, z) ensures QueueOk(b, f.pend, z) && StatusOk(b, b.st[z], z, f.w) {
      assert Live(a, z) && QueueOk(a, f.pend, z) && StatusOk(a, a.st[z], z, f.w);
    }
  }

  lemma ViewBase(a: Core, b: Core, d: int)
    requires Shape(a) && Shape(b) && SameButView(a, b) && BaseVector(a, d)
    ensures BaseVector(b, d)
  {
    ViewLatest(a, b);
    forall n: nat | 0 < n < MD_TOTAL_REGS ensures BaseEntry(b, d, n, b.cv[n]) {
      assert BaseEntry(a, d, n, a.cv[n]);
    }
  }

  lemma ViewOperands(a: Core, b: Core, d: int)
    requires Shape(a) && Shape(b) && SameButView(a, b) && Operands(a, d) && Chains(a, d)
    ensures Operands(b, d) && Chains(b, d)
  {
    ViewLatest(a, b);
    forall x: nat, k: nat | Live(b, x) && k < 3 ensures OperandOk(b, d, x, k) {
      assert OperandOk(a, d, x, k);
    }
    forall p: nat, o: nat, l | InChain(b, p, o, l) ensures ChainLinkOk(b, p, o, l) {
      assert InChain(a, p, o, l) && ChainLinkOk(a, p, o, l);
    }
  }

  lemma ViewMemory(a: Core, b: Core)
    requires Shape(a) && Shape(b) && SameButView(a, b) && MemoryOrder(a) && Timely(a)
    ensures MemoryOrder(b) && Timely(b)
  {
    ViewLatest(a, b);
    forall x: nat | Live(b, x) && x >= b.R && b.st[x].kind == Load && Started(b.st[x]) ensures LoadSafe(b, x) {
      assert Live(a, x) && LoadSafe(a, x);
      assert forall z: nat :: IsOlderStore(b, x, z) <==> IsOlderStore(a, x, z);
      assert forall z: nat :: YoungestOlderStore(b, x, z) ==> YoungestOlderStore(a, x, z);
    }
  }

  lemma ViewConserved(a: Core, b: Core, f: Flight, pool: nat)
    requires SameButView(a, b) && Conserved(a, f.pend, f.held, pool)
    ensures Conserved(b, f.pend, f.held, pool)
  {
    assert AllIds(b, f.pend) == AllIds(a, f.pend);
  }

  /** Dropping the speculative view at the branch ends mis-speculation. */
  lemma PreciseKeeps(a: Core, f: Flight, r: nat, pool: nat)
    requires Sound(a, f, pool) && f.e == r && IsBranch(a, r, r) && BranchIsYoungest(a, r) && a.st[r].completed
    ensures Sound(Precise(a), f.(e := -1), pool) && SpecVector(Precise(a), f.d) && a.specMode
  {
    var b := Precise(a);
    SplitSound(a, f, pool);
    hide *;
    PreciseSpeculation(a, r);
    PreciseVector(a, r, f.d);
    PreciseView(a);
    ViewOrder(a, b);
    ViewPairs(a, b);
    ViewQueues(a, b, f);
    ViewBase(a, b, f.d);
    ViewOperands(a, b, f.d);
    ViewMemory(a, b);
    ViewConserved(a, b, f, pool);
    PreciseJoin(b, f, pool);
  }

  lemma PreciseView(a: Core)
    ensures SameButView(a, Precise(a))
  {
  }

  lemma PreciseJoin(c: Core, f: Flight, pool: nat)
    requires Shape(c)
    requires Order(c) && Pairs(c) && Speculation(c, -1) && LinksOk(c, f.pend) && Status(c, f.w) && Queues(c, f.pend)
    requires BaseVector(c, f.d) && Operands(c, f.d) && Chains(c, f.d)
    requires MemoryOrder(c) && Timely(c) && Conserved(c, f.pend, f.held, pool)
    ensures Sound(c, f.(e := -1), pool)
  {
    JoinSound(c, f.(e := -1), pool);
  }

  /** Recovery from a completed branch reaches no panic and restores the precise state. */
  lemma RecoverAllKeeps(c: Core, f: Flight, r: nat, pool: nat)
    requires Sound(c, f, pool) && f.e == r && IsBranch(c, r, r) && c.st[r].completed && !c.st[r].inLsq
    ensures Shape(c) && r < |c.st| && RecoverAll(c, r).Ok?
    ensures var b := RecoverAll(c, r).core;
            && Sound(b, f.(e := -1), pool) && SpecVector(b, f.d)
            && !b.specMode && b.useSpec == {} && r < |b.st| && b.st[r] == c.st[r] && b.events == c.events
            && Live(b, r)
  {
    var a := RecoverKeeps(c, f, r, pool);
    RecoveredParts(a, Recover(c, r).core, f, r, pool);
    PreciseKeeps(a, f, r, pool);
    RecoverAllIs(c, a, r);
    assert Live(a, r);
    PreciseLive(a, r);
  }

  lemma PreciseLive(a: Core, r: nat)
    requires Live(a, r)
    ensures Live(Precise(a), r) && Precise(a).events == a.events && Precise(a).st == a.st
  {
  }

  lemma RecoveredParts(a: Core, b: Core, f: Flight, r: nat, pool: nat)
    requires Recovered(a, b, f, r, pool)
    ensures b == a.(useSpec := {}) && Sound(a, f, pool) && IsBranch(a, f.e, r) && BranchIsYoungest(a, r) && Live(a, r)
  {
  }

  lemma RecoverAllIs(c: Core, a: Core, r: nat)
    requires Shape(c) && r < |c.st| && !c.st[r].inLsq && Recover(c, r) == Ok(a.(useSpec := {})) && a.specMode
    ensures RecoverAll(c, r) == Ok(Precise(a))
  {
  }
}
