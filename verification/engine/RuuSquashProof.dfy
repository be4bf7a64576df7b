/** Misprediction recovery: squashing from the tail stops at the branch, without a panic. */
module RuuSquashProof {
  import opened RuuTypes
  import opened RuuSteps
  import opened RuuInvariants
  import opened RuuLists
  import opened RuuFrame
  import opened RuuRemovalProof

  function Youngest(c: Core): int
    requires c.rn > 0
  {
    At(c.rh, c.R, c.rn - 1)
  }

  /** The youngest RUU entry is the youngest of all but its own memory half, which is the
      youngest LSQ entry. */
  lemma TailFacts(c: Core)
    requires Shape(c) && Order(c) && Pairs(c) && c.rn > 0
    ensures var t := Youngest(c);
            && 0 <= t < c.R && Live(c, t)
            && (forall z: nat :: Live(c, z) && z < c.R && z != t ==> c.st[z].num < c.st[t].num)
            && (forall z: nat :: Live(c, z) && z >= c.R && c.st[z].partner != t ==> c.st[z].num < c.st[t].num)
            && (c.st[t].eaComp ==> c.ln > 0 && c.st[t].partner == c.R + At(c.lh, c.L, c.ln - 1))
  {
    var t := Youngest(c);
    assert forall z: nat :: Live(c, z) && z < c.R && z != t ==> RuuBefore(c, z, t);
    forall z: nat | Live(c, z) && z >= c.R && c.st[z].partner != t ensures c.st[z].num < c.st[t].num {
      assert IsPair(c, c.st[z].partner, z);
    }
    if c.st[t].eaComp {
      var p := c.st[t].partner;
      assert IsPair(c, t, p);
      var y := c.R + At(c.lh, c.L, c.ln - 1);
      assert Live(c, y) && IsPair(c, c.st[y].partner, y);
      assert p != y ==> LsqBefore(c, p, y);
    }
  }

  function Cleared(s: Station): Station { s.(tag := s.tag + 1, odeps := Duo([], [])) }

  /** `b` is `c` after its youngest entry `t`, and for a memory operation its half `y`, left. */
  ghost predicate DropsTail(c: Core, t: nat, b: Core) {
    && t < c.R && t < |c.st| && c.rn > 0 && t == Youngest(c)
    && b == c.(st := b.st, rn := c.rn - 1, ln := b.ln, free := b.free)
    && if c.st[t].eaComp then
         c.ln > 0 &&
         var y := c.R + At(c.lh, c.L, c.ln - 1);
         && b.ln == c.ln - 1 && y == c.st[t].partner < |c.st| && c.R <= y
         && b.st == c.st[y := Cleared(c.st[y])][t := Cleared(c.st[t])]
       else b.ln == c.ln && b.st == c.st[t := Cleared(c.st[t])]
  }

  lemma SquashDrops(c: Core)
    requires Shape(c) && c.rn > 0 && 0 <= Youngest(c) < c.R
    requires var t := Youngest(c); c.st[t].eaComp ==> c.ln > 0 && c.st[t].partner == c.R + At(c.lh, c.L, c.ln - 1)
    ensures DropsTail(c, Youngest(c), Squash(c))
  {
  }

  lemma DropsLive(c: Core, t: nat, b: Core)
    requires Shape(c) && Shape(b) && DropsTail(c, t, b)
    ensures forall z: nat :: Live(b, z) <==> Live(c, z) && z != t && (c.st[t].eaComp ==> z != c.st[t].partner)
    ensures forall x: nat, y: nat :: RuuBefore(b, x, y) ==> RuuBefore(c, x, y)
    ensures forall x: nat, y: nat :: LsqBefore(b, x, y) ==> LsqBefore(c, x, y)
  {
  }

  lemma DropsRemoves(c: Core, t: nat, b: Core)
    requires Shape(c) && Shape(b) && DropsTail(c, t, b) && Live(c, t) && (c.st[t].eaComp ==> Live(c, c.st[t].partner))
    ensures Removes(c, b)
  {
    DropsLive(c, t, b);
    assert forall z: nat :: Gone(c, b, z) <==> z == t || (c.st[t].eaComp && z == c.st[t].partner);
  }

  /** Everything that stays is older than the youngest entry and its half. */
  lemma DropsNewest(c: Core, t: nat, b: Core)
    requires Shape(c) && Shape(b) && DropsTail(c, t, b) && Order(c) && Pairs(c) && c.st[t].specMode
    ensures Newest(c, b) && Together(c, b)
  {
    TailFacts(c);
    DropsLive(c, t, b);
    if c.st[t].eaComp {
      assert IsPair(c, t, c.st[t].partner);
    }
    assert forall z: nat :: Live(c, z) && z >= c.R ==> IsPair(c, c.st[z].partner, z);
    hide DropsTail, Shape;
  }

  lemma SquashRemoves(c: Core)
    requires Shape(c) && Order(c) && Pairs(c) && c.rn > 0 && c.st[Youngest(c)].specMode
    ensures c.st[Youngest(c)].eaComp ==> c.ln > 0
    ensures Removes(c, Squash(c)) && Newest(c, Squash(c)) && Together(c, Squash(c))
    ensures forall z: nat :: Live(c, z) && z < c.R && z != Youngest(c) ==> Live(Squash(c), z)
  {
    TailFacts(c);
    var t := Youngest(c);
    var b := Squash(c);
    SquashDrops(c);
    if c.st[t].eaComp {
      assert IsPair(c, t, c.st[t].partner);
    }
    hide Squash, Order;
    DropsLive(c, t, b);
    DropsRemoves(c, t, b);
    DropsNewest(c, t, b);
  }

  lemma DropChainsFacts(free: seq<nat>, s: Station)
    ensures multiset(DropChains(free, s)) == multiset(free) + StationIds(s)
  {
    FreeChainFacts(free, s.odeps.a);
    FreeChainFacts(FreeChain(free, s.odeps.a), s.odeps.b);
  }

  /** A slot's chains move to the free list. */
  lemma DropIds(st: seq<Station>, x: nat, s: Station, free: seq<nat>)
    requires x < |st| && s.odeps == Duo([], [])
    ensures multiset(DropChains(free, st[x])) + ChainIds(st[x := s]) == multiset(free) + ChainIds(st)
  {
    DropChainsFacts(free, st[x]);
    ChainIdsUpdate(st, x, s);
    assert StationIds(s) == multiset{};
    assert multiset(DropChains(free, st[x])) + ChainIds(st[x := s])
        == multiset(free) + (ChainIds(st[x := s]) + StationIds(st[x]));
  }

  lemma SquashIds(c: Core, pend: seq<Link>)
    requires Shape(c) && c.rn > 0 && (c.st[Youngest(c)].eaComp ==> c.ln > 0)
    ensures AllIds(Squash(c), pend) == AllIds(c, pend)
  {
    if c.st[Youngest(c)].eaComp {
      SquashLsqIds(c, pend);
      SquashRuuIds(SquashLsq(c), pend);
    } else {
      SquashRuuIds(c, pend);
    }
  }

  lemma SquashLsqIds(c: Core, pend: seq<Link>)
    requires Shape(c) && c.ln > 0
    ensures AllIds(SquashLsq(c), pend) == AllIds(c, pend)
  {
    var y := c.R + At(c.lh, c.L, c.ln - 1);
    DropIds(c.st, y, SquashLsq(c).st[y], c.free);
    hide ChainIds, Ids;
    Regroup(c, SquashLsq(c), pend);
  }

  lemma SquashRuuIds(c: Core, pend: seq<Link>)
    requires Shape(c) && c.rn > 0
    ensures AllIds(SquashRuu(c), pend) == AllIds(c, pend)
  {
    DropIds(c.st, Youngest(c), SquashRuu(c).st[Youngest(c)], c.free);
    hide ChainIds, Ids;
    Regroup(c, SquashRuu(c), pend);
  }

  lemma Regroup(c: Core, b: Core, pend: seq<Link>)
    requires b.events == c.events && b.readyq == c.readyq
    requires multiset(b.free) + ChainIds(b.st) == multiset(c.free) + ChainIds(c.st)
    ensures AllIds(b, pend) == AllIds(c, pend)
  {
    hide ChainIds, Ids;
    assert AllIds(b, pend) == (multiset(b.free) + ChainIds(b.st)) + (Ids(b.events) + Ids(b.readyq) + Ids(pend));
    assert AllIds(c, pend) == (multiset(c.free) + ChainIds(c.st)) + (Ids(c.events) + Ids(c.readyq) + Ids(pend));
  }

  lemma SquashTime(c: Core)
    requires Shape(c) && c.rn > 0 && (c.st[Youngest(c)].eaComp ==> c.ln > 0) && Timely(c)
    ensures Timely(Squash(c))
  {
  }

  lemma SquashSpeculation(c: Core, e: int, r: nat)
    requires Shape(c) && c.rn > 0 && (c.st[Youngest(c)].eaComp ==> c.ln > 0)
    requires Removes(c, Squash(c)) && Speculation(c, e) && IsBranch(c, e, r) && Live(Squash(c), r)
    ensures Speculation(Squash(c), e) && IsBranch(Squash(c), e, r)
  {
    var b := Squash(c);
    assert !Gone(c, b, r);
    assert IsBranch(b, e, r);
    RemovesSpeculation(c, b, e);
  }

  /** One squash keeps everything but the speculative create vector. */
  lemma SquashKeeps(c: Core, f: Flight, r: nat, pool: nat)
    requires Sound(c, f, pool) && IsBranch(c, f.e, r) && c.rn > 0 && r != Youngest(c)
    ensures (c.st[Youngest(c)].eaComp ==> c.ln > 0) && c.rn != 1
    ensures Sound(Squash(c), f, pool) && IsBranch(Squash(c), f.e, r)
  {
    SplitSound(c, f, pool);
    BranchNotYoungest(c, f.e, r);
    SquashRemoves(c);
    var b := Squash(c);
    hide *;
    SquashOneEnd(c, f.d);
    RemovesOrder(c, b);
    RemovesPairs(c, b);
    SquashSpeculation(c, f.e, r);
    RemovesLinks(c, b, f.pend);
    RemovesQueues(c, b, f);
    RemovesBase(c, b, f.d);
    RemovesOperands(c, b, f.d);
    LinksInChains(c, f.pend);
    RemovesChains(c, b, f.d);
    RemovesMemory(c, b, f.d);
    SquashTime(c);
    SquashConserved(c, f, pool);
    JoinSound(b, f, pool);
  }

  lemma SquashOneEnd(c: Core, d: int)
    requires Shape(c) && c.rn > 0 && (c.st[Youngest(c)].eaComp ==> c.ln > 0) && Newest(c, Squash(c))
    ensures AtOneEnd(c, Squash(c), d)
  {
  }

  lemma LinksInChains(c: Core, pend: seq<Link>)
    requires |c.st| == c.R + c.L && LinksOk(c, pend)
    ensures forall l, p: nat, o: nat :: InChain(c, p, o, l) ==> LinkOk(c, l)
  {
  }

  lemma SquashConserved(c: Core, f: Flight, pool: nat)
    requires Shape(c) && c.rn > 0 && (c.st[Youngest(c)].eaComp ==> c.ln > 0) && Conserved(c, f.pend, f.held, pool)
    ensures Conserved(Squash(c), f.pend, f.held, pool)
  {
    SquashIds(c, f.pend);
  }

  /** While the branch is not the youngest entry, the youngest is speculative. */
  lemma BranchNotYoungest(c: Core, e: int, r: nat)
    requires Shape(c) && Order(c) && Pairs(c) && Speculation(c, e) && IsBranch(c, e, r) && c.rn > 0 && r != Youngest(c)
    ensures c.rn > 1 && c.st[Youngest(c)].specMode && Live(c, r)
  {
    TailFacts(c);
  }
}
