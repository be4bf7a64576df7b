/** The commit stage: only completed, non-speculative work retires, oldest first. */
module RuuCommitStage {
  import opened RuuTypes
  import opened RuuSteps
  import opened RuuInvariants
  import opened RuuLists
  import opened RuuFrame
  import opened RuuRemovalProof
  import opened RuuSquashProof
  import Events = RuuEventProof

  /** The oldest RUU entry is the oldest of all; its memory half is the oldest LSQ entry. */
  lemma HeadFacts(c: Core)
    requires Shape(c) && Order(c) && Pairs(c) && c.rn > 0
    ensures var h := c.rh;
            && Live(c, h)
            && (forall z: nat :: Live(c, z) && z < c.R && z != h ==> c.st[h].num < c.st[z].num)
            && (forall z: nat :: Live(c, z) && z >= c.R ==> c.st[h].num < c.st[z].num)
            && (c.st[h].eaComp ==> c.ln > 0 && c.st[h].partner == c.R + c.lh && IsPair(c, h, c.st[h].partner))
            && (forall z: nat :: Live(c, z) && z >= c.R && c.st[h].eaComp && z != c.st[h].partner ==>
                  c.st[h].num + 1 < c.st[z].num)
  {
    var h := c.rh;
    assert forall z: nat :: Live(c, z) && z < c.R && z != h ==> RuuBefore(c, h, z);
    forall z: nat | Live(c, z) && z >= c.R ensures c.st[h].num < c.st[z].num {
      assert IsPair(c, c.st[z].partner, z);
    }
    if c.st[h].eaComp {
      var p := c.st[h].partner;
      assert IsPair(c, h, p);
      var y := c.R + c.lh;
      assert Live(c, y) && IsPair(c, c.st[y].partner, y);
      assert p != y ==> LsqBefore(c, y, p);
      forall z: nat | Live(c, z) && z >= c.R && z != p ensures c.st[h].num + 1 < c.st[z].num {
        assert LsqBefore(c, y, z);
      }
    }
  }

  lemma HeadNotSpeculative(c: Core)
    requires Shape(c) && Order(c) && Pairs(c) && c.rn > 0 && Speculation(c, -1)
    ensures !c.st[c.rh].specMode
  {
    HeadFacts(c);
  }

  /** `b` is `c` after its oldest entry, and for a memory operation its half, left. */
  ghost predicate DropsHead(c: Core, b: Core) {
    && c.rn > 0 && c.rh < |c.st| && c.R > 0 && c.L > 0
    && b == c.(st := b.st, rh := Next(c.rh, c.R), rn := c.rn - 1, lh := b.lh, ln := b.ln)
    && var h := c.rh;
       var s := c.st[h].(tag := c.st[h].tag + 1);
       if c.st[h].eaComp then
         var y := c.R + c.lh;
         && c.ln > 0 && b.ln == c.ln - 1 && b.lh == Next(c.lh, c.L) && y < |c.st|
         && b.st == c.st[y := c.st[y].(tag := c.st[y].tag + 1)][h := s]
       else b.ln == c.ln && b.lh == c.lh && b.st == c.st[h := s]
  }

  lemma RetireDrops(c: Core)
    requires Shape(c) && c.rn > 0 && (c.st[c.rh].eaComp ==> c.ln > 0)
    ensures DropsHead(c, Retire(c))
  {
  }

  lemma HeadLive(c: Core, b: Core)
    requires Shape(c) && Shape(b) && DropsHead(c, b)
    ensures forall z: nat :: Live(b, z) <==> Live(c, z) && z != c.rh && (c.st[c.rh].eaComp ==> z != c.R + c.lh)
    ensures forall x: nat, y: nat :: RuuBefore(b, x, y) ==> RuuBefore(c, x, y)
    ensures forall x: nat, y: nat :: LsqBefore(b, x, y) ==> LsqBefore(c, x, y)
  {
  }

  lemma CompletedNoChains(c: Core, x: nat)
    requires Shape(c) && Chains(c, -1) && x < |c.st| && c.st[x].completed
    ensures c.st[x].odeps == Duo([], [])
  {
    assert c.st[x].odeps.Get(0) == [] && c.st[x].odeps.Get(1) == [];
  }

  lemma HeadGone(c: Core, b: Core)
    requires Shape(c) && Shape(b) && DropsHead(c, b) && Order(c) && Pairs(c)
    ensures forall z: nat :: Gone(c, b, z) <==> z == c.rh || (c.st[c.rh].eaComp && z == c.R + c.lh)
    ensures c.R + c.lh < |c.st|
  {
    HeadFacts(c);
    HeadLive(c, b);
  }

  lemma HeadRemoves(c: Core, b: Core)
    requires Shape(c) && Shape(b) && DropsHead(c, b) && Order(c) && Pairs(c)
    requires c.st[c.rh].odeps == Duo([], []) && (c.st[c.rh].eaComp ==> c.st[c.R + c.lh].odeps == Duo([], []))
    ensures Removes(c, b)
  {
    HeadLive(c, b);
    HeadGone(c, b);
    hide Order, Pairs, Gone;
  }

  lemma HeadOldest(c: Core, b: Core)
    requires Shape(c) && Shape(b) && DropsHead(c, b) && Order(c) && Pairs(c) && Speculation(c, -1)
    requires c.st[c.rh].completed && (c.st[c.rh].eaComp ==> c.st[c.R + c.lh].completed)
    ensures Oldest(c, b)
  {
    HeadFacts(c);
    HeadLive(c, b);
    HeadGone(c, b);
    HeadNotSpeculative(c);
    hide Order, Pairs, Gone, Speculation;
    forall g: nat, z: nat | Gone(c, b, g) && Live(b, z) ensures c.st[g].num < c.st[z].num {
      if g != c.rh {
        OtherAfterHead(c, z);
      }
    }
  }

  lemma OtherAfterHead(c: Core, z: nat)
    requires Shape(c) && Order(c) && Pairs(c) && c.rn > 0 && c.st[c.rh].eaComp && Live(c, z) && z != c.rh && z != c.R + c.lh
    ensures c.R + c.lh < |c.st| && c.st[c.R + c.lh].num < c.st[z].num
  {
    HeadFacts(c);
  }

  lemma HeadTogether(c: Core, b: Core)
    requires Shape(c) && Shape(b) && DropsHead(c, b) && Order(c) && Pairs(c)
    ensures Together(c, b)
  {
    HeadFacts(c);
    HeadLive(c, b);
  }

  lemma DropsHeadRemoves(c: Core, b: Core)
    requires Shape(c) && Shape(b) && DropsHead(c, b) && Chains(c, -1) && Order(c) && Pairs(c) && Speculation(c, -1)
    requires c.st[c.rh].completed && (c.st[c.rh].eaComp ==> c.st[c.R + c.lh].completed)
    ensures Removes(c, b) && Oldest(c, b) && Together(c, b)
  {
    CompletedNoChains(c, c.rh);
    if c.st[c.rh].eaComp {
      CompletedNoChains(c, c.R + c.lh);
    }
    hide *;
    HeadRemoves(c, b);
    HeadOldest(c, b);
    HeadTogether(c, b);
  }

  lemma HeadChainIds(c: Core, b: Core)
    requires Shape(c) && DropsHead(c, b)
    ensures ChainIds(b.st) == ChainIds(c.st)
  {
    var h, y := c.rh, c.R + c.lh;
    var s, t := c.st[h].(tag := c.st[h].tag + 1), c.st[y].(tag := c.st[y].tag + 1);
    if c.st[h].eaComp {
      assert b.st == c.st[y := t][h := s];
      hide ChainIds, Shape, DropsHead;
      TwoChainIds(c.st, y, t, h, s);
    } else {
      assert b.st == c.st[h := s];
      hide ChainIds, Shape, DropsHead;
      SameChainIds(c.st, h, s);
    }
  }

  lemma HeadIds(c: Core, b: Core, pend: seq<Link>)
    requires Shape(c) && DropsHead(c, b)
    ensures AllIds(b, pend) == AllIds(c, pend)
  {
    HeadChainIds(c, b);
    hide ChainIds, Ids;
  }

  lemma TwoChainIds(st: seq<Station>, y: nat, t: Station, h: nat, s: Station)
    requires y < |st| && h < |st| && t.odeps == st[y].odeps && s.odeps == st[h].odeps && y != h
    ensures ChainIds(st[y := t][h := s]) == ChainIds(st)
  {
    SameChainIds(st, y, t);
    SameChainIds(st[y := t], h, s);
  }

  lemma RetireSpeculation(c: Core, b: Core)
    requires Shape(c) && Shape(b) && Removes(c, b) && Oldest(c, b) && Speculation(c, -1)
    ensures Speculation(b, -1)
  {
    if c.specMode {
      var x: nat :| IsBranch(c, -1, x);
      assert !Gone(c, b, x);
      assert IsBranch(b, -1, x);
    }
    RemovesSpeculation(c, b, -1);
  }

  lemma RetireTime(c: Core, b: Core, pool: nat)
    requires Shape(c) && DropsHead(c, b) && Timely(c) && Conserved(c, [], multiset{}, pool)
    ensures Timely(b) && Conserved(b, [], multiset{}, pool)
  {
    HeadIds(c, b, []);
  }

  /** Retiring the oldest entry keeps the engine in order. */
  lemma RetireKeeps(c: Core, port: nat -> bool, pool: nat)
    requires Inv(c, pool) && Shape(c) && c.rn > 0 && CommitGate(c, port) == Open
    ensures (c.st[c.rh].eaComp ==> c.ln > 0) && Inv(Retire(c), pool)
    ensures c.st[c.rh].odeps == Duo([], []) && !c.st[c.rh].specMode && c.st[c.rh].completed
  {
    Events.IdleSplit(c, pool);
    CompletedNoChains(c, c.rh);
    HeadNotSpeculative(c);
    var b := Retire(c);
    RetireDrops(c);
    GateOpen(c, port);
    hide *;
    DropsHeadRemoves(c, b);
    OldestEnd(c, b);
    RemovesOrder(c, b);
    RemovesPairs(c, b);
    RetireSpeculation(c, b);
    RemovesLinks(c, b, []);
    IdleQueues(c, b);
    RemovesBase(c, b, -1);
    RemovesSpecVector(c, b);
    RemovesOperands(c, b, -1);
    LinksInChains(c, []);
    RemovesChains(c, b, -1);
    RemovesMemory(c, b, -1);
    RetireTime(c, b, pool);
    Events.IdleJoin(b, pool);
  }

  lemma IdleQueues(c: Core, b: Core)
    requires Shape(c) && Shape(b) && Removes(c, b) && Queues(c, []) && Status(c, {})
    ensures Queues(b, []) && Status(b, {})
  {
    RemovesQueues(c, b, IDLE);
  }

  lemma OldestEnd(c: Core, b: Core)
    requires |b.st| == |c.st| == c.R + c.L == b.R + b.L && Oldest(c, b)
    ensures AtOneEnd(c, b, -1)
  {
  }

  lemma GateOpen(c: Core, port: nat -> bool)
    requires Shape(c) && c.rn > 0 && CommitGate(c, port) == Open
    ensures c.st[c.rh].completed && (c.st[c.rh].eaComp ==> c.ln > 0 && c.st[c.R + c.lh].completed)
  {
  }

  /** The RUU and the LSQ never get out of step at commit. */
  lemma GateIntact(c: Core, port: nat -> bool, pool: nat)
    requires Inv(c, pool) && Shape(c) && c.rn > 0
    ensures !CommitGate(c, port).Broken?
  {
    Events.IdleSplit(c, pool);
    GateFacts(c, port);
  }

  lemma GateFacts(c: Core, port: nat -> bool)
    requires Shape(c) && Order(c) && Pairs(c) && Status(c, {}) && c.rn > 0
    ensures !CommitGate(c, port).Broken?
  {
    HeadFacts(c);
    if c.st[c.rh].eaComp {
      var y := c.R + c.lh;
      assert Live(c, y) && StatusOk(c, c.st[y], y, {});
    }
  }

  /** The entries `Commit` retires, oldest first. */
  function Retired(c: Core, width: nat, port: nat -> bool): seq<Station>
    requires Shape(c)
    decreases width
  {
    if c.rn == 0 || width == 0 || CommitGate(c, port) != Open then []
    else [c.st[c.rh]] + Retired(Retire(c), width - 1, port)
  }

  /** A retirement log: completed, non-speculative entries with strictly increasing sequence
      numbers, all above `m`. */
  ghost predicate InOrder(log: seq<Station>, m: nat) {
    log == [] || (log[0].num > m && log[0].completed && !log[0].specMode && InOrder(log[1..], log[0].num))
  }

  function Last(log: seq<Station>, m: nat): nat {
    if log == [] then m else log[|log| - 1].num
  }

  /** Everything in the machine is younger than `m`. */
  ghost predicate Floor(c: Core, m: nat)
    requires |c.st| == c.R + c.L
  {
    m <= c.instSeq && forall z: nat :: Live(c, z) ==> c.st[z].num > m
  }

  lemma {:induction false} InOrderAppend(a: seq<Station>, b: seq<Station>, m: nat)
    requires InOrder(a, m) && InOrder(b, Last(a, m))
    ensures InOrder(a + b, m) && Last(a + b, m) == Last(b, Last(a, m))
  {
    if a == [] {
      assert a + b == b;
    } else {
      InOrderAppend(a[1..], b, a[0].num);
      assert (a + b)[1..] == a[1..] + b;
    }
  }

  lemma RetireFloor(c: Core, m: nat)
    requires Shape(c) && Order(c) && Pairs(c) && c.rn > 0 && (c.st[c.rh].eaComp ==> c.ln > 0) && Floor(c, m)
    ensures c.st[c.rh].num > m && Floor(Retire(c), c.st[c.rh].num)
  {
    HeadFacts(c);
    RetireDrops(c);
    HeadLive(c, Retire(c));
  }

  lemma RetireOne(c: Core, port: nat -> bool, m: nat, pool: nat)
    requires Inv(c, pool) && Shape(c) && c.rn > 0 && CommitGate(c, port) == Open && Floor(c, m)
    ensures (c.st[c.rh].eaComp ==> c.ln > 0) && Inv(Retire(c), pool) && Floor(Retire(c), c.st[c.rh].num)
    ensures var s := c.st[c.rh]; s.odeps == Duo([], []) && s.num > m && s.completed && !s.specMode
  {
    Events.IdleSplit(c, pool);
    RetireKeeps(c, port, pool);
    RetireFloor(c, m);
    hide *;
  }

  lemma CommitUnfold(c: Core, width: nat, port: nat -> bool)
    requires Shape(c) && !(c.rn != 0 && CommitGate(c, port).Broken?)
    requires c.rn != 0 && CommitGate(c, port) == Open ==> (c.st[c.rh].eaComp ==> c.ln > 0) && c.st[c.rh].odeps == Duo([], [])
    ensures if c.rn == 0 || width == 0 || CommitGate(c, port) != Open then
              Commit(c, width, port) == Ok(c) && Retired(c, width, port) == []
            else
              && Commit(c, width, port) == Commit(Retire(c), width - 1, port)
              && Retired(c, width, port) == [c.st[c.rh]] + Retired(Retire(c), width - 1, port)
              && Retire(c).cycle == c.cycle
  {
  }

  /** The outcome of a commit stage that retired `log` above `m`. */
  ghost predicate CommitGood(o: Outcome, log: seq<Station>, m: nat, cycle: nat, pool: nat) {
    && o.Ok? && Inv(o.core, pool) && o.core.cycle == cycle
    && InOrder(log, m) && Floor(o.core, Last(log, m))
  }

  lemma LogStep(o: Outcome, s: Station, rest: seq<Station>, m: nat, cycle: nat, pool: nat)
    requires s.num > m && s.completed && !s.specMode && CommitGood(o, rest, s.num, cycle, pool)
    ensures CommitGood(o, [s] + rest, m, cycle, pool)
  {
    assert ([s] + rest)[1..] == rest;
    hide Inv, Floor;
    assert Last([s] + rest, m) == Last(rest, s.num);
  }

  predicate Advances(c: Core, width: nat, port: nat -> bool)
    requires Shape(c)
  {
    c.rn > 0 && width > 0 && CommitGate(c, port) == Open
  }

  lemma CommitEnds(c: Core, width: nat, port: nat -> bool, m: nat, pool: nat)
    requires Inv(c, pool) && Shape(c) && Floor(c, m) && !Advances(c, width, port)
    ensures CommitGood(Commit(c, width, port), Retired(c, width, port), m, c.cycle, pool)
  {
    if c.rn > 0 {
      GateIntact(c, port, pool);
    }
    CommitEndsAt(c, width, port);
    hide Inv, Floor, Shape;
  }

  lemma CommitEndsAt(c: Core, width: nat, port: nat -> bool)
    requires Shape(c) && !Advances(c, width, port) && (c.rn > 0 ==> !CommitGate(c, port).Broken?)
    ensures Commit(c, width, port) == Ok(c) && Retired(c, width, port) == []
  {
  }

  lemma CommitAdvances(c: Core, width: nat, port: nat -> bool, m: nat, pool: nat)
    requires Inv(c, pool) && Shape(c) && Floor(c, m) && Advances(c, width, port)
    ensures c.rn > 0 && width > 0 && c.rh < |c.st| && (c.st[c.rh].eaComp ==> c.ln > 0)
    ensures var s, r := c.st[c.rh], Retire(c);
            && Inv(r, pool) && |r.st| == r.R + r.L && Floor(r, s.num) && s.num > m && s.completed && !s.specMode
            && r.cycle == c.cycle && Shape(r)
            && Commit(c, width, port) == Commit(r, width - 1, port)
            && Retired(c, width, port) == [s] + Retired(r, width - 1, port)
  {
    RetireOne(c, port, m, pool);
    hide Inv, Floor;
    CommitUnfold(c, width, port);
  }

  /** The commit stage reaches no panic, and what it retires is completed, non-speculative
      and in strictly increasing sequence. */
  lemma {:induction false} CommitKeeps(c: Core, width: nat, port: nat -> bool, m: nat, pool: nat)
    requires Inv(c, pool) && Shape(c) && |c.st| == c.R + c.L && Floor(c, m)
    ensures CommitGood(Commit(c, width, port), Retired(c, width, port), m, c.cycle, pool)
    decreases width
  {
    hide *;
    if !Advances(c, width, port) {
      CommitEnds(c, width, port, m, pool);
    } else {
      CommitAdvances(c, width, port, m, pool);
      var s, r := c.st[c.rh], Retire(c);
      CommitKeeps(r, width - 1, port, s.num, pool);
      LogStep(Commit(r, width - 1, port), s, Retired(r, width - 1, port), m, c.cycle, pool);
    }
  }
}
