/** Whole cycles and whole runs: no panic is reachable, and retirement is in order. */
module RuuCycle {
  import opened RuuTypes
  import opened RuuSteps
  import opened RuuInvariants
  import opened RuuFrame
  import opened RuuTame
  import opened RuuCommitStage
  import opened RuuWritebackStage
  import opened RuuRefreshStage
  import opened RuuIssueStage
  import opened RuuDispatchLoop
  import Events = RuuEventProof

  // ----- the clock -----

  function Tick(c: Core): Core { c.(cycle := c.cycle + 1) }

  lemma TickFrame(c: Core)
    requires Shape(c) && Timely(c) && Later(c)
    ensures var b := Tick(c);
            && Shape(b) && Frame(c, b) && Completes(c, b, -1) && Timely(b)
            && SameOperands(c, b) && ReadyGrows(c, b) && SafeStarts(c, b) && SameBranches(c, b, -1, -1)
  {
  }

  lemma TickQueues(c: Core)
    requires Shape(c) && Queues(c, []) && Status(c, {})
    ensures Queues(Tick(c), []) && Status(Tick(c), {})
  {
    var b := Tick(c);
    forall z: nat | Live(b, z) ensures QueueOk(b, [], z) && StatusOk(b, b.st[z], z, {}) {
      assert Live(c, z) && QueueOk(c, [], z) && StatusOk(c, c.st[z], z, {});
    }
  }

  lemma TickLists(c: Core, pool: nat)
    requires Shape(c) && LinksOk(c, []) && Conserved(c, [], multiset{}, pool)
    ensures LinksOk(Tick(c), []) && Conserved(Tick(c), [], multiset{}, pool)
  {
    FrameLive(c, Tick(c));
    FrameLinks(c, Tick(c), [], []);
  }

  lemma TickKeeps(c: Core, pool: nat)
    requires Inv(c, pool) && Later(c)
    ensures Inv(Tick(c), pool)
  {
    var b := Tick(c);
    Events.IdleSplit(c, pool);
    hide *;
    TickFrame(c);
    FrameSkeleton(c, b);
    FrameSpeculation(c, b, -1, -1);
    FrameVectors(c, b, -1, -1);
    FrameMemory(c, b);
    FrameOperands(c, b, -1, -1);
    FrameChains(c, b, -1, -1);
    TickQueues(c);
    TickLists(c, pool);
    Events.IdleJoin(b, pool);
  }

  // ----- the RUU never holds fewer entries than the LSQ -----

  /** The RUU position of the address half of the LSQ entry at position `j`. */
  function HalfPosition(c: Core, j: nat): int
    requires Shape(c) && j < c.ln
  {
    Pos(c.rh, c.R, c.st[c.R + At(c.lh, c.L, j)].partner)
  }

  lemma HalvesAscend(c: Core, j: nat)
    requires Shape(c) && Order(c) && Pairs(c) && j + 1 < c.ln
    ensures HalfPosition(c, j) < HalfPosition(c, j + 1)
  {
    var y, z := c.R + At(c.lh, c.L, j), c.R + At(c.lh, c.L, j + 1);
    assert LsqBefore(c, y, z);
    assert IsPair(c, c.st[y].partner, y) && IsPair(c, c.st[z].partner, z);
    var p, q := c.st[y].partner, c.st[z].partner;
    assert !RuuBefore(c, q, p);
    assert p != q;
  }

  lemma HalfInRange(c: Core, j: nat)
    requires Shape(c) && Order(c) && Pairs(c) && j < c.ln
    ensures 0 <= HalfPosition(c, j) < c.rn
  {
    var y := c.R + At(c.lh, c.L, j);
    assert Live(c, y) && IsPair(c, c.st[y].partner, y);
  }

  lemma {:induction false} HalvesSpread(c: Core, j: nat)
    requires Shape(c) && Order(c) && Pairs(c) && j < c.ln
    ensures j <= HalfPosition(c, j) < c.rn
  {
    HalfInRange(c, j);
    hide Order, Pairs, HalfPosition, Shape;
    if j > 0 {
      HalvesSpread(c, j - 1);
      HalvesAscend(c, j - 1);
    }
  }

  lemma NotSmaller(c: Core, pool: nat)
    requires Inv(c, pool)
    ensures c.ln <= c.rn
  {
    Events.IdleSplit(c, pool);
    hide Inv, Order, Pairs;
    if c.ln > 0 {
      HalvesSpread(c, c.ln - 1);
    }
  }

  // ----- one cycle -----

  /** After a cycle that began in `c` above `m`: the invariant, and what retired so far. */
  ghost predicate CycleGood(d: Outcome, log: seq<Station>, L: nat, m: nat, pool: nat) {
    && InOrder(log, m)
    && match d
       case Ok(b) => Inv(b, pool) && b.L == L && Floor(b, Last(log, m))
       case Stop(why) => IsCapacityFault(why, L)
  }

  /** The stages of a cycle after commit. */
  function Rest(c: Core, inp: Inputs): Outcome
    requires Shape(c) && (forall j :: 0 <= j < |inp.insts| ==> WellFormed(inp.insts[j]))
  {
    var c2 :- Writeback(c);
    var c3 :- Refresh(c2, 0, []);
    var c4 :- Issue(c3.(readyq := []), c3.readyq, 0, inp.issue);
    var c5 :- Dispatch(c4, inp.insts, 0, inp.dispatch);
    Ok(Tick(c5))
  }

  lemma CycleIs(c: Core, inp: Inputs)
    requires Shape(c) && c.ln <= c.rn && (forall j :: 0 <= j < |inp.insts| ==> WellFormed(inp.insts[j]))
    ensures var r := Commit(c, inp.commitWidth, inp.port);
            Cycle(c, inp) == if r.Ok? then Rest(r.core, inp) else r
  {
    hide Commit, Writeback, Refresh, Issue, Dispatch;
  }

  /** State kept from stage to stage: in order, nothing due, all younger than `m`. */
  ghost predicate Between(c: Core, m: nat, pool: nat) {
    Inv(c, pool) && Later(c) && Floor(c, m)
  }

  ghost predicate StageGood(r: Outcome, L: nat, m: nat, pool: nat) {
    match r
    case Ok(b) => Between(b, m, pool) && b.L == L
    case Stop(why) => IsCapacityFault(why, L)
  }

  lemma WritebackStage(c: Core, m: nat, pool: nat)
    requires Inv(c, pool) && Shape(c) && |c.st| == c.R + c.L && Floor(c, m)
    ensures StageGood(Writeback(c), c.L, m, pool)
  {
    WritebackKeeps(c, pool);
    WritebackTame(c);
    hide Inv, Writeback;
    if Writeback(c).Ok? {
      TameFloor(c, Writeback(c).core, m);
    }
  }

  lemma BetweenShape(c: Core, m: nat, pool: nat)
    requires Between(c, m, pool)
    ensures Shape(c) && |c.st| == c.R + c.L && Inv(c, pool) && Later(c) && Floor(c, m)
  {
  }

  lemma RefreshBetween(c: Core, m: nat, pool: nat)
    requires Between(c, m, pool) && Shape(c)
    ensures StageGood(Refresh(c, 0, []), c.L, m, pool)
  {
    RefreshStage(c, pool);
    RefreshTame(c, 0, []);
    BetweenShape(c, m, pool);
    hide Inv, Refresh;
    if Refresh(c, 0, []).Ok? {
      TameFloor(c, Refresh(c, 0, []).core, m);
    }
  }

  lemma IssueBetween(c: Core, env: IssueEnv, m: nat, pool: nat)
    requires Between(c, m, pool) && Shape(c) && Latencies(env)
    ensures StageGood(Issue(c.(readyq := []), c.readyq, 0, env), c.L, m, pool)
  {
    var a := c.(readyq := []);
    IssueStage(c, env, pool);
    BetweenShape(c, m, pool);
    IssueTame(a, c.readyq, 0, env);
    DetachFloor(c, a, m);
    hide Inv, Issue;
    if Issue(a, c.readyq, 0, env).Ok? {
      IssueInv(Issue(a, c.readyq, 0, env), pool);
      TameFloor(a, Issue(a, c.readyq, 0, env).core, m);
    }
  }

  lemma DetachFloor(c: Core, a: Core, m: nat)
    requires |c.st| == c.R + c.L && a == c.(readyq := []) && Floor(c, m)
    ensures Floor(a, m)
  {
    assert forall z: nat :: Live(a, z) <==> Live(c, z);
  }

  lemma IssueInv(r: Outcome, pool: nat)
    requires GoodOutcome(r, IDLE, pool) && r.Ok?
    ensures Inv(r.core, pool)
  {
  }

  lemma DispatchBetween(c: Core, insts: seq<Inst>, env: DispatchEnv, m: nat, pool: nat)
    requires Between(c, m, pool) && Shape(c) && (forall j :: 0 <= j < |insts| ==> WellFormed(insts[j]))
    ensures StageGood(Dispatch(c, insts, 0, env), c.L, m, pool)
  {
    BetweenShape(c, m, pool);
    DispatchKeeps(c, insts, 0, env, pool);
    hide Inv, Dispatch;
    if Dispatch(c, insts, 0, env).Ok? {
      YoungerFloor(c, Dispatch(c, insts, 0, env).core, m);
    }
  }

  lemma TickBetween(c: Core, m: nat, pool: nat)
    requires Between(c, m, pool)
    ensures Inv(Tick(c), pool) && |Tick(c).st| == Tick(c).R + Tick(c).L && Floor(Tick(c), m)
  {
    TickKeeps(c, pool);
    BetweenShape(c, m, pool);
    hide Inv;
    assert forall z: nat :: Live(Tick(c), z) <==> Live(c, z);
  }

  lemma StageParts(r: Outcome, L: nat, m: nat, pool: nat)
    requires StageGood(r, L, m, pool)
    ensures r.Ok? ==> Between(r.core, m, pool) && Shape(r.core) && r.core.L == L
    ensures r.Stop? ==> IsCapacityFault(r.fault, L)
  {
  }

  lemma RestKeeps(c: Core, inp: Inputs, m: nat, pool: nat)
    requires Inv(c, pool) && Shape(c) && |c.st| == c.R + c.L && Floor(c, m) && Latencies(inp.issue)
    requires forall j :: 0 <= j < |inp.insts| ==> WellFormed(inp.insts[j])
    ensures match Rest(c, inp)
            case Ok(b) => Inv(b, pool) && b.L == c.L && |b.st| == b.R + b.L && Floor(b, m)
            case Stop(why) => IsCapacityFault(why, c.L)
  {
    RestIs(c, inp);
    hide *;
    WritebackStage(c, m, pool);
    StageParts(Writeback(c), c.L, m, pool);
    if Writeback(c).Ok? {
      var c2 := Writeback(c).core;
      RefreshBetween(c2, m, pool);
      StageParts(Refresh(c2, 0, []), c.L, m, pool);
      if Refresh(c2, 0, []).Ok? {
        var c3 := Refresh(c2, 0, []).core;
        IssueBetween(c3, inp.issue, m, pool);
        var r4 := Issue(c3.(readyq := []), c3.readyq, 0, inp.issue);
        StageParts(r4, c.L, m, pool);
        if r4.Ok? {
          DispatchBetween(r4.core, inp.insts, inp.dispatch, m, pool);
          var r5 := Dispatch(r4.core, inp.insts, 0, inp.dispatch);
          StageParts(r5, c.L, m, pool);
          if r5.Ok? {
            TickBetween(r5.core, m, pool);
          }
        }
      }
    }
  }

  lemma RestIs(c: Core, inp: Inputs)
    requires Shape(c) && (forall j :: 0 <= j < |inp.insts| ==> WellFormed(inp.insts[j]))
    ensures Rest(c, inp) ==
            var r2 := Writeback(c);
            if r2.Stop? then r2 else
              var r3 := Refresh(r2.core, 0, []);
              if r3.Stop? then r3 else
                var r4 := Issue(r3.core.(readyq := []), r3.core.readyq, 0, inp.issue);
                if r4.Stop? then r4 else
                  var r5 := Dispatch(r4.core, inp.insts, 0, inp.dispatch);
                  if r5.Stop? then r5 else Ok(Tick(r5.core))
    ensures Writeback(c).Ok? ==> Shape(Writeback(c).core)
    ensures forall b: Core :: Shape(b) ==> Shape(b.(readyq := []))
  {
    hide Writeback, Refresh, Issue, Dispatch;
  }

  /** One cycle from any state in order: no panic, and in-order, non-speculative retirement. */
  lemma CycleKeeps(c: Core, inp: Inputs, m: nat, pool: nat)
    requires Inv(c, pool) && Shape(c) && |c.st| == c.R + c.L && Floor(c, m) && WellFormedInputs(inp)
    ensures CycleGood(Cycle(c, inp), Retired(c, inp.commitWidth, inp.port), c.L, m, pool)
  {
    NotSmaller(c, pool);
    CycleIs(c, inp);
    CommitKeeps(c, inp.commitWidth, inp.port, m, pool);
    var r, log := Commit(c, inp.commitWidth, inp.port), Retired(c, inp.commitWidth, inp.port);
    InvSize(r.core, pool);
    RestKeeps(r.core, inp, Last(log, m), pool);
    hide Inv, Commit, Retired, Rest, Cycle, Shape;
  }

  lemma InvSize(c: Core, pool: nat)
    requires Inv(c, pool)
    ensures Shape(c) && |c.st| == c.R + c.L
  {
  }

  // ----- whole runs -----

  ghost predicate WellFormedRun(inputs: seq<Inputs>) {
    forall t :: 0 <= t < |inputs| ==> WellFormedInputs(inputs[t])
  }

  ghost function Run(c: Core, inputs: seq<Inputs>): Outcome
    requires Shape(c) && WellFormedRun(inputs)
    decreases |inputs|
  {
    if inputs == [] then Ok(c)
    else
      var d := Cycle(c, inputs[0]);
      if d.Stop? then d else Run(d.core, inputs[1..])
  }

  /** Everything a run retires, oldest first, until it ends or stops. */
  ghost function Log(c: Core, inputs: seq<Inputs>): seq<Station>
    requires Shape(c) && WellFormedRun(inputs)
    decreases |inputs|
  {
    if inputs == [] then []
    else
      var d := Cycle(c, inputs[0]);
      Retired(c, inputs[0].commitWidth, inputs[0].port) + (if d.Stop? then [] else Log(d.core, inputs[1..]))
  }

  lemma CycleParts(d: Outcome, log: seq<Station>, L: nat, m: nat, pool: nat)
    requires CycleGood(d, log, L, m, pool)
    ensures InOrder(log, m)
    ensures d.Ok? ==> Inv(d.core, pool) && d.core.L == L && Shape(d.core) && |d.core.st| == d.core.R + d.core.L && Floor(d.core, Last(log, m))
    ensures d.Stop? ==> IsCapacityFault(d.fault, L)
  {
  }

  lemma CycleJoin(log: seq<Station>, L: nat, m: nat, d: Outcome, more: seq<Station>, pool: nat)
    requires InOrder(log, m) && CycleGood(d, more, L, Last(log, m), pool)
    ensures CycleGood(d, log + more, L, m, pool)
  {
    InOrderAppend(log, more, m);
    hide Inv;
  }

  lemma {:induction false} RunKeeps(c: Core, inputs: seq<Inputs>, m: nat, pool: nat)
    requires Inv(c, pool) && Shape(c) && |c.st| == c.R + c.L && Floor(c, m) && WellFormedRun(inputs)
    ensures CycleGood(Run(c, inputs), Log(c, inputs), c.L, m, pool)
    decreases |inputs|
  {
    if inputs == [] {
      EmptyRun(c, m, pool);
    } else {
      var inp, rest := inputs[0], inputs[1..];
      CycleKeeps(c, inp, m, pool);
      RunIs(c, inputs);
      var d, log := Cycle(c, inp), Retired(c, inp.commitWidth, inp.port);
      hide Inv, Cycle, Retired, Shape, Floor, InOrder, CycleGood, Run, Log;
      CycleParts(d, log, c.L, m, pool);
      if d.Ok? {
        RunKeeps(d.core, rest, Last(log, m), pool);
        CycleJoin(log, c.L, m, Run(d.core, rest), Log(d.core, rest), pool);
      }
    }
  }

  lemma EmptyRun(c: Core, m: nat, pool: nat)
    requires Inv(c, pool) && Shape(c) && Floor(c, m)
    ensures CycleGood(Run(c, []), Log(c, []), c.L, m, pool)
  {
    hide Inv, Shape;
  }

  lemma RunIs(c: Core, inputs: seq<Inputs>)
    requires Shape(c) && WellFormedRun(inputs) && inputs != []
    ensures var d, log := Cycle(c, inputs[0]), Retired(c, inputs[0].commitWidth, inputs[0].port);
      && (d.Ok? ==> Shape(d.core) && WellFormedRun(inputs[1..]))
      && Run(c, inputs) == (if d.Ok? then Run(d.core, inputs[1..]) else d)
      && Log(c, inputs) == if d.Ok? then log + Log(d.core, inputs[1..]) else log
  {
    hide Shape, Cycle, Retired;
    var log := Retired(c, inputs[0].commitWidth, inputs[0].port);
    assert log + [] == log;
  }

  // ----- from power-on -----

  const IDLE_STATION := Station(Alu, false, false, false, false, false, false, 0, 0, 0, false, false, false,
                                Duo(NA, NA), Duo([], []), Tri(false, false, false), Tri(NA, NA, NA),
                                Tri(RegFile, RegFile, RegFile), 0)

  /** The engine as it is initialised: empty queues, all links free, all registers in the file. */
  function Initial(R: nat, L: nat, pool: nat): Core {
    Core(R, L, seq(R + L, _ => IDLE_STATION), 0, 0, 0, 0, seq(pool, i => i), [], [],
         seq(MD_TOTAL_REGS, _ => RegFile), seq(MD_TOTAL_REGS, _ => RegFile), {}, false, 0, 0)
  }

  lemma {:induction false} NoChainIds(st: seq<Station>)
    requires forall x :: 0 <= x < |st| ==> st[x].odeps == Duo([], [])
    ensures ChainIds(st) == multiset{}
  {
    if st != [] {
      NoChainIds(st[..|st| - 1]);
    }
  }

  lemma InitialInv(R: nat, L: nat, pool: nat)
    requires R > 0 && L > 0
    ensures var c := Initial(R, L, pool); Inv(c, pool) && Shape(c) && |c.st| == c.R + c.L && Floor(c, 0)
  {
    var c := Initial(R, L, pool);
    NoChainIds(c.st);
    assert Conserved(c, [], multiset{}, pool);
    assert forall x: nat :: !Live(c, x);
    assert forall p: nat, o: nat, l :: !InChain(c, p, o, l);
    hide ChainIds, Conserved, AllIds, Ids, Keys;
    assert Queues(c, []) && Chains(c, -1) && BaseVector(c, -1) && SpecVector(c, -1);
  }

  /** Every run from power-on: the only stops are the two configured capacities, the second of
      them only with more LSQ entries than the table of unknown stores has; the invariant holds
      after every cycle, and what retires was completed, is not speculative and comes in strictly
      increasing sequence. */
  lemma RunFromPowerOn(R: nat, L: nat, pool: nat, inputs: seq<Inputs>)
    requires R > 0 && L > 0 && WellFormedRun(inputs)
    ensures var c := Initial(R, L, pool);
            Shape(c) && CycleGood(Run(c, inputs), Log(c, inputs), L, 0, pool)
  {
    InitialInv(R, L, pool);
    hide Inv, Initial, Floor;
    RunKeeps(Initial(R, L, pool), inputs, 0, pool);
  }
}
