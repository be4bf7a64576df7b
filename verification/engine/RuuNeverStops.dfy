/** With enough link records no run stops for want of one. */
module RuuNeverStops {
  import opened RuuTypes
  import opened RuuSteps
  import opened RuuInvariants
  import opened RuuChainCodes
  import opened RuuTame
  import opened RuuStill
  import opened RuuLinkRoom
  import opened RuuEventBound
  import opened RuuNumbers
  import opened RuuConsumers
  import opened RuuLinkBound
  import opened RuuLinkCapacity
  import opened RuuCommitStage
  import opened RuuRefreshStage
  import opened RuuIssueStage
  import opened RuuDispatchLoop
  import opened RuuCycle

  /** Enough links: those in use between cycles, and those that one cycle takes on top, one for
      each LSQ entry, one to issue with, and eight for each RUU entry dispatched. */
  function LinkBound(R: nat, L: nat, w: nat, m: nat): nat {
    MostInUse(R, L, w, m) + L + 1 + 8 * R
  }

  /** What holds between cycles besides the invariant. */
  ghost predicate Stocked(c: Core, w: nat, m: nat) { Numbered(c) && Consumers(c) && Fresh(c) && EventsFit(c, w, m) }

  /** Inside a cycle that began with the events `q`: `k` records are free. */
  ghost predicate Holds(c: Core, q: seq<Link>, k: int) {
    && Numbered(c) && Consumers(c) && |c.free| >= k
    && forall t: nat :: Due(c.events, t) <= Due(q, t)
  }

  ghost predicate HoldsOutcome(r: Outcome, q: seq<Link>, k: int, c: Core) {
    match r
    case Ok(b) => Holds(b, q, k) && b.cycle == c.cycle && b.R == c.R && b.L == c.L
    case Stop(why) => why != OutOfLinks
  }

  lemma TameConsumers(c: Core, b: Core)
    requires Tame(c, b) && Consumers(c)
    ensures Consumers(b)
  {
    TameLoses(c, b);
    LosesConsumers(c, b);
    hide Tame, Consumers, Loses;
  }

  lemma CommitHolds(c: Core, width: nat, port: nat -> bool, m: nat, pool: nat, k: int)
    requires Inv(c, pool) && Shape(c) && |c.st| == c.R + c.L && Floor(c, m) && Numbered(c) && Consumers(c) && |c.free| >= k
    ensures Commit(c, width, port).Ok? && HoldsOutcome(Commit(c, width, port), c.events, k, c)
  {
    CommitBound(c, width, port, m, pool);
    CommitKeeps(c, width, port, m, pool);
    hide Inv, Floor, Commit, Numbered, Consumers, Due, Retired, InOrder;
  }

  lemma WritebackHolds(c: Core, q: seq<Link>, k: int, pool: nat)
    requires Inv(c, pool) && Shape(c) && Holds(c, q, k)
    ensures HoldsOutcome(Writeback(c), q, k, c)
  {
    WritebackRoom(c);
    WritebackNumbers(c, pool);
    WritebackTame(c);
    if Writeback(c).Ok? {
      var b := Writeback(c).core;
      TameConsumers(c, b);
      TameSame(c, b);
      forall t: nat ensures Due(b.events, t) <= Due(q, t) {
        WritebackDue(c, t);
      }
    }
    hide Inv, Writeback, Numbered, Consumers, Due, Tame;
  }

  lemma TameSame(c: Core, b: Core)
    requires Tame(c, b)
    ensures b.cycle == c.cycle && b.R == c.R && b.L == c.L
  {
  }

  lemma RefreshHolds(c: Core, q: seq<Link>, k: int, pool: nat)
    requires Inv(c, pool) && Shape(c) && Holds(c, q, k + c.L) && k >= 0
    ensures HoldsOutcome(Refresh(c, 0, []), q, k, c)
  {
    RefreshRoom(c, 0, []);
    RefreshStage(c, pool);
    RefreshStill(c, 0, []);
    RefreshTame(c, 0, []);
    if Refresh(c, 0, []).Ok? {
      var b := Refresh(c, 0, []).core;
      TameConsumers(c, b);
      TameSame(c, b);
      StillNumbers(c, b);
    }
    hide Inv, Refresh, Numbered, Consumers, Due, Tame;
  }

  /** Issue, from an empty ready queue. */
  ghost predicate IssueHeld(r: Outcome, q: seq<Link>, k: int, w: nat, m: nat, c: Core) {
    match r
    case Ok(b) =>
      && Numbered(b) && Consumers(b) && Fresh(b) && |b.free| >= k && b.R == c.R && b.L == c.L && b.cycle == c.cycle
      && forall t: nat :: Due(b.events, t) <= Due(q, t) + if t <= c.cycle + m then w else 0
    case Stop(why) => why != OutOfLinks
  }

  lemma DetachHolds(c: Core, q: seq<Link>, k: int)
    requires Holds(c, q, k) && Shape(c)
    ensures var a := c.(readyq := []); Holds(a, q, k) && Fresh(a) && Shape(a) && a.cycle == c.cycle
  {
    var a := c.(readyq := []);
    assert Still(c, a);
    StillNumbers(c, a);
    assert Loses(c, a);
    LosesConsumers(c, a);
    hide Numbered, Consumers, StationCodes;
  }

  lemma IssueHolds(a: Core, pend: seq<Link>, env: IssueEnv, q: seq<Link>, k: int, w: nat, m: nat)
    requires Shape(a) && Holds(a, q, k) && Fresh(a) && k >= 1 && Quick(env, w, m)
    ensures IssueHeld(Issue(a, pend, 0, env), q, k, w, m, a)
  {
    IssueRoom(a, pend, 0, env);
    IssueStill(a, pend, 0, env);
    IssueTame(a, pend, 0, env);
    if Issue(a, pend, 0, env).Ok? {
      var b := Issue(a, pend, 0, env).core;
      TameConsumers(a, b);
      TameSame(a, b);
      StillNumbers(a, b);
      StillFresh(a, b);
      forall t: nat ensures Due(b.events, t) <= Due(q, t) + if t <= a.cycle + m then w else 0 {
        IssueDue(a, pend, 0, env, w, m, t);
      }
    }
    hide Issue, Numbered, Consumers, Due, Tame, Still, Fresh;
  }

  lemma StillFresh(c: Core, b: Core)
    requires Still(c, b) && Fresh(c)
    ensures Fresh(b)
  {
  }

  lemma DispatchHolds(c: Core, insts: seq<Inst>, env: DispatchEnv, q: seq<Link>, w: nat, m: nat, a: Core, pool: nat)
    requires Inv(c, pool) && Shape(c) && (forall j :: 0 <= j < |insts| ==> WellFormed(insts[j]))
    requires IssueHeld(Ok(c), q, 8 * c.R, w, m, a)
    ensures IssueHeld(Dispatch(c, insts, 0, env), q, 0, w, m, a)
  {
    SlackEnough(c);
    assert Measured(c);
    DispatchAllBound(c, insts, 0, env, pool);
    DispatchKeeps(c, insts, 0, env, pool);
    var r := Dispatch(c, insts, 0, env);
    DispatchBoundOk(c, r);
    DispatchParts(c, r, pool);
    if r.Ok? {
      YoungerParts(c, r.core);
    }
    hide Inv, Dispatch, Numbered, Consumers, Due, Fresh, DispatchBound, DispatchGood, Younger;
  }

  lemma SlackEnough(c: Core)
    requires |c.free| >= 8 * c.R
    ensures Slack(c) >= 0
  {
  }

  lemma YoungerParts(c: Core, b: Core)
    requires Younger(c, b)
    ensures b.events == c.events && b.cycle == c.cycle && b.R == c.R && b.L == c.L
  {
  }

  /** The clock moves on, and what was scheduled fits again. */
  lemma TickStocked(c: Core, s: Core, w: nat, m: nat)
    requires Shape(c) && IssueHeld(Ok(c), s.events, 0, w, m, s) && EventsFit(s, w, m)
    ensures Stocked(Tick(c), w, m)
  {
    var b := Tick(c);
    assert Still(c, b) && Loses(c, b);
    StillNumbers(c, b);
    LosesConsumers(c, b);
    StillFresh(c, b);
    hide Numbered, Consumers, StationCodes, Due, Still, Fresh;
    NextFits(s, b, w, m);
  }

  // ----- one cycle -----

  ghost predicate StockedOutcome(r: Outcome, w: nat, m: nat) {
    match r
    case Ok(b) => Stocked(b, w, m)
    case Stop(why) => why != OutOfLinks
  }

  lemma HoldsParts(r: Outcome, q: seq<Link>, k: int, c: Core, s: Core)
    requires HoldsOutcome(r, q, k, c) && c.cycle == s.cycle && c.R == s.R && c.L == s.L
    ensures r.Ok? ==> Holds(r.core, q, k) && r.core.cycle == s.cycle && r.core.R == s.R && r.core.L == s.L
    ensures r.Stop? ==> r != Stop(OutOfLinks)
  {
  }

  lemma HeldParts(r: Outcome, q: seq<Link>, k: int, w: nat, m: nat, c: Core, s: Core)
    requires IssueHeld(r, q, k, w, m, c) && c.cycle == s.cycle && c.R == s.R && c.L == s.L
    ensures r.Ok? ==> IssueHeld(Ok(r.core), q, k, w, m, s) && r.core.cycle == s.cycle && r.core.R == s.R && r.core.L == s.L
    ensures r.Stop? ==> r != Stop(OutOfLinks)
  {
    hide Numbered, Consumers, Due, Fresh;
  }

  lemma HeldStops(r: Outcome, w: nat, m: nat)
    requires r.Stop? && r != Stop(OutOfLinks)
    ensures StockedOutcome(r, w, m)
  {
  }

  lemma StockedOk(b: Core, w: nat, m: nat)
    requires Stocked(b, w, m)
    ensures StockedOutcome(Ok(b), w, m)
  {
  }

  /** The stages behind commit, in a cycle that began with the events and the clock of `s`. */
  lemma RestStocked(c: Core, s: Core, inp: Inputs, n: nat, pool: nat, w: nat, m: nat)
    requires Inv(c, pool) && Shape(c) && |c.st| == c.R + c.L && Floor(c, n) && Latencies(inp.issue)
    requires forall j :: 0 <= j < |inp.insts| ==> WellFormed(inp.insts[j])
    requires Quick(inp.issue, w, m) && EventsFit(s, w, m) && c.cycle == s.cycle && c.R == s.R && c.L == s.L
    requires Holds(c, s.events, 8 * c.R + 1 + c.L)
    ensures StockedOutcome(Rest(c, inp), w, m)
  {
    RestIs(c, inp);
    hide *;
    var q, k := s.events, 8 * c.R + 1;
    WritebackStage(c, n, pool);
    StageParts(Writeback(c), c.L, n, pool);
    WritebackHolds(c, q, k + c.L, pool);
    HoldsParts(Writeback(c), q, k + c.L, c, s);
    if Writeback(c).Stop? {
      HeldStops(Writeback(c), w, m);
    } else {
      AfterWriteback(Writeback(c).core, s, inp, n, pool, w, m);
    }
  }

  lemma BetweenInv(c: Core, n: nat, pool: nat)
    requires Between(c, n, pool)
    ensures Shape(c) && Inv(c, pool)
  {
  }

  lemma AfterWriteback(c: Core, s: Core, inp: Inputs, n: nat, pool: nat, w: nat, m: nat)
    requires Between(c, n, pool) && Shape(c) && Latencies(inp.issue)
    requires forall j :: 0 <= j < |inp.insts| ==> WellFormed(inp.insts[j])
    requires Quick(inp.issue, w, m) && EventsFit(s, w, m) && c.cycle == s.cycle && c.R == s.R && c.L == s.L
    requires Holds(c, s.events, 8 * s.R + 1 + s.L)
    ensures forall b: Core :: Shape(b) ==> Shape(b.(readyq := []))
    ensures var r3 := Refresh(c, 0, []);
            StockedOutcome(
              if r3.Stop? then r3 else
                var r4 := Issue(r3.core.(readyq := []), r3.core.readyq, 0, inp.issue);
                if r4.Stop? then r4 else
                  var r5 := Dispatch(r4.core, inp.insts, 0, inp.dispatch);
                  if r5.Stop? then r5 else Ok(Tick(r5.core)), w, m)
  {
    Detached();
    hide *;
    var q, k, r3 := s.events, 8 * s.R + 1, Refresh(c, 0, []);
    BetweenInv(c, n, pool);
    RefreshBetween(c, n, pool);
    StageParts(r3, c.L, n, pool);
    RefreshHolds(c, q, k, pool);
    HoldsParts(r3, q, k, c, s);
    if r3.Stop? {
      HeldStops(r3, w, m);
    } else {
      var c3 := r3.core;
      var a := c3.(readyq := []);
      var r4 := Issue(a, c3.readyq, 0, inp.issue);
      IssueBetween(c3, inp.issue, n, pool);
      StageParts(r4, s.L, n, pool);
      DetachHolds(c3, q, k);
      IssueHolds(a, c3.readyq, inp.issue, q, k, w, m);
      HeldParts(r4, q, k, w, m, a, s);
      if r4.Stop? {
        HeldStops(r4, w, m);
      } else {
        AfterIssue(r4.core, s, inp, n, pool, w, m);
      }
    }
  }

  lemma Detached()
    ensures forall b: Core :: Shape(b) ==> Shape(b.(readyq := []))
  {
  }

  lemma HeldFewer(c: Core, q: seq<Link>, k: int, j: int, w: nat, m: nat, s: Core)
    requires IssueHeld(Ok(c), q, k, w, m, s) && j <= k
    ensures IssueHeld(Ok(c), q, j, w, m, s)
  {
    hide Numbered, Consumers, Due, Fresh;
  }

  lemma AfterIssue(c: Core, s: Core, inp: Inputs, n: nat, pool: nat, w: nat, m: nat)
    requires Between(c, n, pool) && Shape(c) && (forall j :: 0 <= j < |inp.insts| ==> WellFormed(inp.insts[j]))
    requires IssueHeld(Ok(c), s.events, 8 * s.R + 1, w, m, s) && c.R == s.R && EventsFit(s, w, m)
    ensures var r5 := Dispatch(c, inp.insts, 0, inp.dispatch);
            StockedOutcome(if r5.Stop? then r5 else Ok(Tick(r5.core)), w, m)
  {
    hide *;
    var r5 := Dispatch(c, inp.insts, 0, inp.dispatch);
    BetweenInv(c, n, pool);
    HeldFewer(c, s.events, 8 * s.R + 1, 8 * c.R, w, m, s);
    DispatchHolds(c, inp.insts, inp.dispatch, s.events, w, m, s, pool);
    DispatchBetween(c, inp.insts, inp.dispatch, n, pool);
    StageParts(r5, c.L, n, pool);
    HeldParts(r5, s.events, 0, w, m, s, s);
    if r5.Stop? {
      HeldStops(r5, w, m);
    } else {
      TickStocked(r5.core, s, w, m);
      StockedOk(Tick(r5.core), w, m);
    }
  }

  lemma StockedParts(c: Core, w: nat, m: nat, pool: nat)
    requires Inv(c, pool) && Stocked(c, w, m) && pool >= LinkBound(c.R, c.L, w, m)
    ensures Numbered(c) && Consumers(c) && EventsFit(c, w, m) && |c.free| >= 8 * c.R + 1 + c.L
  {
    EnoughFree(c, w, m, pool);
    hide Inv, Numbered, Consumers, Fresh, EventsFit, MostInUse;
  }

  /** One cycle, with enough links. */
  lemma CycleStocked(c: Core, inp: Inputs, n: nat, pool: nat, w: nat, m: nat)
    requires Inv(c, pool) && Shape(c) && |c.st| == c.R + c.L && Floor(c, n) && WellFormedInputs(inp)
    requires Stocked(c, w, m) && pool >= LinkBound(c.R, c.L, w, m) && Quick(inp.issue, w, m)
    ensures StockedOutcome(Cycle(c, inp), w, m)
  {
    InputsParts(inp);
    hide *;
    StockedParts(c, w, m, pool);
    NotSmaller(c, pool);
    CycleIs(c, inp);
    var k, r := 8 * c.R + 1 + c.L, Commit(c, inp.commitWidth, inp.port);
    CommitHolds(c, inp.commitWidth, inp.port, n, pool, k);
    CommitKeeps(c, inp.commitWidth, inp.port, n, pool);
    var log := Retired(c, inp.commitWidth, inp.port);
    CommitParts(r, log, n, c.cycle, pool);
    HoldsParts(r, c.events, k, c, c);
    RestStocked(r.core, c, inp, Last(log, n), pool, w, m);
  }

  lemma InputsParts(inp: Inputs)
    requires WellFormedInputs(inp)
    ensures Latencies(inp.issue) && forall j :: 0 <= j < |inp.insts| ==> WellFormed(inp.insts[j])
  {
  }

  lemma CommitParts(o: Outcome, log: seq<Station>, n: nat, cycle: nat, pool: nat)
    requires CommitGood(o, log, n, cycle, pool)
    ensures o.Ok? && Inv(o.core, pool) && Shape(o.core) && |o.core.st| == o.core.R + o.core.L && Floor(o.core, Last(log, n))
  {
  }

  // ----- whole runs -----

  ghost predicate QuickRun(inputs: seq<Inputs>, w: nat, m: nat) {
    forall t :: 0 <= t < |inputs| ==> Quick(inputs[t].issue, w, m)
  }

  lemma {:induction false} RunStocked(c: Core, inputs: seq<Inputs>, n: nat, pool: nat, w: nat, m: nat)
    requires Inv(c, pool) && Shape(c) && |c.st| == c.R + c.L && Floor(c, n) && WellFormedRun(inputs)
    requires Stocked(c, w, m) && pool >= LinkBound(c.R, c.L, w, m) && QuickRun(inputs, w, m)
    ensures Run(c, inputs) != Stop(OutOfLinks)
    decreases |inputs|
  {
    if inputs != [] {
      var inp, rest := inputs[0], inputs[1..];
      assert Quick(inp.issue, w, m) && QuickRun(rest, w, m);
      var d, log := Cycle(c, inp), Retired(c, inp.commitWidth, inp.port);
      CycleStocked(c, inp, n, pool, w, m);
      CycleKeeps(c, inp, n, pool);
      RunIs(c, inputs);
      hide Inv, Cycle, Retired, Shape, Floor, InOrder, CycleGood, Run, Stocked, LinkBound, Quick;
      CycleParts(d, log, c.L, n, pool);
      if d.Ok? {
        SameLists(c, inp);
        RunStocked(d.core, rest, Last(log, n), pool, w, m);
      }
    }
  }

  lemma SameLists(c: Core, inp: Inputs)
    requires Shape(c) && (forall j :: 0 <= j < |inp.insts| ==> WellFormed(inp.insts[j]))
    ensures Cycle(c, inp).Ok? ==> Cycle(c, inp).core.R == c.R && Cycle(c, inp).core.L == c.L
  {
    hide Cycle;
  }

  lemma {:induction false} NoCodes(st: seq<Station>)
    requires forall x :: 0 <= x < |st| ==> st[x].odeps == Duo([], [])
    ensures ChainCodes(st) == multiset{}
  {
    if st != [] {
      NoCodes(st[..|st| - 1]);
    }
  }

  lemma InitialStocked(R: nat, L: nat, pool: nat, w: nat, m: nat)
    requires R > 0 && L > 0
    ensures Stocked(Initial(R, L, pool), w, m)
  {
    var c := Initial(R, L, pool);
    NoCodes(c.st);
    assert forall z: nat :: !Live(c, z);
    assert Nums(c) == {};
    assert Numbered(c) && Fresh(c) && EventsFit(c, w, m);
    assert forall p :: 0 <= p < |c.st| ==> StationCodes(c.st[p]) == multiset{};
    assert Young(c) && Single(c);
  }

  /** From power-on, whatever the program and however long the run: with that many links the pool
      never runs dry. */
  lemma NeverOutOfLinks(R: nat, L: nat, pool: nat, inputs: seq<Inputs>, w: nat, m: nat)
    requires R > 0 && L > 0 && WellFormedRun(inputs) && QuickRun(inputs, w, m) && pool >= LinkBound(R, L, w, m)
    ensures Shape(Initial(R, L, pool)) && Run(Initial(R, L, pool), inputs) != Stop(OutOfLinks)
  {
    InitialInv(R, L, pool);
    InitialStocked(R, L, pool, w, m);
    InitialSize(R, L, pool);
    hide Inv, Initial, Floor, Stocked, LinkBound, QuickRun;
    RunStocked(Initial(R, L, pool), inputs, 0, pool, w, m);
  }

  lemma InitialSize(R: nat, L: nat, pool: nat)
    ensures Initial(R, L, pool).R == R && Initial(R, L, pool).L == L
  {
  }

  /** With that many links and no more LSQ entries than the table of unknown stores has, no run
      stops at all. */
  lemma NeverStops(R: nat, L: nat, pool: nat, inputs: seq<Inputs>, w: nat, m: nat)
    requires R > 0 && 0 < L <= MAX_STD_UNKNOWNS && WellFormedRun(inputs) && QuickRun(inputs, w, m)
    requires pool >= LinkBound(R, L, w, m)
    ensures Shape(Initial(R, L, pool))
    ensures var r, log := Run(Initial(R, L, pool), inputs), Log(Initial(R, L, pool), inputs);
            r.Ok? && Inv(r.core, pool) && InOrder(log, 0)
  {
    NeverOutOfLinks(R, L, pool, inputs, w, m);
    RunFromPowerOn(R, L, pool, inputs);
    hide Inv, Initial, Run, Log, InOrder, Floor;
  }

  /** The links the simulator is built with. */
  const MAX_RS_LINKS: nat := 4096

  /** The default configuration: 16 RUU and 8 LSQ entries, four operations issued in a cycle. */
  lemma DefaultNeverStops(inputs: seq<Inputs>, m: nat)
    requires WellFormedRun(inputs) && QuickRun(inputs, 4, m) && m <= 551
    ensures Shape(Initial(16, 8, MAX_RS_LINKS)) && Run(Initial(16, 8, MAX_RS_LINKS), inputs).Ok?
  {
    assert LinkBound(16, 8, 4, m) <= MAX_RS_LINKS;
    NeverStops(16, 8, MAX_RS_LINKS, inputs, 4, m);
  }
}
