/** The issue stage as a whole. */
module RuuIssueStage {
  import opened RuuTypes
  import opened RuuSteps
  import opened RuuInvariants
  import opened RuuLists
  import opened RuuFrame
  import opened RuuQueueProof
  import opened RuuIssueProof

  ghost predicate GoodOutcome(r: Outcome, f: Flight, pool: nat) {
    match r
    case Ok(b) => Sound(b, f, pool) && SpecVector(b, f.d)
    case Stop(why) => why == OutOfLinks
  }

  function Draining(pend: seq<Link>): Flight { IDLE.(pend := pend) }

  ghost predicate Latencies(env: IssueEnv) {
    forall n :: env.opLat(n) >= 1 && env.memLat(n) >= 1
  }

  function Latency(c: Core, x: nat, env: IssueEnv): nat
    requires Shape(c) && x < |c.st|
  {
    var s := c.st[x];
    if !s.usesUnit then 1 else if s.inLsq && s.kind == Load then LoadLatency(c, x, env) else env.opLat(s.num)
  }

  /** `IssueOne` from a station in order, case by case. */
  lemma IssueOneCases(c: Core, x: nat, env: IssueEnv)
    requires Shape(c) && x < |c.st| && Latencies(env)
    requires var s := c.st[x]; s.AllReady() && s.queued && !s.issued && !s.completed
    requires var s := c.st[x]; s.inLsq && s.kind == Store ==> s.onames == Duo(NA, NA) && !s.recoverInst
    ensures var s, b := c.st[x], Unqueue(c, x);
            && Shape(b) && Latency(c, x, env) >= 1 && b.cycle == c.cycle
            && b.st[x] == s.(queued := false)
            && IssueOne(c, x, env) == (
                 if s.inLsq && s.kind == Store then Ok(StoreDone(b, x))
                 else if s.usesUnit && !env.unit(s.num) then Enqueue(b, x)
                 else QueueEvent(With(b, x, b.st[x].(issued := true)), x, c.cycle + Latency(c, x, env)))
  {
  }

  lemma IssueOneKeeps(c: Core, l: Link, rest: seq<Link>, env: IssueEnv, pool: nat)
    requires Sound(c, Draining([l] + rest), pool) && SpecVector(c, -1) && Valid(c, l) && Latencies(env)
    ensures GoodOutcome(IssueOne(c, l.rs, env), Holding(Draining(rest), l.id), pool)
  {
    hide *;
    var x, f := l.rs, Draining(rest);
    DrainingShape(c, l, rest, pool);
    var b, g := Unqueue(c, x), Holding(f.(w := f.w + {x}), l.id);
    DrainingFlight(f, rest, x, l.id);
    TakenStation(c, f, l, pool);
    IssueOneCases(c, x, env);
    UnqueueKeeps(c, f, l, pool);
    var s := c.st[x];
    if s.inLsq && s.kind == Store {
      FinishStore(b, x, g, pool);
    } else if s.usesUnit && !env.unit(s.num) {
      FinishEnqueue(b, x, g, pool);
    } else {
      FinishSchedule(b, x, c.cycle + Latency(c, x, env), g, pool);
    }
  }

  lemma DrainingShape(c: Core, l: Link, rest: seq<Link>, pool: nat)
    requires Sound(c, Draining([l] + rest), pool)
    ensures Shape(c) && |c.st| == c.R + c.L && |c.cv| == MD_TOTAL_REGS && |c.scv| == MD_TOTAL_REGS
    ensures Sound(c, Draining(rest).(pend := [l] + Draining(rest).pend), pool) && Draining(rest).d == -1 && Draining(rest).w == {}
    ensures Valid(c, l) ==> l.rs < |c.st|
  {
    assert Draining(rest).(pend := [l] + rest) == Draining([l] + rest);
  }

  lemma DrainingFlight(f: Flight, rest: seq<Link>, x: nat, id: nat)
    requires f == Draining(rest)
    ensures var g := Holding(f.(w := f.w + {x}), id);
            g.d == -1 && g.(w := g.w - {x}) == Holding(f, id)
  {
    assert f.w + {x} - {x} == f.w;
  }

  lemma FinishStore(b: Core, x: nat, g: Flight, pool: nat)
    requires Sound(b, g, pool) && g.d == -1 && SpecVector(b, -1) && MayQueue(b, x) && !b.st[x].completed
    requires b.st[x].inLsq && b.st[x].kind == Store && b.st[x].onames == Duo(NA, NA) && !b.st[x].recoverInst
    ensures x < |b.st| && GoodOutcome(Ok(StoreDone(b, x)), g.(w := g.w - {x}), pool)
  {
    StoreDoneKeeps(b, x, g, pool);
  }

  lemma FinishEnqueue(b: Core, x: nat, g: Flight, pool: nat)
    requires Sound(b, g, pool) && g.d == -1 && SpecVector(b, -1) && MayQueue(b, x)
    ensures Shape(b) && x < |b.st| && GoodOutcome(Enqueue(b, x), g.(w := g.w - {x}), pool)
  {
    EnqueueKeeps(b, x, g, pool);
  }

  lemma FinishSchedule(b: Core, x: nat, when: nat, g: Flight, pool: nat)
    requires Sound(b, g, pool) && g.d == -1 && SpecVector(b, -1) && MayQueue(b, x) && !b.st[x].completed && when > b.cycle
    ensures Shape(b) && x < |b.st| && Shape(With(b, x, b.st[x].(issued := true)))
    ensures GoodOutcome(QueueEvent(With(b, x, b.st[x].(issued := true)), x, when), g.(w := g.w - {x}), pool)
  {
    if b.free != [] {
      ScheduleResult(b, x, when);
      ScheduledKeeps(b, x, when, QueueEvent(With(b, x, b.st[x].(issued := true)), x, when).core, g, pool);
    }
  }

  lemma IssueLinkKeeps(c: Core, l: Link, rest: seq<Link>, n: nat, env: IssueEnv, pool: nat)
    requires Sound(c, Draining([l] + rest), pool) && SpecVector(c, -1) && Latencies(env)
    ensures GoodOutcome(IssueLink(c, l, n, env), Draining(rest), pool)
  {
    var f := Draining(rest);
    if !Valid(c, l) {
      DropKeeps(c, f, l, pool);
      FreeKeeps(c, f, l.id, pool);
      assert IssueLink(c, l, n, env) == Ok(Free(c, l.id));
    } else {
      var r := if n < env.width then IssueOne(c, l.rs, env) else Requeue(c, l.rs);
      if n < env.width {
        IssueOneKeeps(c, l, rest, env, pool);
      } else {
        RequeueKeeps(c, l, rest, pool);
      }
      if r.Ok? {
        FreeKeeps(r.core, f, l.id, pool);
        assert IssueLink(c, l, n, env) == Ok(Free(r.core, l.id));
      }
    }
  }

  lemma RequeueIs(c: Core, x: nat)
    requires Shape(c) && x < |c.st|
    ensures Shape(Unqueue(c, x)) && Requeue(c, x) == Enqueue(Unqueue(c, x), x)
  {
  }

  lemma RequeueKeeps(c: Core, l: Link, rest: seq<Link>, pool: nat)
    requires Sound(c, Draining([l] + rest), pool) && SpecVector(c, -1) && Valid(c, l)
    ensures GoodOutcome(Requeue(c, l.rs), Holding(Draining(rest), l.id), pool)
  {
    hide *;
    var x, f := l.rs, Draining(rest);
    DrainingShape(c, l, rest, pool);
    var b, g := Unqueue(c, x), Holding(f.(w := f.w + {x}), l.id);
    DrainingFlight(f, rest, x, l.id);
    UnqueueKeeps(c, f, l, pool);
    RequeueIs(c, x);
    FinishEnqueue(b, x, g, pool);
  }

  lemma {:induction false} IssueKeeps(c: Core, pend: seq<Link>, n: nat, env: IssueEnv, pool: nat)
    requires Sound(c, Draining(pend), pool) && SpecVector(c, -1) && Latencies(env)
    ensures GoodOutcome(Issue(c, pend, n, env), IDLE, pool)
    decreases |pend|
  {
    if pend != [] {
      var l := pend[0];
      assert pend == [l] + pend[1..];
      IssueLinkKeeps(c, l, pend[1..], n, env, pool);
      var r := IssueLink(c, l, n, env);
      if r.Ok? {
        IssueKeeps(r.core, pend[1..], if n < env.width && Valid(c, l) && GetsUnit(c.st[l.rs], env) then n + 1 else n, env, pool);
      }
    }
  }

  lemma DetachKeeps(c: Core, pool: nat)
    requires Inv(c, pool)
    ensures var b := c.(readyq := []); Sound(b, Draining(c.readyq), pool) && SpecVector(b, -1)
  {
    var b := c.(readyq := []);
    SplitSound(c, IDLE, pool);
    hide *;
    DetachFrame(c);
    FrameSkeleton(c, b);
    FrameSpeculation(c, b, -1, -1);
    FrameVectors(c, b, -1, -1);
    FrameMemory(c, b);
    FrameOperands(c, b, -1, -1);
    FrameChains(c, b, -1, -1);
    DetachQueues(c);
    DetachLists(c, pool);
    DetachJoin(b, c.readyq, pool);
  }

  lemma DetachJoin(c: Core, pend: seq<Link>, pool: nat)
    requires Shape(c)
    requires Order(c) && Pairs(c) && Speculation(c, -1) && LinksOk(c, pend) && Status(c, {}) && Queues(c, pend)
    requires BaseVector(c, -1) && Operands(c, -1) && Chains(c, -1)
    requires MemoryOrder(c) && Timely(c) && Conserved(c, pend, multiset{}, pool)
    ensures Sound(c, Draining(pend), pool)
  {
    JoinSound(c, Draining(pend), pool);
  }

  lemma DetachFrame(c: Core)
    requires Shape(c) && Timely(c)
    ensures var b := c.(readyq := []);
            && Shape(b) && Frame(c, b) && Completes(c, b, -1) && Timely(b)
            && SameOperands(c, b) && ReadyGrows(c, b) && SafeStarts(c, b) && SameBranches(c, b, -1, -1)
  {
  }

  lemma DetachQueues(c: Core)
    requires Shape(c) && Queues(c, []) && Status(c, {})
    ensures var b := c.(readyq := []); Queues(b, c.readyq) && Status(b, {})
  {
    var b := c.(readyq := []);
    forall z: nat | Live(b, z) ensures QueueOk(b, c.readyq, z) && StatusOk(b, b.st[z], z, {}) {
      assert Live(c, z) && QueueOk(c, [], z) && StatusOk(c, c.st[z], z, {});
    }
  }

  lemma DetachLists(c: Core, pool: nat)
    requires Shape(c) && LinksOk(c, []) && Conserved(c, [], multiset{}, pool)
    ensures var b := c.(readyq := []); LinksOk(b, c.readyq) && Conserved(b, c.readyq, multiset{}, pool)
  {
    var b := c.(readyq := []);
    FrameLive(c, b);
    FrameLinks(c, b, [], c.readyq);
    assert AllIds(b, c.readyq) == AllIds(c, []);
  }

  /** From the ready queue of an engine in order, the issue stage reaches no panic. */
  lemma IssueStage(c: Core, env: IssueEnv, pool: nat)
    requires Inv(c, pool) && Latencies(env)
    ensures GoodOutcome(Issue(c.(readyq := []), c.readyq, 0, env), IDLE, pool)
  {
    DetachKeeps(c, pool);
    IssueKeeps(c.(readyq := []), c.readyq, 0, env, pool);
  }
}
