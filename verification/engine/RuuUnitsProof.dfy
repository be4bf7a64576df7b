/** The engine with its functional units: every run of it is a run of the engine with some answers,
    so that it keeps the invariant, and no unit handed out is ever in use. */
module RuuUnitsProof {
  import opened Common
  import opened RuuTypes
  import opened RuuSteps
  import opened RuuInvariants
  import opened RuuLists
  import opened RuuFrame
  import opened RuuCommitStage
  import opened RuuIssueStage
  import opened RuuCycle
  import opened RuuEventBound
  import opened RuuNeverStops
  import opened RuuUnits

  /** The pool and the engine stop alike. */
  predicate Matches(r: UnitOutcome, o: Outcome) {
    match r
    case Ran(d, _) => o == Ok(d)
    case Halt(f) => o == Stop(f)
  }

  // ----- commit -----

  /** Two ways to answer for ports that agree on the live entries. */
  ghost predicate PortsAgree(c: Core, p: nat -> bool, q: nat -> bool) {
    forall z: nat :: Live(c, z) && z < |c.st| ==> p(c.st[z].num) == q(c.st[z].num)
  }

  lemma RetireLive(c: Core, z: nat)
    requires Shape(c) && c.rn > 0 && (c.st[c.rh].eaComp ==> c.ln > 0) && Live(Retire(c), z)
    ensures Live(c, z) && z < |c.st| && Retire(c).st[z].num == c.st[z].num
    ensures c.st[c.rh].eaComp ==> z != c.R + c.lh
  {
  }

  lemma GateAgrees(c: Core, p: nat -> bool, q: nat -> bool)
    requires Shape(c) && c.rn > 0
    requires c.ln > 0 ==> p(c.st[c.R + c.lh].num) == q(c.st[c.R + c.lh].num)
    ensures CommitGate(c, p) == CommitGate(c, q)
    ensures CommitGate(c, p) == Open && c.st[c.rh].eaComp ==> c.ln > 0
  {
  }

  lemma LsqHeadLive(c: Core)
    requires Shape(c) && c.ln > 0
    ensures c.R + c.lh < |c.st| && Live(c, c.R + c.lh)
  {
  }

  lemma CommitStep(c: Core, width: nat, port: nat -> bool)
    requires Shape(c) && c.rn > 0 && width > 0
    ensures CommitGate(c, port) == Stall ==> Commit(c, width, port) == Ok(c)
    ensures CommitGate(c, port).Broken? ==> Commit(c, width, port) == Stop(CommitGate(c, port).fault)
    ensures CommitGate(c, port) == Open ==>
      && (c.st[c.rh].eaComp ==> c.ln > 0)
      && Commit(c, width, port) ==
        if c.st[c.rh].odeps != Duo([], []) then Stop(RetiredHasOdeps) else Commit(Retire(c), width - 1, port)
  {
  }

  lemma RetireAgrees(c: Core, p: nat -> bool, q: nat -> bool)
    requires Shape(c) && c.rn > 0 && (c.st[c.rh].eaComp ==> c.ln > 0) && PortsAgree(c, p, q)
    ensures PortsAgree(Retire(c), p, q)
  {
    forall z: nat | Live(Retire(c), z) && z < |Retire(c).st| ensures p(Retire(c).st[z].num) == q(Retire(c).st[z].num) {
      RetireLive(c, z);
    }
    hide Retire;
  }

  lemma HeadAgrees(c: Core, p: nat -> bool, q: nat -> bool)
    requires Shape(c) && PortsAgree(c, p, q)
    ensures c.rh < |c.st| && c.R + c.lh < |c.st| && (c.ln > 0 ==> p(c.st[c.R + c.lh].num) == q(c.st[c.R + c.lh].num))
  {
    if c.ln > 0 { LsqHeadLive(c); }
  }

  lemma {:induction false} CommitAgrees(c: Core, width: nat, p: nat -> bool, q: nat -> bool)
    requires Shape(c) && PortsAgree(c, p, q)
    ensures Commit(c, width, p) == Commit(c, width, q)
    decreases width
  {
    hide *;
    if c.rn == 0 || width == 0 {
      CommitNothing(c, width, p);
      CommitNothing(c, width, q);
    } else {
      HeadAgrees(c, p, q);
      GateAgrees(c, p, q);
      CommitStep(c, width, p);
      CommitStep(c, width, q);
      if CommitGate(c, p) == Open && c.st[c.rh].odeps == Duo([], []) {
        RetireAgrees(c, p, q);
        CommitAgrees(Retire(c), width - 1, p, q);
      }
    }
  }

  lemma CommitNothing(c: Core, width: nat, p: nat -> bool)
    requires Shape(c) && (c.rn == 0 || width == 0)
    ensures Commit(c, width, p) == Ok(c)
  {
  }

  /** One answer added for the store at the head. */
  function PortAnd(rest: nat -> bool, num: nat, answer: bool): nat -> bool {
    (n: nat) => if n == num then answer else rest(n)
  }

  lemma PortAndAt(rest: nat -> bool, num: nat, answer: bool)
    ensures PortAnd(rest, num, answer)(num) == answer
  {
  }

  lemma HeadInRange(c: Core)
    requires Shape(c)
    ensures c.rh < |c.st| && c.R + c.lh < |c.st|
  {
  }

  lemma PortAndAgrees(c: Core, rest: nat -> bool, answer: bool)
    requires Shape(c) && Order(c) && c.rn > 0 && StoreAtHead(c)
    ensures PortsAgree(Retire(c), PortAnd(rest, c.st[c.R + c.lh].num, answer), rest)
  {
    var y := c.R + c.lh;
    LsqHeadLive(c);
    forall z: nat | Live(Retire(c), z) && z < |Retire(c).st|
      ensures PortAnd(rest, c.st[y].num, answer)(Retire(c).st[z].num) == rest(Retire(c).st[z].num)
    {
      RetireLive(c, z);
      hide Retire;
      assert c.st[z].num == c.st[y].num ==> z == y;
    }
  }

  lemma InvOrder(c: Core, pool: nat)
    requires Inv(c, pool)
    ensures Shape(c) && |c.st| == c.R + c.L && Order(c)
  {
  }

  lemma CommitEndsNow(c: Core, busy: seq<nat>, width: nat, u: UnitEnv, port: nat -> bool)
    requires Shape(c) && (c.rn > 0 && width > 0 ==> GateNow(c, busy, u) != Open || c.st[c.rh].odeps != Duo([], []))
    requires forall n :: port(n) == (c.rn > 0 && Port(c, busy, u).Some?)
    ensures Matches(CommitUnits(c, busy, width, u), Commit(c, width, port))
  {
    if c.rn > 0 && width > 0 {
      PoolNeverInUse(c, busy, u);
      CommitUnitsStep(c, busy, width, u);
      CommitStep(c, width, port);
      var g := Port(c, busy, u);
      GateAsks(c, _ => g.Some?, port);
      hide CommitUnits, Commit, CommitGate, Port, Retire;
    }
  }

  lemma OneRetires(c: Core, busy: seq<nat>, width: nat, u: UnitEnv, port: nat -> bool)
    requires Shape(c) && c.rn > 0 && width > 0 && GateNow(c, busy, u) == Open && c.st[c.rh].odeps == Duo([], [])
    requires StoreAtHead(c) ==> port(c.st[c.R + c.lh].num) == Port(c, busy, u).Some?
    ensures c.st[c.rh].eaComp ==> c.ln > 0
    ensures Commit(c, width, port) == Commit(Retire(c), width - 1, port)
    ensures CommitUnits(c, busy, width, u) == CommitUnits(Retire(c), Reserve(busy, Port(c, busy, u)), width - 1, u)
  {
    var g := Port(c, busy, u);
    var now: nat -> bool := _ => g.Some?;
    PoolNeverInUse(c, busy, u);
    CommitUnitsStep(c, busy, width, u);
    GateAsks(c, now, port);
    CommitStep(c, width, port);
    hide CommitUnits, Commit, CommitGate, Port, Retire;
  }

  /** One retirement with the pool, and answers for the rest, give answers for all. */
  lemma CommitJoin(c: Core, busy: seq<nat>, width: nat, u: UnitEnv, rest: nat -> bool) returns (port: nat -> bool)
    requires Shape(c) && Order(c) && c.rn > 0 && width > 0 && GateNow(c, busy, u) == Open
    requires (c.st[c.rh].eaComp ==> c.ln > 0) && c.st[c.rh].odeps == Duo([], [])
    requires Matches(CommitUnits(Retire(c), Reserve(busy, Port(c, busy, u)), width - 1, u), Commit(Retire(c), width - 1, rest))
    ensures Matches(CommitUnits(c, busy, width, u), Commit(c, width, port))
  {
    hide *;
    port := rest;
    if StoreAtHead(c) {
      var answer := Port(c, busy, u).Some?;
      HeadInRange(c);
      port := PortAnd(rest, c.st[c.R + c.lh].num, answer);
      PortAndAt(rest, c.st[c.R + c.lh].num, answer);
      PortAndAgrees(c, rest, answer);
      CommitAgrees(Retire(c), width - 1, port, rest);
    }
    OneRetires(c, busy, width, u, port);
  }

  /** Committing with the pool is committing with some answers about ports. */
  lemma {:induction false} CommitUnitsIs(c: Core, busy: seq<nat>, width: nat, u: UnitEnv, m: nat, pool: nat)
    returns (port: nat -> bool)
    requires Inv(c, pool) && Shape(c) && Floor(c, m)
    ensures Matches(CommitUnits(c, busy, width, u), Commit(c, width, port))
    decreases width
  {
    hide *;
    InvOrder(c, pool);
    if c.rn == 0 || width == 0 || GateNow(c, busy, u) != Open || c.st[c.rh].odeps != Duo([], []) {
      var answer := c.rn > 0 && Port(c, busy, u).Some?;
      port := _ => answer;
      CommitEndsNow(c, busy, width, u, port);
    } else {
      GateRetires(c, busy, u, m, pool);
      var rest := CommitUnitsIs(Retire(c), Reserve(busy, Port(c, busy, u)), width - 1, u, c.st[c.rh].num, pool);
      port := CommitJoin(c, busy, width, u, rest);
    }
  }

  lemma GateRetires(c: Core, busy: seq<nat>, u: UnitEnv, m: nat, pool: nat)
    requires Inv(c, pool) && Shape(c) && Floor(c, m) && c.rn > 0 && GateNow(c, busy, u) == Open
    ensures (c.st[c.rh].eaComp ==> c.ln > 0) && Shape(Retire(c)) && Inv(Retire(c), pool) && Floor(Retire(c), c.st[c.rh].num)
  {
    var g := Port(c, busy, u);
    RetireOne(c, _ => g.Some?, m, pool);
    hide Inv, Floor, Port, CommitGate;
  }

  /** Ports are looked at only for a completed store. */
  lemma GateAsks(c: Core, p: nat -> bool, q: nat -> bool)
    requires Shape(c) && c.rn > 0 && (StoreAtHead(c) ==> p(c.st[c.R + c.lh].num) == q(c.st[c.R + c.lh].num))
    ensures CommitGate(c, p) == CommitGate(c, q)
  {
  }

  lemma PoolNeverInUse(c: Core, busy: seq<nat>, u: UnitEnv)
    requires Shape(c) && c.rn > 0
    ensures !InUse(busy, Port(c, busy, u))
  {
  }

  lemma CommitUnitsStep(c: Core, busy: seq<nat>, width: nat, u: UnitEnv)
    requires Shape(c) && c.rn > 0 && width > 0 && !InUse(busy, Port(c, busy, u))
    ensures var g := Port(c, busy, u);
      var now: nat -> bool := _ => g.Some?;
      && (CommitGate(c, now) == Stall ==> CommitUnits(c, busy, width, u) == Ran(c, busy))
      && (CommitGate(c, now).Broken? ==> CommitUnits(c, busy, width, u) == Halt(CommitGate(c, now).fault))
      && (CommitGate(c, now) == Open ==>
            && (c.st[c.rh].eaComp ==> c.ln > 0)
            && CommitUnits(c, busy, width, u) ==
              if c.st[c.rh].odeps != Duo([], []) then Halt(RetiredHasOdeps) else CommitUnits(Retire(c), Reserve(busy, g), width - 1, u))
  {
    hide Port;
  }

  // ----- issue -----

  predicate AnswersAlike(e: IssueEnv, f: IssueEnv, num: nat) { e.unit(num) == f.unit(num) && e.opLat(num) == f.opLat(num) }

  /** Two ways to answer that agree on the operations in flight on a list. */
  ghost predicate EnvsAgree(c: Core, pend: seq<Link>, e: IssueEnv, f: IssueEnv) {
    && e.width == f.width && e.memLat == f.memLat && e.tlbLat == f.tlbLat
    && forall l :: l in pend && Valid(c, l) ==> AnswersAlike(e, f, c.st[l.rs].num)
  }

  lemma LinkAgrees(c: Core, l: Link, n: nat, e: IssueEnv, f: IssueEnv)
    requires Shape(c) && EnvsAgree(c, [l], e, f)
    ensures IssueLink(c, l, n, e) == IssueLink(c, l, n, f) && Issued(c, l, n, e) == Issued(c, l, n, f)
  {
    assert l in [l];
    hide Shape, ForwardFrom, Enqueue, QueueEvent, Requeue;
  }

  /** Issuing renames no instance. */
  ghost predicate SameInstances(c: Core, d: Core) {
    |d.st| == |c.st| && forall z: nat :: z < |c.st| ==> d.st[z].num == c.st[z].num && d.st[z].tag == c.st[z].tag
  }

  lemma EnqueueInstances(c: Core, x: nat)
    requires Shape(c) && x < |c.st|
    ensures Enqueue(c, x).Ok? ==> SameInstances(c, Enqueue(c, x).core)
  {
  }

  lemma QueueEventInstances(c: Core, x: nat, when: nat)
    requires Shape(c) && x < |c.st|
    ensures QueueEvent(c, x, when).Ok? ==> SameInstances(c, QueueEvent(c, x, when).core)
  {
  }

  lemma WithInstances(c: Core, x: nat, s: Station)
    requires Shape(c) && x < |c.st| && s.num == c.st[x].num && s.tag == c.st[x].tag
    ensures Shape(With(c, x, s)) && SameInstances(c, With(c, x, s))
  {
  }

  lemma OutcomeTrans(a: Core, b: Core, r: Outcome)
    requires SameInstances(a, b) && (r.Ok? ==> SameInstances(b, r.core))
    ensures r.Ok? ==> SameInstances(a, r.core)
  {
  }

  function LatencyOf(c: Core, x: nat, env: IssueEnv): nat
    requires Shape(c) && x < |c.st|
  {
    if c.st[x].inLsq && c.st[x].kind == Load then LoadLatency(c, x, env) else env.opLat(c.st[x].num)
  }

  lemma IssueOneWays(c: Core, x: nat, env: IssueEnv)
    requires Shape(c) && x < |c.st|
    ensures var s := c.st[x].(queued := false);
      var b := With(c, x, s.(issued := true));
      && Shape(With(c, x, s)) && Shape(b) && |With(c, x, s).st| == |b.st| == |c.st|
      && var r := IssueOne(c, x, env);
         || r.Stop? || r == Ok(With(c, x, s.(issued := true, completed := true))) || r == Enqueue(With(c, x, s), x)
         || r == QueueEvent(b, x, c.cycle + 1) || r == QueueEvent(b, x, c.cycle + LatencyOf(c, x, env))
  {
    hide Enqueue, QueueEvent, LoadLatency;
  }

  lemma IssueOneInstances(c: Core, x: nat, env: IssueEnv)
    requires Shape(c) && x < |c.st|
    ensures IssueOne(c, x, env).Ok? ==> SameInstances(c, IssueOne(c, x, env).core)
  {
    hide *;
    var s := c.st[x].(queued := false);
    var a, b, lat := With(c, x, s), With(c, x, s.(issued := true)), LatencyOf(c, x, env);
    IssueOneWays(c, x, env);
    WithInstances(c, x, s);
    WithInstances(c, x, s.(issued := true));
    WithInstances(c, x, s.(issued := true, completed := true));
    EnqueueInstances(a, x);
    OutcomeTrans(c, a, Enqueue(a, x));
    QueueEventInstances(b, x, c.cycle + 1);
    OutcomeTrans(c, b, QueueEvent(b, x, c.cycle + 1));
    QueueEventInstances(b, x, c.cycle + lat);
    OutcomeTrans(c, b, QueueEvent(b, x, c.cycle + lat));
  }

  lemma IssueLinkInstances(c: Core, l: Link, n: nat, env: IssueEnv)
    requires Shape(c)
    ensures IssueLink(c, l, n, env).Ok? ==> SameInstances(c, IssueLink(c, l, n, env).core)
  {
    if Valid(c, l) {
      var a := With(c, l.rs, c.st[l.rs].(queued := false));
      IssueOneInstances(c, l.rs, env);
      WithInstances(c, l.rs, c.st[l.rs].(queued := false));
      EnqueueInstances(a, l.rs);
      OutcomeTrans(c, a, Enqueue(a, l.rs));
      hide Shape, IssueOne, Enqueue, With;
    }
  }

  lemma AgreeAfter(c: Core, d: Core, pend: seq<Link>, e: IssueEnv, f: IssueEnv)
    requires pend != [] && EnvsAgree(c, pend, e, f) && SameInstances(c, d)
    ensures EnvsAgree(d, pend[1..], e, f) && EnvsAgree(c, [pend[0]], e, f)
  {
    forall l | l in pend[1..] && Valid(d, l) ensures AnswersAlike(e, f, d.st[l.rs].num) { assert l in pend && Valid(c, l); }
  }

  lemma IssueUnfold(c: Core, pend: seq<Link>, n: nat, env: IssueEnv)
    requires Shape(c) && pend != []
    ensures var r := IssueLink(c, pend[0], n, env);
      Issue(c, pend, n, env) == if r.Ok? then Issue(r.core, pend[1..], Issued(c, pend[0], n, env), env) else r
  {
    hide IssueLink;
  }

  lemma {:induction false} IssueAgrees(c: Core, pend: seq<Link>, n: nat, e: IssueEnv, f: IssueEnv)
    requires Shape(c) && EnvsAgree(c, pend, e, f)
    ensures Issue(c, pend, n, e) == Issue(c, pend, n, f)
    decreases |pend|
  {
    if pend != [] {
      IssueUnfold(c, pend, n, e);
      IssueUnfold(c, pend, n, f);
      IssueLinkInstances(c, pend[0], n, e);
      assert forall l :: l in [pend[0]] ==> l in pend;
      LinkAgrees(c, pend[0], n, e, f);
      hide Issue, IssueLink, EnvsAgree, Issued;
      var r := IssueLink(c, pend[0], n, e);
      if r.Ok? {
        AgreeAfter(c, r.core, pend, e, f);
        IssueAgrees(r.core, pend[1..], Issued(c, pend[0], n, e), e, f);
      }
    }
  }

  function LatencyAt(n: nat, num: nat, now: nat, rest: nat -> nat): nat { if n == num then now else rest(n) }

  /** One answer added. */
  function EnvAnd(rest: IssueEnv, num: nat, now: IssueEnv): IssueEnv {
    rest.(unit := (n: nat) => if n == num then now.unit(n) else rest.unit(n),
          opLat := (n: nat) => LatencyAt(n, num, now.opLat(n), rest.opLat))
  }

  lemma EnvAndIs(rest: IssueEnv, num: nat, now: IssueEnv, n: nat)
    ensures var e := EnvAnd(rest, num, now);
      AnswersAlike(e, if n == num then now else rest, n) && e.memLat == rest.memLat && e.tlbLat == rest.tlbLat && e.width == rest.width
  {
    var e := EnvAnd(rest, num, now);
    assert e.opLat(n) == LatencyAt(n, num, now.opLat(n), rest.opLat);
  }

  lemma EnvAndLatencies(rest: IssueEnv, num: nat, now: IssueEnv)
    requires Latencies(rest) && Latencies(now)
    ensures Latencies(EnvAnd(rest, num, now))
  {
    hide EnvAnd;
    var e := EnvAnd(rest, num, now);
    forall n: nat ensures e.opLat(n) >= 1 && e.memLat(n) >= 1 {
      EnvAndIs(rest, num, now, n);
      assert now.opLat(n) >= 1 && rest.opLat(n) >= 1 && rest.memLat(n) >= 1;
    }
  }

  /** No other link of the list is for the same instruction. */
  lemma LinkedOnce(c: Core, l: Link, rest: seq<Link>, k: Link, pool: nat)
    requires Sound(c, Draining([l] + rest), pool) && Shape(c) && |c.st| == c.R + c.L
    requires k in rest && Valid(c, l) && Valid(c, k)
    ensures c.st[k.rs].num != c.st[l.rs].num
  {
    SplitSound(c, Draining([l] + rest), pool);
    hide Sound;
    var q := [l] + rest;
    assert q[0] == l && l in q && k in q;
    assert LinkOk(c, l) && LinkOk(c, k);
    assert QueueOk(c, q, l.rs);
    if k.rs == l.rs { SomeKey(rest, k); ConsKeys(rest, l); }
  }

  lemma ConsKeys(q: seq<Link>, l: Link)
    ensures Keys([l] + q) == Keys(q) + multiset{Key(l.rs, l.tag, 0)}
  {
    assert ([l] + q)[1..] == q;
  }

  lemma EnvAndAgrees(c: Core, l: Link, rest: seq<Link>, d: Core, after: IssueEnv, now: IssueEnv, pool: nat)
    requires Sound(c, Draining([l] + rest), pool) && Shape(c) && |c.st| == c.R + c.L && Valid(c, l) && SameInstances(c, d)
    requires after.width == now.width && after.memLat == now.memLat && after.tlbLat == now.tlbLat
    ensures var e := EnvAnd(after, c.st[l.rs].num, now); EnvsAgree(c, [l], e, now) && EnvsAgree(d, rest, e, after)
  {
    var num := c.st[l.rs].num;
    var e := EnvAnd(after, num, now);
    EnvAndIs(after, num, now, num);
    hide Sound, Shape, AnswersAlike;
    forall k | k in rest && Valid(d, k) ensures AnswersAlike(e, after, d.st[k.rs].num) {
      assert Valid(c, k);
      LinkedOnce(c, l, rest, k, pool);
      EnvAndIs(after, num, now, d.st[k.rs].num);
    }
  }

  /** At most `w` operations issue in a cycle, and no unit, cache or TLB takes more than `m` cycles. */
  ghost predicate Brisk(u: UnitEnv, w: nat, m: nat) {
    && u.width <= w && m >= 1 && (forall n :: u.memLat(n) <= m && u.tlbLat(n) <= m)
    && (forall k, i :: 0 <= k < |u.table| && 0 <= i < |u.table[k]| ==> u.table[k][i].oplat <= m)
  }

  ghost predicate SameServices(e: IssueEnv, u: UnitEnv) {
    && e.width == u.width && e.memLat == u.memLat && e.tlbLat == u.tlbLat
    && forall w: nat, m: nat :: Brisk(u, w, m) ==> Quick(e, w, m)
  }

  lemma EnvAndQuick(rest: IssueEnv, num: nat, now: IssueEnv, w: nat, m: nat)
    requires Quick(rest, w, m) && Quick(now, w, m)
    ensures Quick(EnvAnd(rest, num, now), w, m)
  {
    hide EnvAnd;
    var e := EnvAnd(rest, num, now);
    EnvAndIs(rest, num, now, 0);
    forall n: nat ensures e.opLat(n) <= m && e.memLat(n) <= m && e.tlbLat(n) <= m {
      EnvAndIs(rest, num, now, n);
      assert now.opLat(n) <= m && rest.opLat(n) <= m && rest.memLat(n) <= m && rest.tlbLat(n) <= m;
    }
  }

  lemma EnvAndServices(rest: IssueEnv, num: nat, now: IssueEnv, u: UnitEnv)
    requires SameServices(rest, u) && SameServices(now, u)
    ensures SameServices(EnvAnd(rest, num, now), u)
  {
    EnvAndIs(rest, num, now, 0);
    hide EnvAnd, Brisk, Quick;
    forall w: nat, m: nat | Brisk(u, w, m) ensures Quick(EnvAnd(rest, num, now), w, m) {
      EnvAndQuick(rest, num, now, w, m);
    }
  }

  lemma StepEnvOk(c: Core, l: Link, n: nat, busy: seq<nat>, u: UnitEnv, units: nat)
    requires Usable(u, units)
    ensures var g := UnitFor(c, l, n, busy, u);
      !InUse(busy, g) && Latencies(StepEnv(u, g)) && SameServices(StepEnv(u, g), u)
  {
    var g := UnitFor(c, l, n, busy, u);
    if g.Some? {
      var num := c.st[l.rs].num;
      assert Serving(u, num) == u.table[u.unitClass(num)];
    }
  }

  lemma IssueUnitsStep(c: Core, busy: seq<nat>, pend: seq<Link>, n: nat, u: UnitEnv)
    requires Shape(c) && pend != [] && !InUse(busy, UnitFor(c, pend[0], n, busy, u))
    ensures var g := UnitFor(c, pend[0], n, busy, u);
      var r := IssueLink(c, pend[0], n, StepEnv(u, g));
      IssueUnits(c, busy, pend, n, u) ==
        if r.Ok? then IssueUnits(r.core, Reserve(busy, g), pend[1..], Issued(c, pend[0], n, StepEnv(u, g)), u) else Halt(r.fault)
  {
    hide IssueLink, UnitFor, Issued, StepEnv;
  }

  /** Answers for one link and answers for the rest, joined. */
  lemma JoinEnv(c: Core, l: Link, rest: seq<Link>, d: Core, now: IssueEnv, after: IssueEnv, u: UnitEnv, pool: nat)
    returns (env: IssueEnv)
    requires Sound(c, Draining([l] + rest), pool) && Shape(c) && |c.st| == c.R + c.L && SameInstances(c, d)
    requires SameServices(now, u) && SameServices(after, u) && Latencies(now) && Latencies(after)
    ensures SameServices(env, u) && Latencies(env) && EnvsAgree(c, [l], env, now) && EnvsAgree(d, rest, env, after)
  {
    if Valid(c, l) {
      env := EnvAnd(after, c.st[l.rs].num, now);
      EnvAndAgrees(c, l, rest, d, after, now, pool);
      EnvAndLatencies(after, c.st[l.rs].num, now);
      EnvAndServices(after, c.st[l.rs].num, now, u);
      hide Sound, Shape, Latencies, EnvsAgree;
    } else {
      env := after;
      hide Sound, Shape, Latencies;
    }
  }

  /** One link issued with the pool, and answers for the rest, give answers for all. */
  lemma IssueJoin(c: Core, l: Link, rest: seq<Link>, n: nat, now: IssueEnv, after: IssueEnv, u: UnitEnv, pool: nat)
    returns (env: IssueEnv)
    requires Sound(c, Draining([l] + rest), pool) && Shape(c) && |c.st| == c.R + c.L
    requires SameServices(now, u) && SameServices(after, u) && Latencies(now) && Latencies(after)
    ensures SameServices(env, u) && Latencies(env)
    ensures var r := IssueLink(c, l, n, now);
      Issue(c, [l] + rest, n, env) == if r.Ok? then Issue(r.core, rest, Issued(c, l, n, now), after) else r
  {
    hide *;
    var pend := [l] + rest;
    assert pend[0] == l && pend[1..] == rest;
    var r := IssueLink(c, l, n, now);
    IssueLinkInstances(c, l, n, now);
    SameItself(c);
    env := JoinEnv(c, l, rest, if r.Ok? then r.core else c, now, after, u, pool);
    IssueUnfold(c, pend, n, env);
    LinkAgrees(c, l, n, env, now);
    if r.Ok? { IssueAgrees(r.core, rest, Issued(c, l, n, now), env, after); }
  }

  lemma SameItself(c: Core)
    ensures SameInstances(c, c)
  {
  }

  /** Issuing with the pool is issuing with some answers about units and their latencies. */
  lemma {:induction false} IssueUnitsIs(c: Core, busy: seq<nat>, pend: seq<Link>, n: nat, u: UnitEnv, units: nat, pool: nat)
    returns (env: IssueEnv)
    requires Sound(c, Draining(pend), pool) && SpecVector(c, -1) && Shape(c) && |c.st| == c.R + c.L && Usable(u, units)
    ensures SameServices(env, u) && Latencies(env) && Matches(IssueUnits(c, busy, pend, n, u), Issue(c, pend, n, env))
    decreases |pend|
  {
    hide Sound, Shape, SpecVector, IssueLink, Issue, IssueUnits, Usable, Latencies, UnitFor, StepEnv;
    if pend == [] {
      env := StepEnv(u, None);
      NothingIssued(c, busy, n, u, units);
    } else {
      var l, rest := pend[0], pend[1..];
      assert pend == [l] + rest;
      var g := UnitFor(c, l, n, busy, u);
      var now := StepEnv(u, g);
      StepEnvOk(c, l, n, busy, u, units);
      IssueUnitsStep(c, busy, pend, n, u);
      IssueLinkKeeps(c, l, rest, n, now, pool);
      var r := IssueLink(c, l, n, now);
      var after := now;
      if r.Ok? {
        SoundSize(r.core, rest, pool);
        after := IssueUnitsIs(r.core, Reserve(busy, g), rest, Issued(c, l, n, now), u, units, pool);
      }
      env := IssueJoin(c, l, rest, n, now, after, u, pool);
    }
  }

  lemma SoundSize(c: Core, rest: seq<Link>, pool: nat)
    requires Sound(c, Draining(rest), pool)
    ensures Shape(c) && |c.st| == c.R + c.L && Draining(rest).d == -1
  {
  }

  lemma NothingIssued(c: Core, busy: seq<nat>, n: nat, u: UnitEnv, units: nat)
    requires Shape(c) && Usable(u, units)
    ensures var env := StepEnv(u, None);
      SameServices(env, u) && Latencies(env) && IssueUnits(c, busy, [], n, u) == Ran(c, busy) && Issue(c, [], n, env) == Ok(c)
  {
  }

  // ----- cycles and runs -----

  /** The inputs of the engine alone, with the answers of the pool. */
  function Answers(inp: UnitInputs, port: nat -> bool, env: IssueEnv): Inputs {
    Inputs(inp.commitWidth, port, env, inp.insts, inp.dispatch)
  }

  /** The state that issue starts from, after the stages before it. */
  function UpToIssue(c: Core): (r: Outcome)
    requires Shape(c)
    ensures r.Ok? ==> Shape(r.core)
  {
    var r2 := Writeback(c);
    if r2.Stop? then r2 else Refresh(r2.core, 0, [])
  }

  lemma RestParts(c: Core, busy: seq<nat>, inp: UnitInputs, port: nat -> bool, env: IssueEnv)
    requires Shape(c) && (forall j :: 0 <= j < |inp.insts| ==> WellFormed(inp.insts[j]))
    requires UpToIssue(c).Stop?
    ensures Matches(RestUnits(c, busy, inp), Rest(c, Answers(inp, port, env)))
  {
    RestIs(c, Answers(inp, port, env));
    hide Writeback, Refresh, Rest, Issue, Dispatch, IssueUnits;
  }

  lemma RestGoesOn(c: Core, busy: seq<nat>, inp: UnitInputs, port: nat -> bool, env: IssueEnv)
    requires Shape(c) && (forall j :: 0 <= j < |inp.insts| ==> WellFormed(inp.insts[j]))
    requires UpToIssue(c).Ok?
    ensures var d := UpToIssue(c).core;
      && Shape(d.(readyq := []))
      && (Matches(IssueUnits(d.(readyq := []), busy, d.readyq, 0, inp.units), Issue(d.(readyq := []), d.readyq, 0, env)) ==>
            Matches(RestUnits(c, busy, inp), Rest(c, Answers(inp, port, env))))
  {
    RestIs(c, Answers(inp, port, env));
    var d := UpToIssue(c).core;
    assert Shape(d.(readyq := []));
    hide Writeback, Refresh, Rest, Issue, Dispatch, IssueUnits, Shape;
  }

  lemma IssueStart(c: Core, m: nat, pool: nat)
    requires Inv(c, pool) && Shape(c) && |c.st| == c.R + c.L && Floor(c, m)
    ensures var r := UpToIssue(c);
      r.Ok? ==> var b := r.core.(readyq := []);
        Sound(b, Draining(r.core.readyq), pool) && SpecVector(b, -1) && Shape(b) && |b.st| == b.R + b.L
  {
    hide *;
    WritebackStage(c, m, pool);
    StageParts(Writeback(c), c.L, m, pool);
    UpToIssueIs(c);
    if Writeback(c).Ok? {
      var c2 := Writeback(c).core;
      RefreshBetween(c2, m, pool);
      StageParts(Refresh(c2, 0, []), c.L, m, pool);
      if Refresh(c2, 0, []).Ok? {
        var c3 := Refresh(c2, 0, []).core;
        BetweenShape(c3, m, pool);
        DetachKeeps(c3, pool);
        SoundSize(c3.(readyq := []), c3.readyq, pool);
      }
    }
  }

  lemma UpToIssueIs(c: Core)
    requires Shape(c)
    ensures UpToIssue(c) == if Writeback(c).Stop? then Writeback(c) else Refresh(Writeback(c).core, 0, [])
    ensures Writeback(c).Ok? ==> Shape(Writeback(c).core)
  {
    hide Writeback, Refresh;
  }

  lemma RestUnitsIs(c: Core, busy: seq<nat>, inp: UnitInputs, port: nat -> bool, units: nat, m: nat, pool: nat)
    returns (env: IssueEnv)
    requires Inv(c, pool) && Shape(c) && |c.st| == c.R + c.L && Floor(c, m) && WellFormedUnits(inp, units)
    ensures SameServices(env, inp.units) && Latencies(env) && Matches(RestUnits(c, busy, inp), Rest(c, Answers(inp, port, env)))
  {
    InputParts(inp, units);
    hide *;
    if UpToIssue(c).Stop? {
      env := StepEnv(inp.units, None);
      NothingIssued(c, busy, 0, inp.units, units);
      RestParts(c, busy, inp, port, env);
    } else {
      var d := UpToIssue(c).core;
      IssueStart(c, m, pool);
      env := IssueUnitsIs(d.(readyq := []), busy, d.readyq, 0, inp.units, units, pool);
      RestGoesOn(c, busy, inp, port, env);
    }
  }

  lemma InputParts(inp: UnitInputs, units: nat)
    requires WellFormedUnits(inp, units)
    ensures Usable(inp.units, units) && forall j :: 0 <= j < |inp.insts| ==> WellFormed(inp.insts[j])
  {
  }

  lemma AnswersOk(inp: UnitInputs, port: nat -> bool, env: IssueEnv, units: nat)
    requires WellFormedUnits(inp, units) && Latencies(env)
    ensures WellFormedInputs(Answers(inp, port, env))
  {
  }

  lemma AnswersIssue(inp: UnitInputs, port: nat -> bool, env: IssueEnv)
    ensures Answers(inp, port, env).issue == env
  {
  }

  /** A cycle with the pool is a cycle with some answers. */
  lemma CycleUnitsIs(c: Core, busy: seq<nat>, inp: UnitInputs, m: nat, pool: nat) returns (answers: Inputs)
    requires Inv(c, pool) && Shape(c) && |c.st| == c.R + c.L && Floor(c, m) && WellFormedUnits(inp, |busy|)
    ensures WellFormedInputs(answers) && SameServices(answers.issue, inp.units)
    ensures Matches(CycleUnits(c, busy, inp), Cycle(c, answers))
  {
    InputParts(inp, |busy|);
    hide *;
    NotSmaller(c, pool);
    var port := CommitUnitsIs(c, busy, inp.commitWidth, inp.units, m, pool);
    CommitKeeps(c, inp.commitWidth, port, m, pool);
    var r, log := Commit(c, inp.commitWidth, port), Retired(c, inp.commitWidth, port);
    CommitParts(r, log, m, c.cycle, pool);
    var u := CommitUnits(c, busy, inp.commitWidth, inp.units);
    MatchedRan(u, r);
    var env := RestUnitsIs(r.core, Release(u.busy), inp, port, |busy|, Last(log, m), pool);
    answers := Answers(inp, port, env);
    AnswersOk(inp, port, env, |busy|);
    AnswersIssue(inp, port, env);
    CycleJoinUnits(c, busy, inp, port, env);
  }

  lemma MatchedRan(u: UnitOutcome, r: Outcome)
    requires Matches(u, r) && r.Ok?
    ensures u.Ran? && u.core == r.core
  {
  }

  lemma CommitParts(r: Outcome, log: seq<Station>, m: nat, cycle: nat, pool: nat)
    requires CommitGood(r, log, m, cycle, pool)
    ensures r.Ok? && Inv(r.core, pool) && Shape(r.core) && |r.core.st| == r.core.R + r.core.L && Floor(r.core, Last(log, m))
  {
  }

  lemma CycleJoinUnits(c: Core, busy: seq<nat>, inp: UnitInputs, port: nat -> bool, env: IssueEnv)
    requires Shape(c) && c.ln <= c.rn && (forall j :: 0 <= j < |inp.insts| ==> WellFormed(inp.insts[j]))
    requires var u := CommitUnits(c, busy, inp.commitWidth, inp.units);
      var r := Commit(c, inp.commitWidth, port);
      u.Ran? && r == Ok(u.core) && Matches(RestUnits(u.core, Release(u.busy), inp), Rest(u.core, Answers(inp, port, env)))
    ensures Matches(CycleUnits(c, busy, inp), Cycle(c, Answers(inp, port, env)))
  {
    CycleIs(c, Answers(inp, port, env));
    hide Shape, Commit, CommitUnits, Rest, RestUnits, Cycle;
  }

  lemma RunUnitsStep(c: Core, busy: seq<nat>, inputs: seq<UnitInputs>)
    requires Shape(c) && WellFormedUnitRun(inputs, |busy|) && inputs != []
    ensures WellFormedUnits(inputs[0], |busy|) && WellFormedUnitRun(inputs[1..], |busy|)
    ensures var r := CycleUnits(c, busy, inputs[0]);
      RunUnits(c, busy, inputs) == if r.Halt? then r else RunUnits(r.core, r.busy, inputs[1..])
  {
    assert WellFormedUnits(inputs[0], |busy|);
    hide CycleUnits, Shape;
  }

  lemma RunStep(c: Core, first: Inputs, rest: seq<Inputs>)
    requires Shape(c) && WellFormedInputs(first) && WellFormedRun(rest)
    ensures WellFormedRun([first] + rest)
    ensures var r := Cycle(c, first); Run(c, [first] + rest) == if r.Stop? then r else Run(r.core, rest)
  {
    var all := [first] + rest;
    assert all[0] == first && all[1..] == rest;
    hide Cycle, Shape;
  }

  ghost predicate SameServicesRun(answers: seq<Inputs>, inputs: seq<UnitInputs>) {
    |answers| <= |inputs| && forall t :: 0 <= t < |answers| ==> SameServices(answers[t].issue, inputs[t].units)
  }

  ghost predicate BriskRun(inputs: seq<UnitInputs>, w: nat, m: nat) {
    forall t :: 0 <= t < |inputs| ==> Brisk(inputs[t].units, w, m)
  }

  lemma QuickAnswers(answers: seq<Inputs>, inputs: seq<UnitInputs>, w: nat, m: nat)
    requires SameServicesRun(answers, inputs) && BriskRun(inputs, w, m)
    ensures QuickRun(answers, w, m)
  {
    forall t | 0 <= t < |answers| ensures Quick(answers[t].issue, w, m) {
      assert SameServices(answers[t].issue, inputs[t].units) && Brisk(inputs[t].units, w, m);
    }
  }

  lemma MoreServices(first: Inputs, rest: seq<Inputs>, inputs: seq<UnitInputs>)
    requires inputs != [] && SameServices(first.issue, inputs[0].units) && SameServicesRun(rest, inputs[1..])
    ensures SameServicesRun([first] + rest, inputs)
  {
    var all := [first] + rest;
    hide SameServices;
    forall t | 0 <= t < |all| ensures SameServices(all[t].issue, inputs[t].units) {
      assert t > 0 ==> all[t] == rest[t - 1] && inputs[t] == inputs[1..][t - 1];
    }
  }

  /** A run with the pool is a run with some answers. */
  lemma {:induction false} RunUnitsIs(c: Core, busy: seq<nat>, inputs: seq<UnitInputs>, m: nat, pool: nat)
    returns (answers: seq<Inputs>)
    requires Inv(c, pool) && Shape(c) && |c.st| == c.R + c.L && Floor(c, m) && WellFormedUnitRun(inputs, |busy|)
    ensures WellFormedRun(answers) && Matches(RunUnits(c, busy, inputs), Run(c, answers)) && SameServicesRun(answers, inputs)
    decreases |inputs|
  {
    answers := [];
    if inputs != [] {
      RunUnitsStep(c, busy, inputs);
      var first := CycleUnitsIs(c, busy, inputs[0], m, pool);
      CycleKeeps(c, first, m, pool);
      var d, log := Cycle(c, first), Retired(c, first.commitWidth, first.port);
      var u := CycleUnits(c, busy, inputs[0]);
      hide Inv, Shape, Floor, Cycle, CycleUnits, RunUnits, Run, Retired, CycleGood, WellFormedUnits, WellFormedInputs, SameServices;
      CycleParts(d, log, c.L, m, pool);
      var rest: seq<Inputs> := [];
      if u.Ran? { rest := RunUnitsIs(u.core, u.busy, inputs[1..], Last(log, m), pool); }
      RunStep(c, first, rest);
      MoreServices(first, rest, inputs);
      answers := [first] + rest;
    }
  }

  /** From power-on, with any functional units: the run is one of the engine under some answers about
      units, ports and latencies, so that all that holds of these holds of it; no unit handed out
      is ever in use, and the only stops are the two capacities. */
  lemma UnitsRefine(R: nat, L: nat, pool: nat, busy: seq<nat>, inputs: seq<UnitInputs>) returns (answers: seq<Inputs>)
    requires R > 0 && L > 0 && WellFormedUnitRun(inputs, |busy|)
    ensures var c := Initial(R, L, pool);
      && Shape(c) && WellFormedRun(answers) && SameServicesRun(answers, inputs)
      && match RunUnits(c, busy, inputs)
         case Ran(d, _) => Run(c, answers) == Ok(d) && Inv(d, pool)
         case Halt(f) => Run(c, answers) == Stop(f) && IsCapacityFault(f, L)
  {
    InitialInv(R, L, pool);
    hide Inv, Shape, Initial, Floor, Run, RunUnits, WellFormedUnits, WellFormedInputs, CycleGood, SameServices;
    answers := RunUnitsIs(Initial(R, L, pool), busy, inputs, 0, pool);
    RunFromPowerOn(R, L, pool, answers);
    var c := Initial(R, L, pool);
    CycleParts(Run(c, answers), Log(c, answers), L, 0, pool);
  }

  /** With enough links, and no more LSQ entries than the table of unknown stores has, the machine
      with its functional units never stops. */
  lemma UnitsNeverStop(R: nat, L: nat, pool: nat, busy: seq<nat>, inputs: seq<UnitInputs>, w: nat, m: nat)
    requires R > 0 && 0 < L <= MAX_STD_UNKNOWNS && WellFormedUnitRun(inputs, |busy|)
    requires BriskRun(inputs, w, m) && pool >= LinkBound(R, L, w, m)
    ensures Shape(Initial(R, L, pool)) && RunUnits(Initial(R, L, pool), busy, inputs).Ran?
  {
    hide *;
    var answers := UnitsRefine(R, L, pool, busy, inputs);
    QuickAnswers(answers, inputs, w, m);
    NeverStops(R, L, pool, answers, w, m);
  }
}
