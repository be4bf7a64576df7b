/** How full the event queue can be: no cycle schedules more operations than it issues, and
    none farther ahead than the largest latency. */
module RuuEventBound {
  import opened RuuTypes
  import opened RuuSteps
  import opened RuuTame

  /** The events at time `t` or later. */
  function Due(q: seq<Link>, t: nat): nat {
    if q == [] then 0 else (if q[0].x >= t then 1 else 0) + Due(q[1..], t)
  }

  /** At most `w` operations issue in a cycle, none with a latency above `m`. */
  ghost predicate Quick(env: IssueEnv, w: nat, m: nat) {
    env.width <= w && m >= 1 && forall n :: env.opLat(n) <= m && env.memLat(n) <= m && env.tlbLat(n) <= m
  }

  /** How many operations issue in `k` cycles. */
  function Slots(w: nat, k: nat): nat { w * k }

  lemma OneMore(w: nat, k: nat)
    ensures Slots(w, 0) == 0 && Slots(w, k + 1) == Slots(w, k) + w
  {
  }

  /** What was scheduled in the last `m` cycles, `w` a cycle. */
  ghost predicate EventsFit(c: Core, w: nat, m: nat) {
    forall t: nat :: c.cycle <= t <= c.cycle + m ==> Due(c.events, t) <= Slots(w, c.cycle + m - t)
  }

  lemma {:induction false} AllDue(q: seq<Link>, t: nat)
    requires forall l :: l in q ==> l.x >= t
    ensures Due(q, t) == |q|
  {
    if q != [] {
      assert q[0] in q;
      AllDue(q[1..], t);
    }
  }

  lemma {:induction false} InsertDue(q: seq<Link>, n: Link, t: nat)
    ensures Due(InsertByX(q, n), t) == Due(q, t) + if n.x >= t then 1 else 0
  {
    if q != [] && q[0].x < n.x {
      InsertDue(q[1..], n, t);
      assert InsertByX(q, n)[1..] == InsertByX(q[1..], n);
    } else {
      assert ([n] + q)[1..] == q;
    }
  }

  lemma {:induction false} WritebackDue(c: Core, t: nat)
    requires Shape(c)
    ensures Writeback(c).Ok? ==> Due(Writeback(c).core.events, t) <= Due(c.events, t)
    decreases |c.events|
  {
    if c.events != [] && c.events[0].x <= c.cycle {
      var l := c.events[0];
      var c1 := c.(events := c.events[1..], free := [l.id] + c.free);
      var c2 := if Valid(c, l) then Complete(c1, l.rs) else Ok(c1);
      hide Complete;
      if c2.Ok? {
        WritebackDue(c2.core, t);
        assert Writeback(c) == Writeback(c2.core);
      }
    }
  }

  // ----- issue -----

  /** One event more at most, `lat` cycles ahead. */
  ghost predicate AddsEvent(c: Core, r: Outcome, lat: nat, t: nat) {
    r.Ok? ==> Due(r.core.events, t) <= Due(c.events, t) + if t <= c.cycle + lat then 1 else 0
  }

  lemma QueueEventDue(c: Core, x: nat, when: nat, t: nat)
    requires Shape(c) && x < |c.st|
    ensures var r := QueueEvent(c, x, when);
            r.Ok? ==> Due(r.core.events, t) == Due(c.events, t) + if when >= t then 1 else 0
  {
    if QueueEvent(c, x, when).Ok? {
      InsertDue(c.events, NewLink(c, x, when), t);
      hide InsertByX;
    }
  }

  lemma LatencyBound(c: Core, x: nat, env: IssueEnv, w: nat, m: nat)
    requires Shape(c) && x < |c.st| && Quick(env, w, m)
    ensures LoadLatency(c, x, env) <= m && env.opLat(c.st[x].num) <= m
  {
    hide ForwardFrom;
  }

  lemma IssueOneDue(c: Core, x: nat, env: IssueEnv, w: nat, m: nat, t: nat)
    requires Shape(c) && x < |c.st| && Quick(env, w, m)
    ensures AddsEvent(c, IssueOne(c, x, env), m, t)
    ensures !GetsUnit(c.st[x], env) && IssueOne(c, x, env).Ok? ==> IssueOne(c, x, env).core.events == c.events
  {
    if IssueOne(c, x, env).Ok? {
      IssueOneIs(c, x, env);
      LatencyBound(c, x, env, w, m);
      var s := c.st[x];
      var s1 := s.(queued := false);
      var lat := if !s.usesUnit then 1 else if s.inLsq && s.kind == Load then LoadLatency(c, x, env) else env.opLat(s.num);
      hide IssueOne, LoadLatency, QueueEvent, Quick, Due;
      QueueEventDue(With(c, x, s1.(issued := true)), x, c.cycle + lat, t);
    }
  }

  lemma IssueLinkDue(c: Core, l: Link, n: nat, env: IssueEnv, w: nat, m: nat, t: nat)
    requires Shape(c) && Quick(env, w, m)
    ensures AddsEvent(c, IssueLink(c, l, n, env), m, t)
    ensures !(n < env.width && Valid(c, l) && GetsUnit(c.st[l.rs], env)) && IssueLink(c, l, n, env).Ok? ==>
              IssueLink(c, l, n, env).core.events == c.events
  {
    if Valid(c, l) && n < env.width {
      IssueOneDue(c, l.rs, env, w, m, t);
    }
    hide IssueOne, Quick, Due, GetsUnit;
  }

  lemma {:induction false} IssueDue(c: Core, pend: seq<Link>, n: nat, env: IssueEnv, w: nat, m: nat, t: nat)
    requires Shape(c) && Quick(env, w, m) && n <= env.width
    ensures var r := Issue(c, pend, n, env);
            r.Ok? ==> Due(r.core.events, t) <= Due(c.events, t) + if t <= c.cycle + m then env.width - n else 0
    decreases |pend|
  {
    if pend != [] {
      var l := pend[0];
      IssueLinkDue(c, l, n, env, w, m, t);
      IssueLinkTame(c, l, n, env);
      var issues := n < env.width && Valid(c, l) && GetsUnit(c.st[l.rs], env);
      var a := IssueLink(c, l, n, env);
      hide IssueLink, Quick, Due, GetsUnit;
      if a.Ok? {
        IssueDue(a.core, pend[1..], if issues then n + 1 else n, env, w, m, t);
      }
    }
  }

  /** The next cycle begins with what fits, if writeback and issue ran from what fitted. */
  lemma NextFits(c: Core, b: Core, w: nat, m: nat)
    requires EventsFit(c, w, m) && b.cycle == c.cycle + 1
    requires forall t: nat :: Due(b.events, t) <= Due(c.events, t) + if t <= c.cycle + m then w else 0
    ensures EventsFit(b, w, m)
  {
    forall t: nat | b.cycle <= t <= b.cycle + m ensures Due(b.events, t) <= Slots(w, b.cycle + m - t) {
      assert Due(b.events, t) <= Due(c.events, t) + if t <= c.cycle + m then w else 0;
      hide Slots;
      if t <= c.cycle + m {
        assert Due(c.events, t) <= Slots(w, c.cycle + m - t);
        OneMore(w, c.cycle + m - t);
      } else {
        LaterDue(c.events, c.cycle + m, t);
        assert Due(c.events, c.cycle + m) <= Slots(w, 0);
        OneMore(w, 0);
      }
    }
  }

  lemma {:induction false} LaterDue(q: seq<Link>, s: nat, t: nat)
    requires s <= t
    ensures Due(q, t) <= Due(q, s)
  {
    if q != [] {
      LaterDue(q[1..], s, t);
    }
  }
}
