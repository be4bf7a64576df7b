/** Steps that leave the program in the machine as it is: the same entries under the same
    sequence numbers and tags, and no ready link goes stale. */
module RuuStill {
  import opened RuuTypes
  import opened RuuSteps
  import opened RuuTame

  /** Every link of the ready queue is for an instance in flight. */
  ghost predicate Fresh(c: Core) {
    forall l :: l in c.readyq ==> Valid(c, l)
  }

  ghost predicate Still(c: Core, b: Core) {
    && SameSize(c, b) && b.rh == c.rh && b.rn == c.rn && b.lh == c.lh && b.ln == c.ln
    && b.instSeq == c.instSeq && b.specMode == c.specMode && (Fresh(c) ==> Fresh(b))
    && forall z: nat :: z < |c.st| ==>
         b.st[z].num == c.st[z].num && b.st[z].tag == c.st[z].tag && b.st[z].specMode == c.st[z].specMode
  }

  ghost predicate StillOutcome(c: Core, r: Outcome) {
    r.Ok? ==> Still(c, r.core)
  }

  lemma StillTrans(a: Core, b: Core, c: Core)
    requires Still(a, b) && Still(b, c)
    ensures Still(a, c)
  {
    hide Fresh;
  }

  lemma StillThen(a: Core, b: Core, r: Outcome)
    requires Still(a, b) && StillOutcome(b, r)
    ensures StillOutcome(a, r)
  {
    if r.Ok? {
      StillTrans(a, b, r.core);
    }
    hide Still;
  }

  lemma StillSame(c: Core, free: seq<nat>)
    ensures Still(c, c) && Still(c, c.(free := free))
  {
  }

  lemma SameStill(c: Core, x: nat, s: Station)
    requires x < |c.st| && s.num == c.st[x].num && s.tag == c.st[x].tag && s.specMode == c.st[x].specMode
    ensures Still(c, With(c, x, s))
  {
  }

  lemma EnqueueStill(c: Core, x: nat)
    requires Shape(c) && x < |c.st|
    ensures StillOutcome(c, Enqueue(c, x))
  {
    if Enqueue(c, x).Ok? {
      var n := NewLink(c, x, c.st[x].num);
      InsertMembers(c.readyq, n);
      var b := Enqueue(c, x).core;
      assert forall l :: l in b.readyq ==> l == n || l in c.readyq;
      hide InsertByX;
    }
  }

  lemma QueueEventStill(c: Core, x: nat, when: nat)
    requires Shape(c) && x < |c.st|
    ensures StillOutcome(c, QueueEvent(c, x, when))
  {
  }

  // ----- wake-ups -----

  lemma SatisfyStill(c: Core, x: nat, k: nat)
    requires Shape(c) && x < |c.st|
    ensures StillOutcome(c, Satisfy(c, x, k))
  {
    var s := c.st[x].(ready := c.st[x].ready.Set(k, true));
    SameStill(c, x, s);
    EnqueueStill(With(c, x, s), x);
    StillThen(c, With(c, x, s), Enqueue(With(c, x, s), x));
    hide Enqueue, Still;
  }

  lemma WakeFirstStill(c: Core, r: nat, o: nat)
    requires Shape(c) && r < |c.st| && o < 2 && c.st[r].odeps.Get(o) != []
    ensures StillOutcome(c, WakeFirst(c, r, o))
  {
    var l := c.st[r].odeps.Get(o)[0];
    var a := if Valid(c, l) then Satisfy(c, l.rs, l.x) else Ok(c);
    StillSame(c, []);
    if Valid(c, l) {
      SatisfyStill(c, l.rs, l.x);
    }
    if a.Ok? {
      var s := a.core.st[r];
      SameStill(a.core, r, s.(odeps := s.odeps.Set(o, s.odeps.Get(o)[1..])));
      StillSame(With(a.core, r, s.(odeps := s.odeps.Set(o, s.odeps.Get(o)[1..]))), [l.id] + a.core.free);
    }
    hide Satisfy, Still;
    if WakeFirst(c, r, o).Ok? {
      var s := a.core.st[r];
      var b := With(a.core, r, s.(odeps := s.odeps.Set(o, s.odeps.Get(o)[1..])));
      StillTrans(c, a.core, b);
      StillTrans(c, b, WakeFirst(c, r, o).core);
    }
  }

  lemma {:induction false} WakeAllStill(c: Core, r: nat, o: nat)
    requires Shape(c) && r < |c.st| && o < 2
    ensures StillOutcome(c, WakeAll(c, r, o))
    decreases |c.st[r].odeps.Get(o)|
  {
    StillSame(c, []);
    if c.st[r].odeps.Get(o) != [] {
      WakeFirstStill(c, r, o);
      var w := WakeFirst(c, r, o);
      hide WakeFirst, Still;
      if w.Ok? {
        WakeAllStill(w.core, r, o);
        StillThen(c, w.core, WakeAll(c, r, o));
      }
    }
  }

  lemma BroadcastStill(c: Core, r: nat, o: nat)
    requires Shape(c) && r < |c.st| && o < 2
    ensures StillOutcome(c, Broadcast(c, r, o))
  {
    StillSame(c, []);
    if c.st[r].onames.Get(o) != NA {
      var a := ClearCreator(c, r, o);
      assert Still(c, a);
      WakeAllStill(a, r, o);
      hide WakeAll, Still;
      StillThen(c, a, Broadcast(c, r, o));
    }
  }

  // ----- memory dependences -----

  lemma {:induction false} RefreshStill(c: Core, i: nat, unknown: seq<nat>)
    requires Shape(c)
    ensures StillOutcome(c, Refresh(c, i, unknown))
    decreases c.ln - i
  {
    hide Refresh, Enqueue, At, Still;
    StillSame(c, []);
    if i >= c.ln {
      RefreshEnds(c, i, unknown);
    } else {
      var y := c.R + At(c.lh, c.L, i);
      var u, e := RefreshNext(c, i, unknown);
      EnqueueStill(c, y);
      EnqueueLsq(c, y);
      if e.Ok? && Shape(e.core) {
        RefreshStill(e.core, i + 1, u);
        StillThen(c, e.core, Refresh(e.core, i + 1, u));
      }
    }
  }

  // ----- issue -----

  lemma ProgressStill(c: Core, x: nat, s: Station, when: nat)
    requires Shape(c) && x < |c.st| && s == c.st[x].(queued := s.queued, issued := s.issued, completed := s.completed)
    ensures Shape(With(c, x, s)) && x < |With(c, x, s).st|
    ensures StillOutcome(c, QueueEvent(With(c, x, s), x, when)) && StillOutcome(c, Enqueue(With(c, x, s), x))
    ensures StillOutcome(c, Ok(With(c, x, s)))
  {
    SameStill(c, x, s);
    QueueEventStill(With(c, x, s), x, when);
    EnqueueStill(With(c, x, s), x);
    hide Still, QueueEvent, Enqueue;
    StillThen(c, With(c, x, s), QueueEvent(With(c, x, s), x, when));
    StillThen(c, With(c, x, s), Enqueue(With(c, x, s), x));
  }

  lemma StoppedStill(c: Core, r: Outcome)
    ensures r.Stop? ==> StillOutcome(c, r)
  {
  }

  lemma IssueOneStill(c: Core, x: nat, env: IssueEnv)
    requires Shape(c) && x < |c.st|
    ensures StillOutcome(c, IssueOne(c, x, env))
  {
    hide *;
    StoppedStill(c, IssueOne(c, x, env));
    if IssueOne(c, x, env).Ok? {
      IssueOneIs(c, x, env);
      var s := c.st[x];
      var s1 := s.(queued := false);
      var lat := if s.inLsq && s.kind == Load then LoadLatency(c, x, env) else env.opLat(s.num);
      if s.inLsq && s.kind == Store {
        ProgressStill(c, x, s1.(issued := true, completed := true), 0);
      } else if s.usesUnit && !env.unit(s.num) {
        ProgressStill(c, x, s1, 0);
      } else {
        ProgressStill(c, x, s1.(issued := true), c.cycle + if s.usesUnit then lat else 1);
      }
    }
  }

  lemma IssueLinkStill(c: Core, l: Link, n: nat, env: IssueEnv)
    requires Shape(c)
    ensures StillOutcome(c, IssueLink(c, l, n, env))
  {
    if Valid(c, l) {
      IssueOneStill(c, l.rs, env);
      ProgressStill(c, l.rs, c.st[l.rs].(queued := false), 0);
    }
    StillSame(c, []);
    hide IssueOne, Enqueue, Still;
    var r := if !Valid(c, l) then Ok(c) else if n < env.width then IssueOne(c, l.rs, env) else Requeue(c, l.rs);
    if r.Ok? {
      StillSame(r.core, [l.id] + r.core.free);
      StillTrans(c, r.core, r.core.(free := [l.id] + r.core.free));
    }
  }

  lemma {:induction false} IssueStill(c: Core, pend: seq<Link>, n: nat, env: IssueEnv)
    requires Shape(c)
    ensures StillOutcome(c, Issue(c, pend, n, env))
    decreases |pend|
  {
    StillSame(c, []);
    if pend != [] {
      var l := pend[0];
      IssueLinkStill(c, l, n, env);
      hide IssueLink, Still;
      var a := IssueLink(c, l, n, env);
      if a.Ok? {
        IssueStill(a.core, pend[1..], if n < env.width && Valid(c, l) && GetsUnit(c.st[l.rs], env) then n + 1 else n, env);
        StillThen(c, a.core, Issue(c, pend, n, env));
      }
    }
  }

  // ----- dispatch -----

  lemma LinkStill(c: Core, x: nat, k: nat, name: Reg)
    requires Shape(c) && x < |c.st|
    ensures StillOutcome(c, LinkIdep(c, x, k, name))
  {
  }

  lemma ThreeStill(c: Core, x: nat, n0: Reg, n1: Reg, n2: Reg)
    requires Shape(c) && x < |c.st|
    ensures StillOutcome(c, LinkThree(c, x, n0, n1, n2))
  {
    LinkStill(c, x, 0, n0);
    var c0 := LinkIdep(c, x, 0, n0);
    hide LinkIdep, Still;
    if c0.Ok? {
      LinkStill(c0.core, x, 1, n1);
      var c1 := LinkIdep(c0.core, x, 1, n1);
      if c1.Ok? {
        LinkStill(c1.core, x, 2, n2);
        StillThen(c0.core, c1.core, LinkIdep(c1.core, x, 2, n2));
        StillThen(c, c0.core, LinkIdep(c1.core, x, 2, n2));
      }
    }
  }

  lemma InstallStill(c: Core, x: nat, o: nat, name: Reg)
    requires Shape(c) && x < |c.st| && o < 2
    ensures Still(c, InstallOdep(c, x, o, name))
  {
  }

  lemma TwoStill(c: Core, x: nat, n0: Reg, n1: Reg)
    requires Shape(c) && x < |c.st|
    ensures Still(c, InstallTwo(c, x, n0, n1))
  {
    InstallStill(c, x, 0, n0);
    InstallStill(InstallOdep(c, x, 0, n0), x, 1, n1);
    hide InstallOdep, Still;
    StillTrans(c, InstallOdep(c, x, 0, n0), InstallTwo(c, x, n0, n1));
  }

  lemma ReadyStill(c: Core, x: nat)
    requires Shape(c) && x < |c.st|
    ensures StillOutcome(c, EnqueueIfReady(c, x))
  {
    StillSame(c, []);
    EnqueueStill(c, x);
    hide Enqueue, Still;
  }
}
