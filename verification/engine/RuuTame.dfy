/** What writeback, refresh and issue leave alone: they give out no sequence number and bring
    no entry to life, and whatever they schedule lies in the future. */
module RuuTame {
  import opened RuuTypes
  import opened RuuSteps
  import opened RuuCommitStage
  import opened RuuLists
  import opened RuuChainCodes

  /** The same instance, with no more waiting consumers. */
  ghost predicate Ages(s: Station, t: Station) {
    && t.num == s.num && t.specMode == s.specMode && t.eaComp == s.eaComp && t.partner == s.partner
    && StationCodes(t) <= StationCodes(s)
  }

  /** `b` has entries of `c` only, under their old sequence numbers. */
  ghost predicate Tame(c: Core, b: Core) {
    && SameSize(c, b) && b.instSeq == c.instSeq && b.cycle == c.cycle
    && b.rh == c.rh && b.lh == c.lh && b.rn <= c.rn && b.ln <= c.ln
    && forall z: nat :: z < |c.st| ==> Ages(c.st[z], b.st[z])
  }

  lemma TameFloor(c: Core, b: Core, m: nat)
    requires Shape(c) && Shape(b) && Tame(c, b) && Floor(c, m)
    ensures Floor(b, m)
  {
    assert forall z: nat :: Live(b, z) ==> Live(c, z);
  }

  lemma TameTrans(a: Core, b: Core, c: Core)
    requires Tame(a, b) && Tame(b, c)
    ensures Tame(a, c)
  {
  }

  lemma EnqueueTame(c: Core, x: nat)
    requires Shape(c) && x < |c.st|
    ensures Enqueue(c, x).Ok? ==> Tame(c, Enqueue(c, x).core) && Enqueue(c, x).core.events == c.events
  {
  }

  /** One consumer less. */
  lemma ServedTame(c: Core, r: nat, o: nat, id: nat)
    requires Shape(c) && r < |c.st| && o < 2 && c.st[r].odeps.Get(o) != []
    ensures var s := c.st[r];
            Tame(c, With(c, r, s.(odeps := s.odeps.Set(o, s.odeps.Get(o)[1..]))).(free := [id] + c.free))
  {
    CodesHead(c.st[r].odeps.Get(o));
    hide Codes;
  }

  lemma WakeFirstTame(c: Core, r: nat, o: nat)
    requires Shape(c) && r < |c.st| && o < 2 && c.st[r].odeps.Get(o) != []
    ensures WakeFirst(c, r, o).Ok? ==> Tame(c, WakeFirst(c, r, o).core)
  {
    var l := c.st[r].odeps.Get(o)[0];
    var a := if Valid(c, l) then Satisfy(c, l.rs, l.x) else Ok(c);
    SameTame(c);
    if Valid(c, l) {
      SatisfyTame(c, l.rs, l.x);
    }
    hide Satisfy, Tame;
    if a.Ok? {
      ServedTame(a.core, r, o, l.id);
      if WakeFirst(c, r, o).Ok? {
        TameTrans(c, a.core, WakeFirst(c, r, o).core);
      }
    }
  }

  lemma SameTame(c: Core)
    ensures Tame(c, c)
  {
  }

  lemma SatisfyTame(c: Core, x: nat, k: nat)
    requires Shape(c) && x < |c.st|
    ensures Satisfy(c, x, k).Ok? ==> Tame(c, Satisfy(c, x, k).core)
  {
    var a := With(c, x, c.st[x].(ready := c.st[x].ready.Set(k, true)));
    EnqueueTame(a, x);
    hide Enqueue;
  }

  lemma {:induction false} WakeAllTame(c: Core, r: nat, o: nat)
    requires Shape(c) && r < |c.st| && o < 2
    ensures WakeAll(c, r, o).Ok? ==> Tame(c, WakeAll(c, r, o).core)
    decreases |c.st[r].odeps.Get(o)|
  {
    if c.st[r].odeps.Get(o) != [] {
      WakeFirstTame(c, r, o);
      var w := WakeFirst(c, r, o);
      if w.Ok? {
        WakeAllTame(w.core, r, o);
        hide WakeFirst;
        assert WakeAll(c, r, o) == WakeAll(w.core, r, o);
      }
    }
  }

  lemma BroadcastTame(c: Core, r: nat, o: nat)
    requires Shape(c) && r < |c.st| && o < 2
    ensures Broadcast(c, r, o).Ok? ==> Tame(c, Broadcast(c, r, o).core)
  {
    if c.st[r].onames.Get(o) != NA {
      WakeAllTame(ClearCreator(c, r, o), r, o);
      hide WakeAll;
    }
  }

  lemma {:induction false} RecoverTame(c: Core, branch: nat)
    requires Shape(c)
    ensures Recover(c, branch).Ok? ==> Tame(c, Recover(c, branch).core)
    decreases c.rn
  {
    var t := Prev(At(c.rh, c.R, c.rn), c.R);
    if t != branch && c.rn > 0 && t != c.rh && !(c.st[t].eaComp && c.ln == 0) {
      SquashTame(c);
      RecoverTame(Squash(c), branch);
      hide Squash, Tame;
      if Recover(c, branch).Ok? {
        TameTrans(c, Squash(c), Recover(c, branch).core);
      }
    } else {
      hide Squash;
    }
  }

  lemma DroppedAges(s: Station)
    ensures Ages(s, s.(tag := s.tag + 1, odeps := Duo([], [])))
  {
    assert Codes([]) == multiset{};
  }

  lemma SquashLsqTame(c: Core)
    requires Shape(c) && c.ln > 0
    ensures Tame(c, SquashLsq(c))
  {
    DroppedAges(c.st[c.R + At(c.lh, c.L, c.ln - 1)]);
    hide StationCodes, DropChains;
  }

  lemma SquashRuuTame(c: Core)
    requires Shape(c) && c.rn > 0
    ensures Tame(c, SquashRuu(c))
  {
    DroppedAges(c.st[At(c.rh, c.R, c.rn - 1)]);
    hide StationCodes, DropChains;
  }

  lemma SquashTame(c: Core)
    requires Shape(c) && c.rn > 0 && (c.st[At(c.rh, c.R, c.rn - 1)].eaComp ==> c.ln > 0)
    ensures Tame(c, Squash(c))
  {
    var memory := c.st[At(c.rh, c.R, c.rn - 1)].eaComp;
    if memory {
      SquashLsqTame(c);
    }
    SameTame(c);
    hide SquashLsq, SquashRuu, Tame, At;
    var b := if memory then SquashLsq(c) else c;
    SquashRuuTame(b);
    TameTrans(c, b, Squash(c));
  }

  /** The steps of a completion, each from the state before it. */
  lemma CompleteSteps(c: Core, r: nat)
    requires Shape(c) && r < |c.st| && Complete(c, r).Ok?
    ensures var c1 := With(c, r, c.st[r].(completed := true));
            var c2 := if c.st[r].recoverInst then RecoverAll(c1, r) else Ok(c1);
            && Shape(c1) && c2.Ok? && Shape(c2.core) && |c2.core.st| == |c.st|
            && var c3 := Broadcast(c2.core, r, 0);
               c3.Ok? && Shape(c3.core) && |c3.core.st| == |c.st| && Complete(c, r) == Broadcast(c3.core, r, 1)
  {
    hide RecoverAll, Broadcast;
  }

  lemma CompleteTame(c: Core, r: nat)
    requires Shape(c) && r < |c.st|
    ensures Complete(c, r).Ok? ==> Tame(c, Complete(c, r).core)
  {
    hide *;
    if Complete(c, r).Ok? {
      CompleteSteps(c, r);
      var c1 := With(c, r, c.st[r].(completed := true));
      ProgressTame(c, r, c.st[r].(completed := true));
      RecoverAllTame(c1, r);
      var c2 := if c.st[r].recoverInst then RecoverAll(c1, r) else Ok(c1);
      if c.st[r].recoverInst {
        TameTrans(c, c1, c2.core);
      }
      BroadcastTame(c2.core, r, 0);
      var c3 := Broadcast(c2.core, r, 0);
      TameTrans(c, c2.core, c3.core);
      BroadcastTame(c3.core, r, 1);
      TameTrans(c, c3.core, Complete(c, r).core);
    }
  }

  lemma RecoverAllTame(c: Core, r: nat)
    requires Shape(c) && r < |c.st|
    ensures RecoverAll(c, r).Ok? ==> Tame(c, RecoverAll(c, r).core)
  {
    RecoverTame(c, r);
    hide Recover;
  }

  lemma PoppedTame(c: Core, events: seq<Link>, free: seq<nat>)
    ensures Tame(c, c.(events := events, free := free))
  {
    hide StationCodes;
  }

  lemma {:induction false} WritebackTame(c: Core)
    requires Shape(c)
    ensures Writeback(c).Ok? ==> Tame(c, Writeback(c).core)
    decreases |c.events|
  {
    if c.events != [] && c.events[0].x <= c.cycle {
      var l := c.events[0];
      var c1 := c.(events := c.events[1..], free := [l.id] + c.free);
      var c2 := if Valid(c, l) then Complete(c1, l.rs) else Ok(c1);
      PoppedTame(c, c.events[1..], [l.id] + c.free);
      if Valid(c, l) {
        CompleteTame(c1, l.rs);
      }
      hide Complete, Tame;
      if c2.Ok? {
        WritebackTame(c2.core);
        assert Writeback(c) == Writeback(c2.core);
        if Valid(c, l) {
          TameTrans(c, c1, c2.core);
        }
        if Writeback(c).Ok? {
          TameTrans(c, c2.core, Writeback(c).core);
        }
      }
    } else {
      SameTame(c);
    }
  }

  lemma RefreshEnds(c: Core, i: nat, unknown: seq<nat>)
    requires Shape(c) && i >= c.ln
    ensures Refresh(c, i, unknown) == Ok(c)
  {
  }

  /** One step of the scan: it ends here, or goes on after queueing one load at most. */
  lemma RefreshNext(c: Core, i: nat, unknown: seq<nat>) returns (u: seq<nat>, e: Outcome)
    requires Shape(c) && i < c.ln
    ensures 0 <= c.R + At(c.lh, c.L, i) < |c.st| && (e == Ok(c) || e == Enqueue(c, c.R + At(c.lh, c.L, i)))
    ensures var r := Refresh(c, i, unknown);
            || r == Ok(c) || r == Stop(StdUnknownOverflow) || (e.Stop? && r == e)
            || (e.Ok? && Shape(e.core) && r == Refresh(e.core, i + 1, u))
  {
    var y := c.R + At(c.lh, c.L, i);
    var s := c.st[y];
    u := if s.kind != Store then unknown
         else if !s.AllReady() then unknown + [s.addr] else Hide(unknown, s.addr);
    e := if LoadWaits(s) && s.addr !in u then Enqueue(c, y) else Ok(c);
    hide Enqueue, Hide, LoadWaits;
  }

  lemma EnqueueLsq(c: Core, x: nat)
    requires Shape(c) && x < |c.st|
    ensures Enqueue(c, x).Ok? ==> Enqueue(c, x).core.ln == c.ln
  {
  }

  lemma {:induction false} RefreshTame(c: Core, i: nat, unknown: seq<nat>)
    requires Shape(c)
    ensures Refresh(c, i, unknown).Ok? ==> Tame(c, Refresh(c, i, unknown).core)
    decreases c.ln - i
  {
    hide Refresh, Enqueue, At, Tame;
    SameTame(c);
    if i >= c.ln {
      RefreshEnds(c, i, unknown);
    } else {
      var y := c.R + At(c.lh, c.L, i);
      var u, e := RefreshNext(c, i, unknown);
      EnqueueTame(c, y);
      EnqueueLsq(c, y);
      if e.Ok? && Shape(e.core) {
        RefreshTame(e.core, i + 1, u);
        if Refresh(e.core, i + 1, u).Ok? {
          TameTrans(c, e.core, Refresh(e.core, i + 1, u).core);
        }
      }
    }
  }

  /** Nothing is due before the next cycle. */
  ghost predicate Later(c: Core) {
    forall l :: l in c.events ==> l.x > c.cycle
  }

  lemma EnqueueLater(c: Core, x: nat)
    requires Shape(c) && x < |c.st|
    ensures Enqueue(c, x).Ok? ==> Tame(c, Enqueue(c, x).core) && (Later(c) ==> Later(Enqueue(c, x).core))
  {
    EnqueueTame(c, x);
    hide Enqueue;
  }

  lemma QueueEventTame(c: Core, x: nat, when: nat)
    requires Shape(c) && x < |c.st|
    ensures QueueEvent(c, x, when).Ok? ==> Tame(c, QueueEvent(c, x, when).core)
    ensures QueueEvent(c, x, when).Ok? && Later(c) ==> Later(QueueEvent(c, x, when).core)
  {
    if QueueEvent(c, x, when).Ok? {
      var n := NewLink(c, x, when);
      var b := QueueEvent(c, x, when).core;
      assert b == c.(free := c.free[1..], events := InsertByX(c.events, n)) && n.x == when > c.cycle;
      hide QueueEvent, InsertByX, NewLink, Shape;
      InsertMembers(c.events, n);
    }
  }

  lemma InsertMembers(q: seq<Link>, n: Link)
    ensures forall l :: l in InsertByX(q, n) <==> l == n || l in q
  {
    InsertFacts(q, n);
    hide *;
  }

  /** The same station at a different progress. */
  lemma ProgressTame(c: Core, x: nat, s: Station)
    requires Shape(c) && x < |c.st|
    requires s == c.st[x].(queued := s.queued, issued := s.issued, completed := s.completed)
    ensures x < |With(c, x, s).st| == |c.st| && With(c, x, s).cycle == c.cycle
    ensures Shape(With(c, x, s)) && Tame(c, With(c, x, s)) && (Later(c) ==> Later(With(c, x, s)))
  {
    assert StationCodes(s) == StationCodes(c.st[x]);
    hide StationCodes;
  }

  lemma IssueOneIs(c: Core, x: nat, env: IssueEnv)
    requires Shape(c) && x < |c.st| && IssueOne(c, x, env).Ok?
    ensures var s := c.st[x];
            var s1 := s.(queued := false);
            var lat := if s.inLsq && s.kind == Load then LoadLatency(c, x, env) else env.opLat(s.num);
            && Shape(With(c, x, s1)) && Shape(With(c, x, s1.(issued := true)))
            && IssueOne(c, x, env) ==
                 if s.inLsq && s.kind == Store then Ok(With(c, x, s1.(issued := true, completed := true)))
                 else if !s.usesUnit then QueueEvent(With(c, x, s1.(issued := true)), x, c.cycle + 1)
                 else if !env.unit(s.num) then Enqueue(With(c, x, s1), x)
                 else QueueEvent(With(c, x, s1.(issued := true)), x, c.cycle + lat)
  {
    hide LoadLatency, Enqueue, QueueEvent;
  }

  /** A step that goes on from `a`, which is `c` but for the progress of one station. */
  ghost predicate TameOutcome(c: Core, r: Outcome) {
    r.Ok? ==> Tame(c, r.core) && (Later(c) ==> Later(r.core))
  }

  lemma StoppedTame(c: Core, r: Outcome)
    ensures r.Stop? ==> TameOutcome(c, r)
  {
  }

  lemma ScheduledTame(c: Core, x: nat, s: Station, when: nat)
    requires Shape(c) && x < |c.st| && s == c.st[x].(queued := s.queued, issued := s.issued, completed := s.completed)
    ensures Shape(With(c, x, s)) && x < |With(c, x, s).st|
    ensures TameOutcome(c, QueueEvent(With(c, x, s), x, when)) && TameOutcome(c, Enqueue(With(c, x, s), x))
    ensures TameOutcome(c, Ok(With(c, x, s)))
  {
    ProgressTame(c, x, s);
    hide With, Tame, Later, QueueEvent, Enqueue;
    QueueEventTame(With(c, x, s), x, when);
    EnqueueLater(With(c, x, s), x);
    IssueTrans(c, With(c, x, s), QueueEvent(With(c, x, s), x, when));
    IssueTrans(c, With(c, x, s), Enqueue(With(c, x, s), x));
  }

  lemma IssueOneTame(c: Core, x: nat, env: IssueEnv)
    requires Shape(c) && x < |c.st|
    ensures TameOutcome(c, IssueOne(c, x, env))
  {
    hide *;
    StoppedTame(c, IssueOne(c, x, env));
    if IssueOne(c, x, env).Ok? {
      IssueOneIs(c, x, env);
      var s := c.st[x];
      var s1 := s.(queued := false);
      var lat := if s.inLsq && s.kind == Load then LoadLatency(c, x, env) else env.opLat(s.num);
      if s.inLsq && s.kind == Store {
        ScheduledTame(c, x, s1.(issued := true, completed := true), 0);
      } else if s.usesUnit && !env.unit(s.num) {
        ScheduledTame(c, x, s1, 0);
      } else {
        ScheduledTame(c, x, s1.(issued := true), c.cycle + if s.usesUnit then lat else 1);
      }
    }
  }

  lemma IssueTrans(c: Core, a: Core, r: Outcome)
    requires Tame(c, a) && (Later(c) ==> Later(a)) && (r.Ok? ==> Tame(a, r.core) && (Later(a) ==> Later(r.core)))
    ensures r.Ok? ==> Tame(c, r.core) && (Later(c) ==> Later(r.core))
  {
  }

  lemma FreedTame(c: Core, b: Core, id: nat)
    requires Shape(c)
    ensures var d := b.(free := [id] + b.free);
            (Tame(c, b) ==> Tame(c, d)) && (Later(b) ==> Later(d)) && Tame(c, c)
  {
    hide StationCodes;
  }

  lemma IssueLinkTame(c: Core, l: Link, n: nat, env: IssueEnv)
    requires Shape(c)
    ensures IssueLink(c, l, n, env).Ok? ==> Tame(c, IssueLink(c, l, n, env).core)
    ensures IssueLink(c, l, n, env).Ok? && Later(c) ==> Later(IssueLink(c, l, n, env).core)
  {
    if Valid(c, l) {
      var a := With(c, l.rs, c.st[l.rs].(queued := false));
      IssueOneTame(c, l.rs, env);
      ProgressTame(c, l.rs, c.st[l.rs].(queued := false));
      EnqueueLater(a, l.rs);
      var r := if n < env.width then IssueOne(c, l.rs, env) else Requeue(c, l.rs);
      hide IssueOne, Enqueue, Tame, Later;
      if n >= env.width { IssueTrans(c, a, r); }
      if r.Ok? { FreedTame(c, r.core, l.id); }
    } else {
      FreedTame(c, c, l.id);
    }
  }

  lemma {:induction false} IssueTame(c: Core, pend: seq<Link>, n: nat, env: IssueEnv)
    requires Shape(c)
    ensures Issue(c, pend, n, env).Ok? ==> Tame(c, Issue(c, pend, n, env).core)
    ensures Issue(c, pend, n, env).Ok? && Later(c) ==> Later(Issue(c, pend, n, env).core)
    decreases |pend|
  {
    FreedTame(c, c, 0);
    if pend != [] {
      var l := pend[0];
      IssueLinkTame(c, l, n, env);
      hide IssueLink, Tame, Later;
      var a := IssueLink(c, l, n, env);
      if a.Ok? {
        IssueTame(a.core, pend[1..], if n < env.width && Valid(c, l) && GetsUnit(c.st[l.rs], env) then n + 1 else n, env);
        IssueTrans(c, a.core, Issue(c, pend, n, env));
      }
    }
  }
}
