/** How many link records each stage takes from the free list.  A stage that serves a list
    frees what it serves, so writeback never runs out and issue needs one record. */
module RuuLinkRoom {
  import opened RuuTypes
  import opened RuuSteps
  import opened RuuTame

  /** The step does not run out of links, and leaves at least `k` of them free. */
  predicate Roomy(r: Outcome, k: int) {
    match r
    case Ok(b) => |b.free| >= k
    case Stop(why) => why != OutOfLinks
  }

  lemma {:induction false} FreeChainSize(free: seq<nat>, chain: seq<Link>)
    ensures |FreeChain(free, chain)| == |free| + |chain|
    decreases |chain|
  {
    if chain != [] {
      FreeChainSize([chain[0].id] + free, chain[1..]);
    }
  }

  lemma EnqueueRoom(c: Core, x: nat)
    requires Shape(c) && x < |c.st| && |c.free| >= 1
    ensures Roomy(Enqueue(c, x), |c.free| - 1)
  {
  }

  // ----- writeback -----

  lemma DropChainsRoom(free: seq<nat>, s: Station)
    ensures |DropChains(free, s)| >= |free|
  {
    FreeChainSize(free, s.odeps.a);
    FreeChainSize(FreeChain(free, s.odeps.a), s.odeps.b);
  }

  lemma SquashRoom(c: Core)
    requires Shape(c) && c.rn > 0 && (c.st[At(c.rh, c.R, c.rn - 1)].eaComp ==> c.ln > 0)
    ensures |Squash(c).free| >= |c.free|
  {
    var x := At(c.rh, c.R, c.rn - 1);
    var b := if c.st[x].eaComp then SquashLsq(c) else c;
    if c.st[x].eaComp {
      DropChainsRoom(c.free, c.st[c.R + At(c.lh, c.L, c.ln - 1)]);
    }
    DropChainsRoom(b.free, b.st[x]);
    hide DropChains;
  }

  lemma {:induction false} RecoverRoom(c: Core, branch: nat)
    requires Shape(c)
    ensures Roomy(Recover(c, branch), |c.free|)
    decreases c.rn
  {
    var t := Prev(At(c.rh, c.R, c.rn), c.R);
    if t != branch && c.rn > 0 && t != c.rh && !(c.st[t].eaComp && c.ln == 0) {
      SquashRoom(c);
      RecoverRoom(Squash(c), branch);
    }
    hide Squash;
  }

  lemma RecoverAllRoom(c: Core, r: nat)
    requires Shape(c) && r < |c.st|
    ensures Roomy(RecoverAll(c, r), |c.free|)
  {
    RecoverRoom(c, r);
    hide Recover;
  }

  lemma SatisfyRoom(c: Core, x: nat, k: nat)
    requires Shape(c) && x < |c.st| && |c.free| >= 1
    ensures Roomy(Satisfy(c, x, k), |c.free| - 1)
  {
    EnqueueRoom(With(c, x, c.st[x].(ready := c.st[x].ready.Set(k, true))), x);
    hide Enqueue;
  }

  lemma WakeFirstRoom(c: Core, r: nat, o: nat)
    requires Shape(c) && r < |c.st| && o < 2 && c.st[r].odeps.Get(o) != [] && |c.free| >= 1
    ensures Roomy(WakeFirst(c, r, o), |c.free|)
  {
    var l := c.st[r].odeps.Get(o)[0];
    if Valid(c, l) {
      SatisfyRoom(c, l.rs, l.x);
    }
    hide Satisfy;
  }

  lemma {:induction false} WakeAllRoom(c: Core, r: nat, o: nat)
    requires Shape(c) && r < |c.st| && o < 2 && |c.free| >= 1
    ensures Roomy(WakeAll(c, r, o), |c.free|)
    decreases |c.st[r].odeps.Get(o)|
  {
    if c.st[r].odeps.Get(o) != [] {
      WakeFirstRoom(c, r, o);
      var w := WakeFirst(c, r, o);
      if w.Ok? {
        WakeAllRoom(w.core, r, o);
        hide WakeFirst;
        assert WakeAll(c, r, o) == WakeAll(w.core, r, o);
      }
    }
  }

  lemma BroadcastRoom(c: Core, r: nat, o: nat)
    requires Shape(c) && r < |c.st| && o < 2 && |c.free| >= 1
    ensures Roomy(Broadcast(c, r, o), |c.free|)
  {
    if c.st[r].onames.Get(o) != NA {
      WakeAllRoom(ClearCreator(c, r, o), r, o);
      hide WakeAll;
    }
  }

  lemma CompleteRoom(c: Core, r: nat)
    requires Shape(c) && r < |c.st| && |c.free| >= 1
    ensures Roomy(Complete(c, r), |c.free|)
  {
    var c1 := With(c, r, c.st[r].(completed := true));
    RecoverAllRoom(c1, r);
    hide RecoverAll, Broadcast;
    var c2 := if c.st[r].recoverInst then RecoverAll(c1, r) else Ok(c1);
    if c2.Ok? {
      BroadcastRoom(c2.core, r, 0);
      var c3 := Broadcast(c2.core, r, 0);
      if c3.Ok? {
        BroadcastRoom(c3.core, r, 1);
      }
    }
  }

  /** The record of each event pays for the consumers it wakes. */
  lemma {:induction false} WritebackRoom(c: Core)
    requires Shape(c)
    ensures Roomy(Writeback(c), |c.free|)
    decreases |c.events|
  {
    if c.events != [] && c.events[0].x <= c.cycle {
      var l := c.events[0];
      var c1 := c.(events := c.events[1..], free := [l.id] + c.free);
      var c2 := if Valid(c, l) then Complete(c1, l.rs) else Ok(c1);
      if Valid(c, l) {
        CompleteRoom(c1, l.rs);
      }
      hide Complete;
      if c2.Ok? {
        WritebackRoom(c2.core);
        assert Writeback(c) == Writeback(c2.core);
      }
    }
  }

  // ----- memory dependences -----

  lemma {:induction false} RefreshRoom(c: Core, i: nat, unknown: seq<nat>)
    requires Shape(c) && i <= c.ln && |c.free| >= c.ln - i
    ensures Roomy(Refresh(c, i, unknown), |c.free| - (c.ln - i))
    decreases c.ln - i
  {
    hide Refresh, Enqueue, At;
    if i >= c.ln {
      RefreshEnds(c, i, unknown);
    } else {
      var u, e := RefreshNext(c, i, unknown);
      var y := c.R + At(c.lh, c.L, i);
      EnqueueRoom(c, y);
      EnqueueLsq(c, y);
      if e.Ok? && Shape(e.core) {
        RefreshRoom(e.core, i + 1, u);
      }
    }
  }

  // ----- issue -----

  lemma IssueOneRoom(c: Core, x: nat, env: IssueEnv)
    requires Shape(c) && x < |c.st| && |c.free| >= 1
    ensures Roomy(IssueOne(c, x, env), |c.free| - 1)
  {
    if IssueOne(c, x, env).Ok? {
      IssueOneIs(c, x, env);
    }
    hide LoadLatency;
  }

  lemma IssueLinkRoom(c: Core, l: Link, n: nat, env: IssueEnv)
    requires Shape(c) && |c.free| >= 1
    ensures Roomy(IssueLink(c, l, n, env), |c.free|)
  {
    if Valid(c, l) {
      IssueOneRoom(c, l.rs, env);
      EnqueueRoom(With(c, l.rs, c.st[l.rs].(queued := false)), l.rs);
    }
    hide IssueOne, Enqueue;
  }

  lemma {:induction false} IssueRoom(c: Core, pend: seq<Link>, n: nat, env: IssueEnv)
    requires Shape(c) && |c.free| >= 1
    ensures Roomy(Issue(c, pend, n, env), |c.free|)
    decreases |pend|
  {
    if pend != [] {
      var l := pend[0];
      IssueLinkRoom(c, l, n, env);
      hide IssueLink;
      var a := IssueLink(c, l, n, env);
      if a.Ok? {
        IssueRoom(a.core, pend[1..], if n < env.width && Valid(c, l) && GetsUnit(c.st[l.rs], env) then n + 1 else n, env);
      }
    }
  }

  // ----- dispatch -----

  lemma LinkRoom(c: Core, x: nat, k: nat, name: Reg)
    requires Shape(c) && x < |c.st| && |c.free| >= 1
    ensures Roomy(LinkIdep(c, x, k, name), |c.free| - 1)
  {
  }

  lemma ThreeRoom(c: Core, x: nat, n0: Reg, n1: Reg, n2: Reg)
    requires Shape(c) && x < |c.st| && |c.free| >= 3
    ensures Roomy(LinkThree(c, x, n0, n1, n2), |c.free| - 3)
  {
    LinkRoom(c, x, 0, n0);
    var c0 := LinkIdep(c, x, 0, n0);
    hide LinkIdep;
    if c0.Ok? {
      LinkRoom(c0.core, x, 1, n1);
      var c1 := LinkIdep(c0.core, x, 1, n1);
      if c1.Ok? {
        LinkRoom(c1.core, x, 2, n2);
      }
    }
  }

  lemma ReadyRoom(c: Core, x: nat)
    requires Shape(c) && x < |c.st| && |c.free| >= 1
    ensures Roomy(EnqueueIfReady(c, x), |c.free| - 1)
  {
    EnqueueRoom(c, x);
    hide Enqueue;
  }
}
