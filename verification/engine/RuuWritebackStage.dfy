/** The writeback stage: every due event is served and no panic is reached. */
module RuuWritebackStage {
  import opened RuuTypes
  import opened RuuSteps
  import opened RuuInvariants
  import opened RuuLists
  import opened RuuFrame
  import opened RuuIssueProof
  import opened RuuSquashProof
  import opened RuuRecoverProof
  import opened RuuBroadcastProof
  import Events = RuuEventProof

  // ----- the sender leaves the create vector -----

  /** The two states differ at most in create-vector entries that named (r, o) and are cleared. */
  ghost predicate Forgets(c: Core, b: Core, r: nat, o: nat) {
    && b == c.(cv := b.cv, scv := b.scv) && |b.cv| == |c.cv| == MD_TOTAL_REGS && |b.scv| == |c.scv| == MD_TOTAL_REGS
    && (forall n: nat :: n < MD_TOTAL_REGS ==> b.cv[n] == c.cv[n] || (c.cv[n] == By(r, o) && b.cv[n] == RegFile))
    && (forall n: nat :: n < MD_TOTAL_REGS ==> b.scv[n] == c.scv[n] || (c.scv[n] == By(r, o) && b.scv[n] == RegFile))
  }

  /** Output `o` of `r` is fully reported. */
  ghost predicate Closed(c: Core, r: nat, o: nat)
    requires |c.cv| == MD_TOTAL_REGS && |c.scv| == MD_TOTAL_REGS && r < |c.st|
  {
    && c.st[r].odeps.Get(o) == []
    && forall n: nat :: 0 < n < MD_TOTAL_REGS ==> c.cv[n] != By(r, o) && (n in c.useSpec ==> c.scv[n] != By(r, o))
  }

  ghost predicate Forgotten(c: Core, r: nat, o: nat)
    requires |c.cv| == MD_TOTAL_REGS && |c.scv| == MD_TOTAL_REGS
  {
    forall n: nat :: 0 < n < MD_TOTAL_REGS ==> c.cv[n] != By(r, o) && (n in c.useSpec ==> c.scv[n] != By(r, o))
  }

  lemma ClearForgets(c: Core, r: nat, o: nat)
    requires Shape(c) && r < |c.st| && o < 2 && BaseVector(c, r) && SpecVector(c, r)
    ensures Forgets(c, ClearCreator(c, r, o), r, o) && Forgotten(ClearCreator(c, r, o), r, o)
  {
    var b, m := ClearCreator(c, r, o), c.st[r].onames.Get(o);
    forall n: nat | 0 < n < MD_TOTAL_REGS ensures b.cv[n] != By(r, o) && (n in b.useSpec ==> b.scv[n] != By(r, o)) {
      assert BaseEntry(c, r, n, c.cv[n]);
      assert n in c.useSpec ==> SpecEntry(c, r, n, c.scv[n]);
    }
  }

  /** Nothing but the vectors is looked at. */
  lemma ForgetLatest(c: Core, b: Core, r: nat, o: nat)
    requires Shape(c) && Shape(b) && Forgets(c, b, r, o)
    ensures forall n: nat, m: nat, q: nat :: Latest(b, n, m, q) <==> Latest(c, n, m, q)
    ensures forall n: nat, q: nat :: LatestBase(b, n, q) <==> LatestBase(c, n, q)
    ensures forall z: nat :: Live(b, z) <==> Live(c, z)
    ensures forall l :: LinkOk(b, l) <==> LinkOk(c, l)
  {
    forall n: nat, m: nat, q: nat ensures Latest(b, n, m, q) <==> Latest(c, n, m, q) {
      OneForgetLatest(c, b, r, o, n, m, q);
    }
    forall n: nat, q: nat ensures LatestBase(b, n, q) <==> LatestBase(c, n, q) {
      OneForgetLatestBase(c, b, r, o, n, q);
    }
  }

  lemma OneForgetLatest(c: Core, b: Core, r: nat, o: nat, n: nat, m: nat, q: nat)
    requires Shape(c) && Shape(b) && Forgets(c, b, r, o)
    ensures Latest(b, n, m, q) <==> Latest(c, n, m, q)
  {
    assert forall z: nat :: Live(b, z) <==> Live(c, z);
  }

  lemma OneForgetLatestBase(c: Core, b: Core, r: nat, o: nat, n: nat, q: nat)
    requires Shape(c) && Shape(b) && Forgets(c, b, r, o)
    ensures LatestBase(b, n, q) <==> LatestBase(c, n, q)
  {
    assert forall z: nat :: Live(b, z) <==> Live(c, z);
  }

  lemma ForgetVectors(c: Core, b: Core, r: nat, o: nat)
    requires Shape(c) && Shape(b) && Forgets(c, b, r, o) && Order(c) && r < |c.st| && c.st[r].completed
    requires BaseVector(c, r) && SpecVector(c, r)
    ensures BaseVector(b, r) && SpecVector(b, r)
  {
    ForgetLatest(c, b, r, o);
    forall n: nat | 0 < n < MD_TOTAL_REGS ensures BaseEntry(b, r, n, b.cv[n]) {
      assert BaseEntry(c, r, n, c.cv[n]);
    }
    forall n: nat | 0 < n < MD_TOTAL_REGS
      ensures if n in b.useSpec then SpecEntry(b, r, n, b.scv[n]) else NoSpecWriter(b, n)
    {
      assert if n in c.useSpec then SpecEntry(c, r, n, c.scv[n]) else NoSpecWriter(c, n);
    }
  }

  lemma ForgetOrder(c: Core, b: Core, r: nat, o: nat)
    requires Shape(c) && Shape(b) && Forgets(c, b, r, o) && Order(c)
    ensures Order(b)
  {
    assert forall x: nat, y: nat :: RuuBefore(b, x, y) ==> RuuBefore(c, x, y);
    assert forall x: nat, y: nat :: LsqBefore(b, x, y) ==> LsqBefore(c, x, y);
  }

  lemma ForgetPairs(c: Core, b: Core, r: nat, o: nat)
    requires Shape(c) && Shape(b) && Forgets(c, b, r, o) && Pairs(c)
    ensures Pairs(b)
  {
    assert forall x: nat, y: nat :: IsPair(b, x, y) <==> IsPair(c, x, y);
  }

  lemma ForgetSpeculation(c: Core, b: Core, r: nat, o: nat, e: int)
    requires Shape(c) && Shape(b) && Forgets(c, b, r, o) && Speculation(c, e)
    ensures Speculation(b, e)
  {
    assert forall x: nat :: IsBranch(b, e, x) <==> IsBranch(c, e, x);
  }

  lemma ForgetQueues(c: Core, b: Core, r: nat, o: nat)
    requires Shape(c) && Shape(b) && Forgets(c, b, r, o) && LinksOk(c, []) && Queues(c, []) && Status(c, {})
    ensures LinksOk(b, []) && Queues(b, []) && Status(b, {})
  {
    ForgetLatest(c, b, r, o);
    assert forall p: nat, u: nat, l :: InChain(b, p, u, l) ==> InChain(c, p, u, l);
    forall z: nat | Live(b, z) ensures QueueOk(b, [], z) && StatusOk(b, b.st[z], z, {}) {
      assert Live(c, z) && QueueOk(c, [], z) && StatusOk(c, c.st[z], z, {});
    }
  }

  lemma ForgetOperands(c: Core, b: Core, r: nat, o: nat)
    requires Shape(c) && Shape(b) && Forgets(c, b, r, o) && Operands(c, r) && Chains(c, r)
    ensures Operands(b, r) && Chains(b, r)
  {
    ForgetLatest(c, b, r, o);
    forall x: nat, k: nat | Live(b, x) && k < 3 ensures OperandOk(b, r, x, k) {
      assert OperandOk(c, r, x, k);
    }
    forall p: nat, u: nat, l | InChain(b, p, u, l) ensures ChainLinkOk(b, p, u, l) {
      assert InChain(c, p, u, l) && ChainLinkOk(c, p, u, l);
    }
  }

  lemma ForgetMemory(c: Core, b: Core, r: nat, o: nat)
    requires Shape(c) && Shape(b) && Forgets(c, b, r, o) && MemoryOrder(c) && Timely(c)
    ensures MemoryOrder(b) && Timely(b)
  {
    ForgetLatest(c, b, r, o);
    forall x: nat | Live(b, x) && x >= b.R && b.st[x].kind == Load && Started(b.st[x]) ensures LoadSafe(b, x) {
      assert Live(c, x) && LoadSafe(c, x);
      assert forall z: nat :: IsOlderStore(b, x, z) <==> IsOlderStore(c, x, z);
      assert forall z: nat :: YoungestOlderStore(b, x, z) ==> YoungestOlderStore(c, x, z);
    }
  }

  lemma ForgetConserved(c: Core, b: Core, r: nat, o: nat, pool: nat)
    requires Forgets(c, b, r, o) && Conserved(c, [], multiset{}, pool)
    ensures Conserved(b, [], multiset{}, pool)
  {
    assert AllIds(b, []) == AllIds(c, []);
  }

  lemma SendingSplit(c: Core, r: nat, pool: nat)
    requires Sends(c, r, pool)
    ensures Shape(c) && |c.st| == c.R + c.L && |c.cv| == MD_TOTAL_REGS && |c.scv| == MD_TOTAL_REGS
    ensures Order(c) && Pairs(c) && Speculation(c, -1) && LinksOk(c, []) && Status(c, {}) && Queues(c, [])
    ensures BaseVector(c, r) && SpecVector(c, r) && Operands(c, r) && Chains(c, r)
    ensures MemoryOrder(c) && Timely(c) && Conserved(c, [], multiset{}, pool)
    ensures r < |c.st| && Live(c, r) && c.st[r].completed
  {
    SplitSound(c, Sending(r), pool);
  }

  lemma SendingJoin(c: Core, r: nat, pool: nat)
    requires Shape(c)
    requires Order(c) && Pairs(c) && Speculation(c, -1) && LinksOk(c, []) && Status(c, {}) && Queues(c, [])
    requires BaseVector(c, r) && SpecVector(c, r) && Operands(c, r) && Chains(c, r)
    requires MemoryOrder(c) && Timely(c) && Conserved(c, [], multiset{}, pool)
    requires r < |c.st| && Live(c, r) && c.st[r].completed
    ensures Sends(c, r, pool)
  {
    JoinSound(c, Sending(r), pool);
  }

  lemma ClearKeeps(c: Core, r: nat, o: nat, pool: nat)
    requires Sends(c, r, pool) && o < 2 && Shape(c) && r < |c.st|
    ensures var b := ClearCreator(c, r, o);
            Shape(b) && Sends(b, r, pool) && Forgotten(b, r, o) && Forgets(c, b, r, o)
  {
    var b := ClearCreator(c, r, o);
    ClearShape(c, r, o);
    hide *;
    SendingSplit(c, r, pool);
    ClearForgets(c, r, o);
    ForgetOrder(c, b, r, o);
    ForgetPairs(c, b, r, o);
    ForgetSpeculation(c, b, r, o, -1);
    ForgetQueues(c, b, r, o);
    ForgetVectors(c, b, r, o);
    ForgetOperands(c, b, r, o);
    ForgetMemory(c, b, r, o);
    ForgetConserved(c, b, r, o, pool);
    SendingJoin(b, r, pool);
  }

  lemma ClearShape(c: Core, r: nat, o: nat)
    requires Shape(c) && r < |c.st|
    ensures var b := ClearCreator(c, r, o);
            && Shape(b) && |b.cv| == MD_TOTAL_REGS && |b.scv| == MD_TOTAL_REGS && b.st == c.st
            && (Live(c, r) ==> Live(b, r))
  {
  }

  // ----- one output, both outputs -----

  lemma {:induction false} WakeAllKeeps(c: Core, r: nat, o: nat, pool: nat)
    requires Sends(c, r, pool) && o < 2 && Shape(c) && r < |c.st|
    ensures match WakeAll(c, r, o)
            case Ok(b) => Sends(b, r, pool) && SameSender(c, b, r, o) && b.st[r].odeps.Get(o) == []
            case Stop(why) => why == OutOfLinks
    decreases |c.st[r].odeps.Get(o)|
  {
    if c.st[r].odeps.Get(o) != [] {
      WakeFirstKeeps(c, r, o, pool);
      var w := WakeFirst(c, r, o);
      if w.Ok? {
        assert w.core.st[r].odeps.Get(o) == c.st[r].odeps.Get(o)[1..];
        hide Sends, Shape, WakeFirst;
        WakeAllKeeps(w.core, r, o, pool);
      }
    }
  }

  /** Output `o` of `r` is reported, and the other output is as it was. */
  ghost predicate Reported(c: Core, b: Core, r: nat, o: nat, pool: nat) {
    && Sends(b, r, pool) && o < 2 && r < |b.st| && r < |c.st| && b.events == c.events && b.st[r].onames == c.st[r].onames
    && |c.cv| == |b.cv| == MD_TOTAL_REGS && |c.scv| == |b.scv| == MD_TOTAL_REGS
    && Closed(b, r, o) && (Closed(c, r, 1 - o) ==> Closed(b, r, 1 - o))
  }

  lemma BroadcastNothing(c: Core, r: nat, o: nat, pool: nat)
    requires Sends(c, r, pool) && o < 2 && Shape(c) && r < |c.st| && c.st[r].onames.Get(o) == NA
    ensures Reported(c, c, r, o, pool)
  {
    SendingSplit(c, r, pool);
    forall n: nat | 0 < n < MD_TOTAL_REGS ensures c.cv[n] != By(r, o) && (n in c.useSpec ==> c.scv[n] != By(r, o)) {
      assert BaseEntry(c, r, n, c.cv[n]);
      assert n in c.useSpec ==> SpecEntry(c, r, n, c.scv[n]);
    }
  }

  lemma ReportedJoin(c: Core, a: Core, b: Core, r: nat, o: nat, pool: nat)
    requires Forgets(c, a, r, o) && Forgotten(a, r, o) && SameSender(a, b, r, o) && Sends(b, r, pool)
    requires b.st[r].odeps.Get(o) == [] && o < 2 && r < |c.st|
    ensures Reported(c, b, r, o, pool)
  {
    hide Sends;
  }

  lemma BroadcastKeeps(c: Core, r: nat, o: nat, pool: nat)
    requires Sends(c, r, pool) && o < 2 && Shape(c) && r < |c.st|
    ensures match Broadcast(c, r, o)
            case Ok(b) => Reported(c, b, r, o, pool)
            case Stop(why) => why == OutOfLinks
  {
    if c.st[r].onames.Get(o) == NA {
      BroadcastNothing(c, r, o, pool);
    } else {
      var a := ClearCreator(c, r, o);
      ClearKeeps(c, r, o, pool);
      WakeAllKeeps(a, r, o, pool);
      var w := WakeAll(a, r, o);
      if w.Ok? {
        ReportedJoin(c, a, w.core, r, o, pool);
      }
    }
  }

  /** After both outputs are reported the engine is in order again. */
  lemma FinishBroadcast(c: Core, r: nat, pool: nat)
    requires Sends(c, r, pool) && Shape(c) && r < |c.st| && Closed(c, r, 0) && Closed(c, r, 1)
    ensures Inv(c, pool)
  {
    SendingSplit(c, r, pool);
    FinishSettled(c, r);
    hide *;
    SettleVectors(c, r);
    SettleOperands(c, r);
    Events.IdleJoin(c, pool);
  }

  lemma FinishSettled(c: Core, r: nat)
    requires Shape(c) && r < |c.st| && Closed(c, r, 0) && Closed(c, r, 1) && BaseVector(c, r) && SpecVector(c, r)
    ensures Settled(c, r)
  {
    forall n: nat | 0 < n < MD_TOTAL_REGS
      ensures !(c.cv[n].By? && c.cv[n].slot == r) && (n in c.useSpec ==> !(c.scv[n].By? && c.scv[n].slot == r))
    {
      assert BaseEntry(c, r, n, c.cv[n]);
      assert n in c.useSpec ==> SpecEntry(c, r, n, c.scv[n]);
    }
  }

  lemma BothBroadcasts(c: Core, r: nat, pool: nat)
    requires Sends(c, r, pool) && Shape(c) && r < |c.st|
    ensures match Broadcast(c, r, 0)
            case Stop(why) => why == OutOfLinks
            case Ok(b) => Shape(b) && r < |b.st| && match Broadcast(b, r, 1)
                          case Stop(why) => why == OutOfLinks
                          case Ok(d) => Inv(d, pool)
  {
    BroadcastKeeps(c, r, 0, pool);
    var x := Broadcast(c, r, 0);
    if x.Ok? {
      var b := x.core;
      ReportedParts(c, b, r, 0, pool);
      BroadcastKeeps(b, r, 1, pool);
      var y := Broadcast(b, r, 1);
      if y.Ok? {
        ReportedParts(b, y.core, r, 1, pool);
        FinishBroadcast(y.core, r, pool);
      }
    }
    hide *;
  }

  lemma ReportedParts(c: Core, b: Core, r: nat, o: nat, pool: nat)
    requires Reported(c, b, r, o, pool)
    ensures Sends(b, r, pool) && Shape(b) && r < |b.st| && r < |c.st| && o < 2
    ensures |c.cv| == |b.cv| == MD_TOTAL_REGS && |c.scv| == |b.scv| == MD_TOTAL_REGS
    ensures Closed(b, r, o) && (Closed(c, r, 1 - o) ==> Closed(b, r, 1 - o))
  {
    SendsSplit(b, r, pool);
  }

  // ----- one event, all events -----

  lemma CompleteIs(c: Core, r: nat, c1: Core)
    requires Shape(c) && r < |c.st|
    requires var s := c.st[r]; s.AllReady() && !s.queued && s.issued && !s.completed
    requires c1 == With(c, r, c.st[r].(completed := true))
    ensures Shape(c1) && SameSize(c, c1)
    ensures Complete(c, r) ==
            var x := if c.st[r].recoverInst then RecoverAll(c1, r) else Ok(c1);
            if x.Stop? then x
            else
              var y := Broadcast(x.core, r, 0);
              if y.Stop? then y else Broadcast(y.core, r, 1)
  {
  }

  /** Recovery, if the completed station is a mispredicted branch. */
  lemma RecoverIfBranch(c: Core, c1: Core, r: nat, pool: nat)
    requires Shape(c1) && r < |c.st| && r < |c1.st| && c1.st[r].completed && c1.st[r].recoverInst == c.st[r].recoverInst
    requires Sound(c1, Events.Completing(c, r), pool) && SpecVector(c1, r) && Live(c1, r)
    requires c.st[r].recoverInst ==> r < c1.R && !c1.st[r].inLsq
    ensures var x := if c.st[r].recoverInst then RecoverAll(c1, r) else Ok(c1);
            x.Ok? && Sends(x.core, r, pool)
  {
    if c.st[r].recoverInst {
      assert IsBranch(c1, r, r);
      CompletingIs(c, r);
      RecoverAllKeeps(c1, Events.Completing(c, r), r, pool);
    }
  }

  lemma CompletingIs(c: Core, r: nat)
    requires r < |c.st|
    ensures var f := Events.Completing(c, r);
            f.(e := -1) == Sending(r) && f.d == r && (c.st[r].recoverInst ==> f.e == r)
  {
  }

  lemma CompleteKeeps(c: Core, r: nat, pool: nat)
    requires Inv(c, pool) && c.events != [] && Valid(c, c.events[0]) && r == c.events[0].rs
    ensures Shape(Events.Popped(c)) && r < |Events.Popped(c).st|
    ensures match Complete(Events.Popped(c), r)
            case Ok(b) => Inv(b, pool)
            case Stop(why) => why == OutOfLinks
  {
    var a := Events.Popped(c);
    Events.ValidEventKeeps(c, r, pool);
    PoppedShape(c, r, pool);
    var c1 := Events.MarkCompleted(a, r);
    CompletedStation(c, r);
    hide *;
    CompleteIs(a, r, c1);
    RecoverIfBranch(c, c1, r, pool);
    var x := if a.st[r].recoverInst then RecoverAll(c1, r) else Ok(c1);
    SendsSplit(x.core, r, pool);
    BothBroadcasts(x.core, r, pool);
  }

  lemma PoppedShape(c: Core, r: nat, pool: nat)
    requires Inv(c, pool) && c.events != [] && r < |c.st|
    ensures Shape(Events.Popped(c)) && r < |Events.Popped(c).st|
  {
  }

  lemma CompletedStation(c: Core, r: nat)
    requires c.events != [] && r < |c.st| && Live(c, r)
    requires c.st[r].inLsq ==> !c.st[r].recoverInst
    requires c.st[r].inLsq <==> r >= c.R
    ensures var a := Events.Popped(c);
            var c1 := Events.MarkCompleted(a, r);
            && c1 == With(a, r, a.st[r].(completed := true)) && a.st == c.st
            && Live(c1, r) && |c1.st| == |c.st| && c1.st[r].completed && c1.st[r].recoverInst == c.st[r].recoverInst
            && (c.st[r].recoverInst ==> r < c1.R && !c1.st[r].inLsq)
  {
  }

  lemma {:induction false} WritebackKeeps(c: Core, pool: nat)
    requires Inv(c, pool) && Shape(c)
    ensures match Writeback(c)
            case Ok(b) => Inv(b, pool) && (forall l :: l in b.events ==> l.x > b.cycle) && b.cycle == c.cycle
            case Stop(why) => why == OutOfLinks
    decreases |c.events|, 1
  {
    if c.events != [] && c.events[0].x <= c.cycle {
      var l := c.events[0];
      WritebackUnfold(c);
      if Valid(c, l) {
        assert l.rs < |c.st|;
        CompleteKeeps(c, l.rs, pool);
        var x := Complete(Events.Popped(c), l.rs);
        if x.Ok? {
          WritebackNext(c, x.core, pool);
        }
      } else {
        Events.StaleEventKeeps(c, pool);
        WritebackNext(c, Events.Popped(c), pool);
      }
      hide *;
    } else {
      AllLater(c, pool);
    }
  }

  lemma WritebackUnfold(c: Core)
    requires Shape(c) && c.events != [] && c.events[0].x <= c.cycle
    ensures var a, l := Events.Popped(c), c.events[0];
            && Shape(a)
            && Writeback(c) == (
                 if Valid(c, l) then
                   var x := Complete(a, l.rs);
                   if x.Ok? then Writeback(x.core) else x
                 else Writeback(a))
            && (Valid(c, l) && Complete(a, l.rs).Ok? ==>
                  Complete(a, l.rs).core.cycle == c.cycle && |Complete(a, l.rs).core.events| < |c.events|)
            && a.cycle == c.cycle && |a.events| < |c.events|
  {
  }

  lemma {:induction false} WritebackNext(c: Core, a: Core, pool: nat)
    requires Inv(a, pool) && |a.events| < |c.events| && a.cycle == c.cycle
    ensures Shape(a)
    ensures match Writeback(a)
            case Ok(b) => Inv(b, pool) && (forall l :: l in b.events ==> l.x > b.cycle) && b.cycle == c.cycle
            case Stop(why) => why == OutOfLinks
    decreases |c.events|, 0
  {
    InvShape(a, pool);
    hide Inv;
    WritebackKeeps(a, pool);
  }

  lemma InvShape(c: Core, pool: nat)
    requires Inv(c, pool)
    ensures Shape(c)
  {
  }

  lemma AllLater(c: Core, pool: nat)
    requires Inv(c, pool) && (c.events == [] || c.events[0].x > c.cycle)
    ensures forall l :: l in c.events ==> l.x > c.cycle
  {
    Events.IdleSplit(c, pool);
  }
}
