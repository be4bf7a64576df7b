/** How many link records are enough: with that many, no run ever takes one from an empty list. */
module RuuLinkBound {
  import opened RuuTypes
  import opened RuuSteps
  import opened RuuInvariants
  import opened RuuNumberSets
  import opened RuuChainCodes
  import opened RuuTame
  import opened RuuStill
  import opened RuuNumbers
  import opened RuuConsumers
  import opened RuuDispatchBound
  import opened RuuCommitStage
  import opened RuuWritebackStage
  import opened RuuBroadcastProof
  import opened RuuRecoverProof
  import opened RuuDispatchLoop
  import Events = RuuEventProof

  // ----- commit -----

  lemma RetireFree(c: Core)
    requires Shape(c) && c.rn > 0 && (c.st[c.rh].eaComp ==> c.ln > 0)
    ensures var b := Retire(c); b.free == c.free && b.events == c.events && b.R == c.R && b.L == c.L
  {
  }

  lemma {:induction false} CommitBound(c: Core, width: nat, port: nat -> bool, m: nat, pool: nat)
    requires Inv(c, pool) && Shape(c) && |c.st| == c.R + c.L && Floor(c, m) && Numbered(c) && Consumers(c)
    ensures var r := Commit(c, width, port);
            && r.Ok? && Numbered(r.core) && Consumers(r.core)
            && r.core.free == c.free && r.core.events == c.events && r.core.R == c.R && r.core.L == c.L
    decreases width
  {
    hide *;
    if !Advances(c, width, port) {
      CommitStays(c, width, port, pool);
    } else {
      CommitAdvances(c, width, port, m, pool);
      GateIsOpen(c, width, port);
      RetireNumbers(c, port, pool);
      RetireLoses(c);
      RetireFree(c);
      LosesConsumers(c, Retire(c));
      CommitBound(Retire(c), width - 1, port, c.st[c.rh].num, pool);
    }
  }

  lemma GateIsOpen(c: Core, width: nat, port: nat -> bool)
    requires Shape(c) && Advances(c, width, port)
    ensures c.rn > 0 && CommitGate(c, port) == Open
  {
  }

  lemma CommitStays(c: Core, width: nat, port: nat -> bool, pool: nat)
    requires Inv(c, pool) && Shape(c) && !Advances(c, width, port)
    ensures Commit(c, width, port) == Ok(c)
  {
    if c.rn > 0 {
      GateIntact(c, port, pool);
    }
    CommitEndsAt(c, width, port);
    hide Inv;
  }

  // ----- writeback -----

  lemma PoppedStill(c: Core, r: nat)
    requires c.events != [] && r < |c.st|
    ensures var a := Events.Popped(c); Still(c, a) && Still(c, Events.MarkCompleted(a, r)) && a.st == c.st
  {
  }

  /** A completion, recovery included, leaves no more gaps. */
  lemma CompleteNumbers(c: Core, r: nat, pool: nat)
    requires Inv(c, pool) && Shape(c) && c.events != [] && Valid(c, c.events[0]) && r == c.events[0].rs && Numbered(c)
    ensures Shape(Events.Popped(c)) && r < |Events.Popped(c).st|
    ensures Complete(Events.Popped(c), r).Ok? ==> Numbered(Complete(Events.Popped(c), r).core)
  {
    var a := Events.Popped(c);
    Events.ValidEventKeeps(c, r, pool);
    PoppedShape(c, r, pool);
    var c1 := Events.MarkCompleted(a, r);
    CompletedStation(c, r);
    hide *;
    PoppedStill(c, r);
    CompleteIs(a, r, c1);
    StillNumbers(c, c1);
    RecoverIfBranch(c, c1, r, pool);
    var x := if a.st[r].recoverInst then RecoverAll(c1, r) else Ok(c1);
    SendsSplit(x.core, r, pool);
    if a.st[r].recoverInst {
      RecoverAllNumbers(c, c1, r, pool);
    }
    BroadcastNumbers(x.core, r, 0);
    if Broadcast(x.core, r, 0).Ok? {
      BroadcastNumbers(Broadcast(x.core, r, 0).core, r, 1);
    }
  }

  lemma BroadcastNumbers(c: Core, r: nat, o: nat)
    requires Shape(c) && r < |c.st| && o < 2 && Numbered(c)
    ensures var d := Broadcast(c, r, o); d.Ok? ==> Shape(d.core) && r < |d.core.st| && Numbered(d.core)
  {
    BroadcastStill(c, r, o);
    var d := Broadcast(c, r, o);
    if d.Ok? {
      StillNumbers(c, d.core);
    }
    hide Broadcast, Still, Numbered;
  }

  lemma RecoverAllNumbers(c: Core, c1: Core, r: nat, pool: nat)
    requires Shape(c1) && r < |c.st| && r < |c1.st| && c.st[r].recoverInst && c1.st[r].recoverInst && c1.st[r].completed
    requires Sound(c1, Events.Completing(c, r), pool) && Live(c1, r) && r < c1.R && !c1.st[r].inLsq && Numbered(c1)
    ensures RecoverAll(c1, r).Ok? && Numbered(RecoverAll(c1, r).core)
  {
    var f := Events.Completing(c, r);
    BranchHere(c, c1, r);
    CompletingIs(c, r);
    RecoverAllKeeps(c1, f, r, pool);
    RecoverAllTame(c1, r);
    var b := RecoverAll(c1, r).core;
    SoundParts(c1, f, r, pool);
    SoundParts(b, f.(e := -1), -1, pool);
    hide *;
    OpenBranch(c1, r);
    RecoverNumbers(c1, b, r);
  }

  lemma BranchHere(c: Core, c1: Core, r: nat)
    requires Shape(c1) && r < |c.st| && r < |c1.st| && c.st[r].recoverInst && c1.st[r].recoverInst && Live(c1, r) && r < c1.R
    ensures Events.Completing(c, r).e == r && IsBranch(c1, r, r)
  {
  }

  lemma OpenBranch(c: Core, r: nat)
    requires |c.st| == c.R + c.L && Speculation(c, r) && IsBranch(c, r, r)
    ensures c.specMode
  {
  }

  lemma SoundParts(c: Core, f: Flight, e: int, pool: nat)
    requires Sound(c, f, pool) && f.e == e
    ensures Shape(c) && |c.st| == c.R + c.L && Order(c) && Pairs(c) && Speculation(c, e)
  {
  }

  lemma {:induction false} WritebackNumbers(c: Core, pool: nat)
    requires Inv(c, pool) && Shape(c) && Numbered(c)
    ensures Writeback(c).Ok? ==> Numbered(Writeback(c).core)
    decreases |c.events|
  {
    if c.events != [] && c.events[0].x <= c.cycle {
      var l, a := c.events[0], Events.Popped(c);
      WritebackUnfold(c);
      if Valid(c, l) {
        CompleteKeeps(c, l.rs, pool);
        CompleteNumbers(c, l.rs, pool);
      } else {
        Events.StaleEventKeeps(c, pool);
        PopNumbers(c);
      }
      var x := if Valid(c, l) then Complete(a, l.rs) else Ok(a);
      hide *;
      if x.Ok? {
        InvShape(x.core, pool);
        WritebackNumbers(x.core, pool);
      }
    }
  }

  lemma PopNumbers(c: Core)
    requires Shape(c) && c.events != [] && Numbered(c)
    ensures Numbered(Events.Popped(c))
  {
    assert Still(c, Events.Popped(c));
    StillNumbers(c, Events.Popped(c));
    hide Numbered;
  }

  // ----- dispatch -----

  /** Free records beyond what the free RUU slots can take. */
  function Slack(c: Core): int { |c.free| - 8 * (c.R - c.rn) }

  /** What dispatch keeps. */
  ghost predicate Measured(c: Core) { Numbered(c) && Consumers(c) && Fresh(c) }

  ghost predicate DispatchBound(c: Core, r: Outcome) {
    match r
    case Ok(b) => Measured(b) && Slack(b) >= Slack(c)
    case Stop(why) => why != OutOfLinks
  }

  /** The step into mis-speculation: no number is given out behind the branch yet. */
  lemma EnterNumbers(b: Core, x: nat)
    requires Shape(b) && x < |b.st| && Numbered(b) && b.instSeq in Firm(b)
    ensures Numbered(EnterSpec(b, x))
  {
    var d, e := With(b, x, b.st[x].(recoverInst := true)), EnterSpec(b, x);
    assert e == d.(specMode := true) && Shape(d) && d.R == b.R && d.L == b.L && d.instSeq == b.instSeq;
    SameStill(b, x, b.st[x].(recoverInst := true));
    hide EnterSpec, With, Nums, Firm, Gaps, Dense, Shape;
    StillNumbers(b, d);
    SpecNums(d);
    TopDense(Nums(d), Firm(d), d.instSeq);
  }

  lemma EnterFresh(b: Core, x: nat)
    requires Shape(b) && x < |b.st| && Fresh(b)
    ensures Fresh(EnterSpec(b, x)) && Slack(EnterSpec(b, x)) == Slack(b)
  {
  }

  lemma EnterMeasured(b: Core, x: nat)
    requires Shape(b) && x < |b.st| && Measured(b) && b.instSeq in Firm(b)
    ensures Measured(EnterSpec(b, x)) && Slack(EnterSpec(b, x)) == Slack(b)
  {
    hide EnterSpec, Numbered, Consumers, Firm, Loses, Fresh, Slack;
    EnterNumbers(b, x);
    EnterLoses(b, x);
    LosesConsumers(b, EnterSpec(b, x));
    EnterFresh(b, x);
  }

  lemma EnterLoses(b: Core, x: nat)
    requires Shape(b) && x < |b.st|
    ensures Loses(b, EnterSpec(b, x))
  {
    assert StationCodes(b.st[x].(recoverInst := true)) == StationCodes(b.st[x]);
    hide StationCodes;
  }

  lemma SpecNums(d: Core)
    ensures var e := d.(specMode := true); Nums(e) == Nums(d) && Firm(e) == Firm(d)
  {
    var e := d.(specMode := true);
    assert forall z: nat :: Live(e, z) <==> Live(d, z);
  }

  /** An instruction other than a NOP, before the trace may enter mis-speculation. */
  lemma EntryBound(c: Core, i: Inst, pool: nat)
    requires Inv(c, pool) && Shape(c) && c.rn < c.R && c.ln < c.L && WellFormed(i) && Measured(c) && |c.free| >= 8
    ensures var r := if i.kind == Alu then DispatchOp(c, i) else DispatchMem(c, i);
            match r
            case Ok(b) => Shape(b) && Measured(b) && Slack(b) >= Slack(c) && (!c.specMode ==> b.instSeq in Firm(b))
            case Stop(why) => why != OutOfLinks
  {
    var r := if i.kind == Alu then DispatchOp(c, i) else DispatchMem(c, i);
    var c0, x, y := Allocate(c, i), Tail(c), if i.kind == Alu then Tail(c) else LsqTail(c);
    AllocateEnlarges(c, i);
    MeasuredParts(c);
    EnlargesLinked(c, c0, x, y, pool);
    EnlargesFree(c, c0, x, y);
    Events.IdleSplit(c, pool);
    hide *;
    EnlargesNumbered(c, c0, x, y);
    if i.kind == Alu {
      OpBound(c, i);
    } else {
      MemBound(c, i);
    }
    FilledEnds(c, c0, r);
  }

  lemma MeasuredParts(c: Core)
    requires Measured(c)
    ensures Numbered(c) && Consumers(c) && Fresh(c)
  {
  }

  lemma EnlargesFree(c: Core, b: Core, x: nat, y: nat)
    requires Shape(c) && Enlarges(c, b, x, y)
    ensures Shape(b) && b.free == c.free && b.rn == c.rn + 1 && b.R == c.R && (Fresh(c) ==> Fresh(b)) && b.specMode == c.specMode
    ensures |b.st| == |c.st| && (x != y ==> b.st[y].num == b.st[x].num + 1)
  {
  }

  lemma FilledEnds(c: Core, c0: Core, r: Outcome)
    requires Shape(c0) && Filled(c0, r, 8) && Numbered(c0) && Fresh(c0) && (!c.specMode ==> c0.instSeq in Firm(c0))
    requires c0.free == c.free && c0.rn == c.rn + 1 && c0.R == c.R
    ensures match r
            case Ok(b) => Shape(b) && Measured(b) && Slack(b) >= Slack(c) && (!c.specMode ==> b.instSeq in Firm(b))
            case Stop(why) => why != OutOfLinks
  {
    if r.Ok? {
      StillNumbers(c0, r.core);
    }
    hide Nums, Firm, Numbered, Consumers;
  }

  lemma InstBound(c: Core, i: Inst, env: DispatchEnv, pool: nat)
    requires Inv(c, pool) && Shape(c) && c.rn < c.R && c.ln < c.L && WellFormed(i) && Measured(c) && |c.free| >= 8
    ensures DispatchBound(c, DispatchInst(c, i, env))
  {
    DispatchInstIs(c, i, env);
    if !i.isNop {
      EntryBound(c, i, pool);
      var r := if i.kind == Alu then DispatchOp(c, i) else DispatchMem(c, i);
      hide Inv, DispatchOp, DispatchMem, DispatchInst, Measured, EnterSpec, Slack, Shape;
      if r.Ok? && !c.specMode {
        EnterMeasured(r.core, Tail(c));
      }
    }
  }

  lemma DispatchTrans(c: Core, b: Core, r: Outcome)
    requires Slack(b) >= Slack(c) && DispatchBound(b, r)
    ensures DispatchBound(c, r)
  {
    hide Measured;
  }

  lemma DispatchBoundOk(c: Core, r: Outcome)
    ensures DispatchBound(c, r) && r.Ok? ==> Measured(r.core) && Slack(r.core) >= Slack(c)
    ensures Measured(c) ==> DispatchBound(c, Ok(c))
    ensures DispatchBound(c, r) && r.Stop? ==> r != Stop(OutOfLinks)
  {
  }

  lemma {:induction false} DispatchAllBound(c: Core, insts: seq<Inst>, n: nat, env: DispatchEnv, pool: nat)
    requires Inv(c, pool) && Shape(c) && (forall j :: 0 <= j < |insts| ==> WellFormed(insts[j]))
    requires Measured(c) && Slack(c) >= 0
    ensures DispatchBound(c, Dispatch(c, insts, n, env))
    decreases |insts|
  {
    hide *;
    if c.specMode {
      NotDrained(c, pool);
    }
    DispatchUnfold(c, insts, n, env);
    DispatchBoundOk(c, Ok(c));
    if Takes(c, insts, n, env) {
      TakesParts(c, insts, n, env);
      var i := insts[0];
      SlackRoom(c);
      InstBound(c, i, env, pool);
      DispatchInstKeeps(c, i, env, pool);
      var r := DispatchInst(c, i, env);
      DispatchParts(c, r, pool);
      DispatchBoundOk(c, r);
      if r.Ok? && !Redirects(i, env) {
        DispatchAllBound(r.core, insts[1..], if i.isNop then n else n + 1, env, pool);
        DispatchTrans(c, r.core, Dispatch(c, insts, n, env));
      }
    }
  }

  lemma SlackRoom(c: Core)
    requires Slack(c) >= 0 && c.rn < c.R
    ensures |c.free| >= 8
  {
  }
}
