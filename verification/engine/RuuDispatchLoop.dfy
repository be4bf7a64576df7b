/** The dispatch stage: instruction after instruction, until the window or the width is full. */
module RuuDispatchLoop {
  import opened RuuTypes
  import opened RuuSteps
  import opened RuuInvariants
  import opened RuuFrame
  import opened RuuDispatchStage
  import opened RuuSpeculateProof
  import opened RuuCommitStage
  import Events = RuuEventProof

  /** What a step that neither retires nor completes anything may do: events and clock stay,
      live entries keep their numbers and new ones are younger than every number given out. */
  ghost predicate Younger(c: Core, b: Core) {
    && b.events == c.events && b.cycle == c.cycle && b.R == c.R && b.L == c.L && |b.st| == |c.st| && b.instSeq >= c.instSeq
    && forall z: nat :: Live(b, z) && z < |b.st| ==> (Live(c, z) && b.st[z].num == c.st[z].num) || b.st[z].num > c.instSeq
  }

  ghost predicate DispatchGood(c: Core, r: Outcome, pool: nat) {
    match r
    case Ok(b) => Inv(b, pool) && Younger(c, b)
    case Stop(why) => why == OutOfLinks
  }

  lemma YoungerSame(c: Core)
    ensures Younger(c, c)
  {
  }

  lemma YoungerTrans(a: Core, b: Core, c: Core)
    requires Younger(a, b) && Younger(b, c)
    ensures Younger(a, c)
  {
  }

  lemma YoungerFloor(c: Core, b: Core, m: nat)
    requires |c.st| == c.R + c.L && Younger(c, b) && Floor(c, m)
    ensures |b.st| == b.R + b.L && Floor(b, m)
  {
  }

  lemma NewYounger(c: Core, b: Core, x: nat)
    requires NewEntry(c, b, x) && SameSize(c, b)
    ensures Younger(c, b)
  {
  }

  /** The entry just dispatched can become the mispredicted branch. */
  lemma NewEnters(c: Core, b: Core, x: nat)
    requires Shape(b) && NewEntry(c, b, x) && x == Tail(c) && Shape(c) && !c.specMode && Order(b) && Status(b, {})
    ensures Enters(b, EnterSpec(b, x), x)
  {
    assert StatusOk(b, b.st[x], x, {});
    forall z: nat | Live(b, z) && z < b.R && z != x ensures b.st[z].num < b.st[x].num {
      assert RuuBefore(b, z, x);
    }
  }

  lemma EntersYounger(c: Core, b: Core, x: nat)
    requires Shape(c) && Enters(c, b, x)
    ensures Younger(c, b)
  {
    EntersFields(c, b, x);
  }

  lemma DispatchInstIs(c: Core, i: Inst, env: DispatchEnv)
    requires Shape(c) && c.rn < c.R && c.ln < c.L && WellFormed(i)
    ensures i.isNop ==> DispatchInst(c, i, env) == Ok(c)
    ensures !i.isNop ==>
              var r := if i.kind == Alu then DispatchOp(c, i) else DispatchMem(c, i);
              && (r.Stop? ==> DispatchInst(c, i, env) == r)
              && (r.Ok? ==>
                    && SameSize(c, r.core) && Shape(r.core) && 0 <= Tail(c) < |r.core.st|
                    && DispatchInst(c, i, env) == Ok(if !c.specMode && Mispredicts(i, env) then EnterSpec(r.core, Tail(c)) else r.core))
  {
  }

  lemma GoodParts(c: Core, r: Outcome, x: nat, pool: nat)
    requires NewGood(c, r, x, pool)
    ensures r.Stop? ==> r == Stop(OutOfLinks)
    ensures r.Ok? ==> Inv(r.core, pool) && NewEntry(c, r.core, x)
  {
  }

  lemma DispatchGoodOk(c: Core, b: Core, pool: nat)
    requires Inv(b, pool) && Younger(c, b)
    ensures DispatchGood(c, Ok(b), pool)
  {
  }

  lemma DispatchGoodStop(c: Core, pool: nat)
    ensures DispatchGood(c, Stop(OutOfLinks), pool)
  {
  }

  lemma DispatchInstKeeps(c: Core, i: Inst, env: DispatchEnv, pool: nat)
    requires Inv(c, pool) && Shape(c) && c.rn < c.R && c.ln < c.L && WellFormed(i)
    ensures DispatchGood(c, DispatchInst(c, i, env), pool)
  {
    hide *;
    DispatchInstIs(c, i, env);
    DispatchGoodStop(c, pool);
    if i.isNop {
      YoungerSame(c);
      DispatchGoodOk(c, c, pool);
    } else {
      if i.kind == Alu {
        DispatchOpKeeps(c, i, pool);
      } else {
        DispatchMemKeeps(c, i, pool);
      }
      var x, r := Tail(c), if i.kind == Alu then DispatchOp(c, i) else DispatchMem(c, i);
      GoodParts(c, r, x, pool);
      if r.Ok? {
        var b := r.core;
        NewYounger(c, b, x);
        if !c.specMode && Mispredicts(i, env) {
          Events.IdleSplit(b, pool);
          NewEnters(c, b, x);
          EntersKeeps(b, EnterSpec(b, x), x, pool);
          EntersYounger(b, EnterSpec(b, x), x);
          YoungerTrans(c, b, EnterSpec(b, x));
          DispatchGoodOk(c, EnterSpec(b, x), pool);
        } else {
          DispatchGoodOk(c, b, pool);
        }
      }
    }
  }

  /** A mispredicted branch is still in the window while the trace is speculative. */
  lemma NotDrained(c: Core, pool: nat)
    requires Inv(c, pool) && c.specMode
    ensures c.rn > 0
  {
    var x: nat :| IsBranch(c, -1, x);
  }

  predicate Takes(c: Core, insts: seq<Inst>, n: nat, env: DispatchEnv) {
    && n < env.width && c.rn < c.R && c.ln < c.L && insts != [] && (c.specMode ==> env.includeSpec)
    && (insts[0].isTrap ==> c.rn == 0)
  }

  lemma DispatchUnfold(c: Core, insts: seq<Inst>, n: nat, env: DispatchEnv)
    requires Shape(c) && (forall j :: 0 <= j < |insts| ==> WellFormed(insts[j])) && (c.specMode ==> c.rn > 0)
    ensures !Takes(c, insts, n, env) ==> Dispatch(c, insts, n, env) == Ok(c)
    ensures Takes(c, insts, n, env) ==>
              var i := insts[0];
              var r := DispatchInst(c, i, env);
              Dispatch(c, insts, n, env) ==
                if r.Stop? || Redirects(i, env) then r
                else Dispatch(r.core, insts[1..], if i.isNop then n else n + 1, env)
  {
  }

  lemma DispatchChain(a: Core, b: Core, r: Outcome, pool: nat)
    requires Younger(a, b) && DispatchGood(b, r, pool)
    ensures DispatchGood(a, r, pool)
  {
    if r.Ok? {
      hide Younger;
      YoungerTrans(a, b, r.core);
    }
  }

  lemma DispatchParts(c: Core, r: Outcome, pool: nat)
    requires DispatchGood(c, r, pool)
    ensures r.Ok? ==> Inv(r.core, pool) && Younger(c, r.core) && Shape(r.core)
    ensures r.Stop? ==> r == Stop(OutOfLinks)
  {
  }

  /** The dispatch stage keeps the invariant and reaches no panic. */
  lemma {:induction false} DispatchKeeps(c: Core, insts: seq<Inst>, n: nat, env: DispatchEnv, pool: nat)
    requires Inv(c, pool) && Shape(c) && (forall j :: 0 <= j < |insts| ==> WellFormed(insts[j]))
    ensures DispatchGood(c, Dispatch(c, insts, n, env), pool)
    decreases |insts|
  {
    hide *;
    if c.specMode {
      NotDrained(c, pool);
    }
    DispatchUnfold(c, insts, n, env);
    YoungerSame(c);
    if Takes(c, insts, n, env) {
      TakesParts(c, insts, n, env);
      var i := insts[0];
      DispatchInstKeeps(c, i, env, pool);
      var r := DispatchInst(c, i, env);
      DispatchParts(c, r, pool);
      if r.Ok? && !Redirects(i, env) {
        DispatchKeeps(r.core, insts[1..], if i.isNop then n else n + 1, env, pool);
        DispatchChain(c, r.core, Dispatch(c, insts, n, env), pool);
      }
    } else {
      DispatchGoodOk(c, c, pool);
    }
  }

  lemma TakesParts(c: Core, insts: seq<Inst>, n: nat, env: DispatchEnv)
    requires Takes(c, insts, n, env)
    ensures n < env.width && c.rn < c.R && c.ln < c.L && insts != []
  {
  }
}
