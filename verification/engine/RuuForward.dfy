/** Store-to-load forwarding as loads issue, in every cycle of every run. */
module RuuForward {
  import opened Common
  import opened RuuTypes
  import opened RuuSteps
  import opened RuuInvariants
  import opened RuuFrame
  import opened RuuIssueProof
  import opened RuuIssueStage
  import opened RuuRefreshStage
  import opened RuuRefreshExact
  import opened RuuCommitStage
  import opened RuuWritebackStage
  import opened RuuCycle

  // ----- the walk -----

  /** The walk from LSQ position `p` towards the head ends at the youngest store to `a`. */
  ghost predicate FoundFrom(c: Core, p: nat, a: nat, r: Option<nat>)
    requires Shape(c)
  {
    if r.Some? then exists j: nat :: YoungestAt(c, p, a, j) && LsqSlot(c, j) == r.value
    else forall j: nat :: j < p && StoreAt(c, j) ==> c.st[LsqSlot(c, j)].addr != a
  }

  lemma {:induction false} WalkFinds(c: Core, p: nat, a: nat)
    requires Shape(c) && p < c.ln
    ensures 0 <= At(c.lh, c.L, p) < c.L && FoundFrom(c, p, a, ForwardFrom(c, At(c.lh, c.L, p), a))
  {
    if p > 0 {
      var j := p - 1;
      assert Prev(At(c.lh, c.L, p), c.L) == At(c.lh, c.L, j);
      WalkFinds(c, j, a);
      var y := LsqSlot(c, j);
      var r := ForwardFrom(c, At(c.lh, c.L, p), a);
      if c.st[y].kind == Store && c.st[y].addr == a {
        assert r == Some(y);
        assert YoungestAt(c, p, a, j);
      } else {
        assert r == ForwardFrom(c, At(c.lh, c.L, j), a);
        WalkFurther(c, p, a, r);
      }
    }
  }

  lemma WalkFurther(c: Core, p: nat, a: nat, r: Option<nat>)
    requires Shape(c) && 0 < p < c.ln && FoundFrom(c, p - 1, a, r)
    requires StoreAt(c, p - 1) ==> c.st[LsqSlot(c, p - 1)].addr != a
    ensures FoundFrom(c, p, a, r)
  {
    if r.Some? {
      var j: nat :| YoungestAt(c, p - 1, a, j) && LsqSlot(c, j) == r.value;
      assert YoungestAt(c, p, a, j);
    }
  }

  lemma NoneFound(c: Core, i: nat, z: nat)
    requires Shape(c) && Order(c) && i < c.ln && FoundFrom(c, i, c.st[LsqSlot(c, i)].addr, None)
    requires IsOlderStore(c, LsqSlot(c, i), z)
    ensures c.st[z].addr != c.st[LsqSlot(c, i)].addr
  {
    PositionOrder(c, i, z);
    assert StoreAt(c, Pos(c.lh, c.L, z - c.R));
  }

  // ----- a load that is started -----

  /** Forwarding gives a load the youngest older store to its address, which has its value, or
      nothing if there is no such store. */
  ghost predicate ForwardsRight(c: Core, x: nat)
    requires Shape(c)
  {
    x < |c.st| &&
    match ForwardFrom(c, LsqIndex(c, x), c.st[x].addr)
    case Some(y) => YoungestOlderStore(c, x, y) && c.st[y].AllReady()
    case None => forall z: nat :: !YoungestOlderStore(c, x, z)
  }

  lemma SlotOfEntry(c: Core, x: nat)
    requires Shape(c) && Live(c, x) && x >= c.R
    ensures var p := Pos(c.lh, c.L, x - c.R); 0 <= p < c.ln && At(c.lh, c.L, p) == LsqIndex(c, x) && LsqSlot(c, p) == x
    ensures LsqIndex(c, x) < c.L && x < |c.st| && |c.st| == c.R + c.L
  {
  }

  lemma StartedIsSafe(c: Core, x: nat)
    requires |c.st| == c.R + c.L && MemoryOrder(c) && Live(c, x) && x >= c.R && x < |c.st|
    requires c.st[x].kind == Load && Started(c.st[x])
    ensures LoadSafe(c, x)
  {
  }

  lemma ForwardsSome(c: Core, p: nat, y: nat)
    requires Shape(c) && Order(c) && p < c.ln && LsqSlot(c, p) >= 0 && LoadSafe(c, LsqSlot(c, p))
    requires FoundFrom(c, p, c.st[LsqSlot(c, p)].addr, Some(y))
    ensures YoungestOlderStore(c, LsqSlot(c, p), y) && y < |c.st| && c.st[y].AllReady()
  {
    var j: nat :| YoungestAt(c, p, c.st[LsqSlot(c, p)].addr, j) && LsqSlot(c, j) == y;
    YoungestIs(c, p, j);
  }

  lemma ForwardsNone(c: Core, p: nat)
    requires Shape(c) && Order(c) && p < c.ln && LsqSlot(c, p) >= 0
    requires FoundFrom(c, p, c.st[LsqSlot(c, p)].addr, None)
    ensures forall z: nat :: !YoungestOlderStore(c, LsqSlot(c, p), z)
  {
    forall z: nat | IsOlderStore(c, LsqSlot(c, p), z) ensures c.st[z].addr != c.st[LsqSlot(c, p)].addr {
      NoneFound(c, p, z);
    }
  }

  lemma ForwardsIs(c: Core, x: nat, r: Option<nat>)
    requires Shape(c) && x < |c.st| && LsqIndex(c, x) < c.L && r == ForwardFrom(c, LsqIndex(c, x), c.st[x].addr)
    requires r.Some? ==> YoungestOlderStore(c, x, r.value) && r.value < |c.st| && c.st[r.value].AllReady()
    requires r.None? ==> forall z: nat :: !YoungestOlderStore(c, x, z)
    ensures ForwardsRight(c, x)
  {
  }

  /** A started load forwards right in any state in which order and memory order hold: between
      the stages and inside them. */
  lemma ForwardsFrom(c: Core, x: nat)
    requires Shape(c) && Order(c) && MemoryOrder(c) && Live(c, x) && x >= c.R && x < |c.st|
    requires c.st[x].kind == Load && Started(c.st[x])
    ensures ForwardsRight(c, x)
  {
    SlotOfEntry(c, x);
    StartedIsSafe(c, x);
    var p, a := Pos(c.lh, c.L, x - c.R), c.st[x].addr;
    hide *;
    WalkFinds(c, p, a);
    var r := ForwardFrom(c, LsqIndex(c, x), a);
    if r.Some? { ForwardsSome(c, p, r.value); } else { ForwardsNone(c, p); }
    ForwardsIs(c, x, r);
  }

  // ----- every load as it issues -----

  /** Every load that this issue stage issues forwards right in the state it issues in. */
  ghost predicate IssuesRight(c: Core, pend: seq<Link>, n: nat, env: IssueEnv)
    requires Shape(c)
    decreases |pend|
  {
    pend == [] ||
    var l := pend[0];
    var d := IssueLink(c, l, n, env);
    && (Valid(c, l) && n < env.width && c.st[l.rs].inLsq && c.st[l.rs].kind == Load ==> ForwardsRight(c, l.rs))
    && (d.Ok? ==> IssuesRight(d.core, pend[1..],
          if n < env.width && Valid(c, l) && GetsUnit(c.st[l.rs], env) then n + 1 else n, env))
  }

  lemma TakenForwards(c: Core, l: Link, rest: seq<Link>, pool: nat)
    requires Sound(c, Draining([l] + rest), pool) && Shape(c) && Valid(c, l)
    requires c.st[l.rs].inLsq && c.st[l.rs].kind == Load
    ensures ForwardsRight(c, l.rs)
  {
    hide *;
    DrainingShape(c, l, rest, pool);
    TakenStation(c, Draining(rest), l, pool);
    SplitSound(c, Draining([l] + rest), pool);
    TakenLoad(c, l.rs);
    ForwardsFrom(c, l.rs);
  }

  lemma TakenLoad(c: Core, x: nat)
    requires |c.st| == c.R + c.L && Live(c, x) && x < |c.st| && c.st[x].inLsq && Status(c, {}) && c.st[x].queued
    ensures x >= c.R && Started(c.st[x])
  {
    assert StatusOk(c, c.st[x], x, {});
  }

  lemma {:induction false} IssueForwards(c: Core, pend: seq<Link>, n: nat, env: IssueEnv, pool: nat)
    requires Sound(c, Draining(pend), pool) && SpecVector(c, -1) && Latencies(env) && Shape(c)
    ensures IssuesRight(c, pend, n, env)
    decreases |pend|
  {
    hide Sound, Shape, SpecVector, IssueLink, ForwardsRight;
    if pend != [] {
      var l := pend[0];
      assert pend == [l] + pend[1..];
      if Valid(c, l) && c.st[l.rs].inLsq && c.st[l.rs].kind == Load {
        TakenForwards(c, l, pend[1..], pool);
      }
      IssueLinkKeeps(c, l, pend[1..], n, env, pool);
      var r := IssueLink(c, l, n, env);
      if r.Ok? {
        IssueForwards(r.core, pend[1..], if n < env.width && Valid(c, l) && GetsUnit(c.st[l.rs], env) then n + 1 else n, env, pool);
      }
    }
  }

  // ----- every cycle of every run -----

  /** The state a cycle issues from, if it gets that far. */
  function BeforeIssue(c: Core, inp: Inputs): (r: Outcome)
    requires Shape(c)
    ensures r.Ok? ==> Shape(r.core)
  {
    var c1 :- Commit(c, inp.commitWidth, inp.port);
    var c2 :- Writeback(c1);
    Refresh(c2, 0, [])
  }

  ghost predicate CycleForwards(c: Core, inp: Inputs)
    requires Shape(c)
  {
    var r := BeforeIssue(c, inp);
    r.Ok? ==> IssuesRight(r.core.(readyq := []), r.core.readyq, 0, inp.issue)
  }

  lemma CycleForwardsRight(c: Core, inp: Inputs, m: nat, pool: nat)
    requires Inv(c, pool) && Shape(c) && |c.st| == c.R + c.L && Floor(c, m) && Latencies(inp.issue)
    ensures CycleForwards(c, inp)
  {
    hide Inv, Shape, Floor, Commit, Writeback, Refresh, IssuesRight;
    NotSmaller(c, pool);
    CommitKeeps(c, inp.commitWidth, inp.port, m, pool);
    var r1 := Commit(c, inp.commitWidth, inp.port);
    if r1.Ok? {
      var m1 := Last(Retired(c, inp.commitWidth, inp.port), m);
      InvSize(r1.core, pool);
      WritebackStage(r1.core, m1, pool);
      StageParts(Writeback(r1.core), r1.core.L, m1, pool);
      if Writeback(r1.core).Ok? {
        var c2 := Writeback(r1.core).core;
        RefreshBetween(c2, m1, pool);
        StageParts(Refresh(c2, 0, []), c2.L, m1, pool);
        if Refresh(c2, 0, []).Ok? {
          var c3 := Refresh(c2, 0, []).core;
          BetweenShape(c3, m1, pool);
          DetachKeeps(c3, pool);
          DetachShape(c3);
          IssueForwards(c3.(readyq := []), c3.readyq, 0, inp.issue, pool);
        }
      }
    }
  }

  lemma DetachShape(c: Core)
    requires Shape(c)
    ensures Shape(c.(readyq := []))
  {
  }

  /** Every load issued in a run forwards right in the state it issues in. */
  ghost predicate RunForwards(c: Core, inputs: seq<Inputs>)
    requires Shape(c) && WellFormedRun(inputs)
    decreases |inputs|
  {
    inputs == [] ||
    (CycleForwards(c, inputs[0]) &&
     var d := Cycle(c, inputs[0]);
     d.Ok? ==> RunForwards(d.core, inputs[1..]))
  }

  lemma {:induction false} RunForwardsRight(c: Core, inputs: seq<Inputs>, m: nat, pool: nat)
    requires Inv(c, pool) && Shape(c) && |c.st| == c.R + c.L && Floor(c, m) && WellFormedRun(inputs)
    ensures RunForwards(c, inputs)
    decreases |inputs|
  {
    hide Inv, Shape, Floor, Cycle, CycleForwards, Retired, CycleGood;
    if inputs != [] {
      var inp := inputs[0];
      CycleForwardsRight(c, inp, m, pool);
      CycleKeeps(c, inp, m, pool);
      var d, log := Cycle(c, inp), Retired(c, inp.commitWidth, inp.port);
      CycleParts(d, log, c.L, m, pool);
      if d.Ok? {
        RunForwardsRight(d.core, inputs[1..], Last(log, m), pool);
      }
    }
  }

  /** In every run from power-on, every load issues with the youngest older store to its address
      forwarding its value, or with no older store to its address in the queue. */
  lemma LoadsForwardRight(R: nat, L: nat, pool: nat, inputs: seq<Inputs>)
    requires R > 0 && L > 0 && WellFormedRun(inputs)
    ensures var c := Initial(R, L, pool); Shape(c) && RunForwards(c, inputs)
  {
    InitialInv(R, L, pool);
    hide Inv, Initial, Floor;
    RunForwardsRight(Initial(R, L, pool), inputs, 0, pool);
  }
}
