/** What the invariant means: wake-ups, forwarding, pairing, link records and speculation. */
module RuuTheorems {
  import opened RuuTypes
  import opened RuuSteps
  import opened RuuInvariants
  import opened RuuLists
  import opened RuuDispatchStage
  import Events = RuuEventProof

  // ----- wake-ups -----

  /** An operand is ready if and only if the latest older writer of its register is done. */
  lemma ReadyIffProduced(c: Core, x: nat, k: nat, pool: nat)
    requires Inv(c, pool) && Shape(c) && Live(c, x) && k < 3
    ensures c.st[x].ready.Get(k) <==>
              c.st[x].inames.Get(k) == NA ||
              forall q: nat :: Latest(c, c.st[x].inames.Get(k), c.st[x].num, q) ==> c.st[q].completed
  {
    Events.IdleSplit(c, pool);
    hide Inv;
    assert OperandOk(c, -1, x, k);
  }

  /** The oldest uncompleted entry never waits for a register. */
  lemma OldestNeverWaits(c: Core, x: nat, pool: nat)
    requires Inv(c, pool) && Shape(c) && Live(c, x)
    requires forall z: nat :: Live(c, z) && c.st[z].num < c.st[x].num ==> c.st[z].completed
    ensures c.st[x].AllReady()
  {
    forall k: nat | k < 3 ensures c.st[x].ready.Get(k) {
      ReadyIffProduced(c, x, k, pool);
      assert forall q: nat :: Latest(c, c.st[x].inames.Get(k), c.st[x].num, q) ==> c.st[q].completed;
    }
    assert c.st[x].ready.Get(0) && c.st[x].ready.Get(1) && c.st[x].ready.Get(2);
    hide Inv;
  }

  /** An operand that is not ready has exactly one valid link in the whole machine: in the
      consumer chain of the output that will produce it. */
  lemma OneWaitingLink(c: Core, x: nat, k: nat, p: nat, o: nat, pool: nat)
    requires Inv(c, pool) && Shape(c) && Live(c, x) && k < 3 && p < |c.st| && o < 2
    ensures OpKeys(c.st[p].odeps.Get(o))[Key(x, c.st[x].tag, k)] ==
            if !c.st[x].ready.Get(k) && c.st[x].waitOn.Get(k) == By(p, o) then 1 else 0
    ensures !c.st[x].ready.Get(k) && c.st[x].waitOn.Get(k) == By(p, o) ==>
              && Live(c, p) && !c.st[p].completed && c.st[p].num < c.st[x].num
              && c.st[p].onames.Get(o) == c.st[x].inames.Get(k) && Latest(c, c.st[x].inames.Get(k), c.st[x].num, p)
  {
    Events.IdleSplit(c, pool);
    hide Inv;
    assert OperandOk(c, -1, x, k);
    var s, q := c.st[x], c.st[p].odeps.Get(o);
    if !(!s.ready.Get(k) && s.waitOn.Get(k) == By(p, o)) {
      forall l | l in q ensures !(l.rs == x && l.tag == s.tag && l.x == k) {
        assert InChain(c, p, o, l) && ChainLinkOk(c, p, o, l);
      }
      NoOpKey(q, x, s.tag, k);
    }
  }

  // ----- pairing and link records -----

  /** The LSQ entries are the memory halves of the RUU's address computations, in their order. */
  lemma QueuesInStep(c: Core, y: nat, z: nat, pool: nat)
    requires Inv(c, pool) && Shape(c) && Live(c, y) && Live(c, z) && y >= c.R && z >= c.R
    ensures IsPair(c, c.st[y].partner, y) && IsPair(c, c.st[z].partner, z)
    ensures LsqBefore(c, y, z) <==> RuuBefore(c, c.st[y].partner, c.st[z].partner)
  {
    Events.IdleSplit(c, pool);
    hide Inv;
    var p, q := c.st[y].partner, c.st[z].partner;
    assert IsPair(c, p, y) && IsPair(c, q, z);
    assert LsqBefore(c, y, z) || LsqBefore(c, z, y) || y == z;
    assert RuuBefore(c, p, q) || RuuBefore(c, q, p) || p == q;
  }

  lemma {:induction false} PoolCount(pool: nat, i: nat)
    ensures multiset(seq(pool, j => j))[i] == if i < pool then 1 else 0
  {
    if pool > 0 {
      var s, t := seq(pool, j => j), seq(pool - 1, j => j);
      assert s == t + [pool - 1];
      PoolCount(pool - 1, i);
    }
  }

  /** Between stages every link record is in exactly one of the free list, the event queue,
      the ready queue and the consumer chains, exactly once. */
  lemma RecordsOnce(c: Core, i: nat, pool: nat)
    requires Inv(c, pool)
    ensures multiset(c.free)[i] + Ids(c.events)[i] + Ids(c.readyq)[i] + ChainIds(c.st)[i] == if i < pool then 1 else 0
  {
    PoolCount(pool, i);
    Events.IdleSplit(c, pool);
    hide Inv, ChainIds;
    var a := multiset(c.free) + Ids(c.events) + Ids(c.readyq) + Ids([]) + ChainIds(c.st);
    assert AllIds(c, []) == a;
    assert a + multiset{} == multiset(seq(pool, j => j));
  }

  // ----- speculation -----

  /** At most one live entry is the branch whose completion recovers. */
  lemma OneBranch(c: Core, x: nat, y: nat, pool: nat)
    requires Inv(c, pool) && Shape(c) && IsBranch(c, -1, x) && IsBranch(c, -1, y)
    ensures x == y
  {
    Events.IdleSplit(c, pool);
    hide Inv;
  }

  /** While the trace is speculative, an RUU entry is speculative if and only if it is younger
      than that branch. */
  lemma SpeculativeIffYounger(c: Core, x: nat, z: nat, pool: nat)
    requires Inv(c, pool) && Shape(c) && IsBranch(c, -1, x) && Live(c, z) && z < c.R
    ensures c.specMode && (c.st[z].specMode <==> c.st[z].num > c.st[x].num)
  {
    Events.IdleSplit(c, pool);
    hide Inv;
  }

  lemma LinkKeepsBase(c: Core, x: nat, k: nat, n: Reg)
    requires Shape(c) && x < |c.st|
    ensures LinkIdep(c, x, k, n).Ok? ==> LinkIdep(c, x, k, n).core.cv == c.cv && LinkIdep(c, x, k, n).core.specMode == c.specMode
  {
  }

  lemma LinkThreeKeepsBase(c: Core, x: nat, n0: Reg, n1: Reg, n2: Reg)
    requires Shape(c) && x < |c.st|
    ensures var r := LinkThree(c, x, n0, n1, n2); r.Ok? ==> r.core.cv == c.cv && r.core.specMode == c.specMode
  {
    LinkKeepsBase(c, x, 0, n0);
    var c0 := LinkIdep(c, x, 0, n0);
    if c0.Ok? {
      LinkKeepsBase(c0.core, x, 1, n1);
      var c1 := LinkIdep(c0.core, x, 1, n1);
      if c1.Ok? {
        LinkKeepsBase(c1.core, x, 2, n2);
      }
    }
    hide LinkIdep;
  }

  lemma InstallKeepsBase(c: Core, x: nat, n0: Reg, n1: Reg)
    requires Shape(c) && x < |c.st| && c.specMode
    ensures InstallTwo(c, x, n0, n1).cv == c.cv && InstallTwo(c, x, n0, n1).specMode
  {
  }

  lemma EnqueueKeepsBase(c: Core, x: nat)
    requires Shape(c) && x < |c.st|
    ensures var r := EnqueueIfReady(c, x); r.Ok? ==> r.core.cv == c.cv && r.core.specMode == c.specMode
  {
  }

  /** Nothing dispatched in mis-speculation touches the base create vector, and the trace
      stays speculative. */
  lemma SpeculationKeepsBase(c: Core, i: Inst, env: DispatchEnv)
    requires Shape(c) && c.rn < c.R && c.ln < c.L && WellFormed(i) && c.specMode
    ensures var r := DispatchInst(c, i, env); r.Ok? ==> r.core.cv == c.cv && r.core.specMode
  {
    if i.kind == Alu {
      DispatchOpIs(c, i);
    } else {
      DispatchMemIs(c, i);
    }
    var x, y, c0 := Tail(c), LsqTail(c), Allocate(c, i);
    hide LinkThree, InstallTwo, EnqueueIfReady;
    if !i.isNop && i.kind == Alu {
      LinkThreeKeepsBase(c0, x, i.in1, i.in2, i.in3);
      var r := LinkThree(c0, x, i.in1, i.in2, i.in3);
      if r.Ok? {
        InstallKeepsBase(r.core, x, i.out1, i.out2);
        EnqueueKeepsBase(InstallTwo(r.core, x, i.out1, i.out2), x);
      }
    } else if !i.isNop {
      LinkThreeKeepsBase(c0, x, NA, i.in2, i.in3);
      var r := LinkThree(c0, x, NA, i.in2, i.in3);
      if r.Ok? {
        InstallKeepsBase(r.core, x, DTMP, NA);
        var c2 := InstallTwo(r.core, x, DTMP, NA);
        LinkThreeKeepsBase(c2, y, i.in1, DTMP, NA);
        var q := LinkThree(c2, y, i.in1, DTMP, NA);
        if q.Ok? {
          InstallKeepsBase(q.core, y, i.out1, i.out2);
          var c4 := InstallTwo(q.core, y, i.out1, i.out2);
          EnqueueKeepsBase(c4, x);
          var p := EnqueueIfReady(c4, x);
          if p.Ok? {
            EnqueueKeepsBase(p.core, y);
          }
        }
      }
    }
  }

  /** The register view dispatch reads. */
  function View(c: Core, n: Reg): Creator
    requires Shape(c)
  {
    if n in c.useSpec then c.scv[n] else c.cv[n]
  }

  lemma {:induction false} RecoverKeepsBase(c: Core, branch: nat)
    requires Shape(c)
    ensures var r := Recover(c, branch); r.Ok? ==> r.core.cv == c.cv && r.core.useSpec == {}
    decreases c.rn
  {
    var t := Prev(At(c.rh, c.R, c.rn), c.R);
    if t != branch && c.rn > 0 && t != c.rh && !(c.st[t].eaComp && c.ln == 0) {
      RecoverKeepsBase(Squash(c), branch);
    }
  }

  /** Recovery rolls the register view back to the base vector, for every register. */
  lemma RecoveryRestoresView(c: Core, branch: nat, n: Reg)
    requires Shape(c) && branch < |c.st|
    ensures var r := RecoverAll(c, branch); r.Ok? ==> !r.core.specMode && View(r.core, n) == c.cv[n]
  {
    RecoverKeepsBase(c, branch);
    hide Recover;
  }
}
