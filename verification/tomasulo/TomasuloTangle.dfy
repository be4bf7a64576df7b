/** Which programs can jam, read off their text. */
module TomasuloTangle {
  import opened Tomasulo
  import opened TomasuloInvariant
  import opened TomasuloRun
  import opened TomasuloFinish
  import opened TomasuloJam
  import opened TomasuloOverwrite

  /** An instruction before `i`, other than a store, writes register `r`. */
  ghost predicate WrittenBefore(p: seq<Inst>, i: nat, r: Reg) {
    exists k: nat :: k < i && WritesAt(p, k, r)
  }

  predicate WritesAt(p: seq<Inst>, k: nat, r: Reg) { k < |p| && p[k].op != SW && p[k].dest == r }

  /** A load, or an operation with a source that an instruction before it writes: it may have to
      wait when it is issued. */
  ghost predicate Waiter(p: seq<Inst>, j: nat)
    requires j < |p|
  {
    p[j].op == LW || WrittenBefore(p, j, p[j].src1) || WrittenBefore(p, j, p[j].src2)
  }

  /** A store of a register that an instruction before it writes, and one after it overwrites that
      may have to wait. */
  ghost predicate Tangle(p: seq<Inst>, i: nat, j: nat) {
    i < j < |p| && p[i].op == SW && WrittenBefore(p, i, p[i].dest) && WritesAt(p, j, p[i].dest) && Waiter(p, j)
  }

  /** Why a station that is not started had to wait when it was issued. */
  ghost predicate Reason(p: seq<Inst>, x: Station, k: nat) {
    x.phase == Issued ==>
      && x.inst < |p|
      && (IsStoreBank(k) ==> WrittenBefore(p, x.inst, x.dest))
      && (!IsStoreBank(k) ==> Waiter(p, x.inst))
  }

  ghost predicate Reasons(p: seq<Inst>, s: State) { forall k: nat :: k < |s.rs| ==> Reason(p, s.rs[k], k) }

  lemma ProducerWrites(p: seq<Inst>, s: State, r: Reg, j: nat, i: nat)
    requires Structure(p, s) && Producer(s, r, j) && s.rs[j].inst < i
    ensures WrittenBefore(p, i, r)
  {
    hide Distinct, AllHoused, Sources, Waits;
    assert Live(s, j);
    assert WritesAt(p, s.rs[j].inst, r);
  }

  lemma MiddleReasons(p: seq<Inst>, s: State)
    requires Inv(p, s, s.cycle, s.cycle, 1) && s.cycle >= 0 && Reasons(p, s)
    ensures Reasons(p, Middle(s))
  {
    hide Stations, Distinct, AllHoused, Sources, Waits, Stamps, Phases, Middle, Waiter, WrittenBefore;
    var m := Middle(s);
    forall k: nat | k < STATIONS ensures Reason(p, m.rs[k], k) {
      assert Reason(p, s.rs[k], k);
      if Live(s, k) {
        PhaseNeverSpent(p, s, k);
        MiddleAdvances(p, s, k);
      } else {
        MiddleLeaves(s, k);
      }
    }
  }

  /** The new station, if it does not start, waits for an instruction before it. */
  lemma IssuedReason(p: seq<Inst>, m: State, k: nat)
    requires Inv(p, m, m.cycle, m.cycle, 1) && m.cycle >= 1 && Gives(p, m, k)
    ensures var i := Issue(p, m); |i.rs| == STATIONS && (i.rs[k].phase == Issued && !MayStart(p, i, k) ==> Reason(p, i.rs[k], k))
  {
    hide Distinct, AllHoused, Sources, Stamps, Phases, CheckReg, Issue;
    var i, x := Issue(p, m), p[m.pc];
    if i.rs[k].phase == Issued && !MayStart(p, i, k) {
      if x.op == SW {
        assert m.waiting[x.dest];
        WaitedFor(p, m, x.dest);
      } else if x.op != LW {
        if m.waiting[x.src1] { WaitedFor(p, m, x.src1); }
        if m.waiting[x.src2] { WaitedFor(p, m, x.src2); }
      }
    }
  }

  lemma WaitedFor(p: seq<Inst>, m: State, r: Reg)
    requires Structure(p, m) && m.waiting[r]
    ensures WrittenBefore(p, m.pc, r)
  {
    hide Distinct, AllHoused, Sources;
    var j: nat :| Producer(m, r, j);
    assert Live(m, j);
    ProducerWrites(p, m, r, j, m.pc);
  }

  lemma TailReasons(p: seq<Inst>, m: State)
    requires Inv(p, m, m.cycle, m.cycle, 1) && m.cycle >= 1 && Reasons(p, m)
    ensures Reasons(p, Ready(p, Issue(p, m)))
  {
    hide Stations, Distinct, AllHoused, Sources, Waits, Stamps, Phases, CheckReg, Reason, FindIdle, Filled;
    var i, a := Issue(p, m), Ready(p, Issue(p, m));
    if i != m {
      var k := IssueSlot(p, m);
      IssuedReason(p, m, k);
      hide Issue;
      assert forall j: nat :: j < STATIONS && j != k ==> i.rs[j] == m.rs[j];
    }
    forall j: nat | j < STATIONS ensures Reason(p, a.rs[j], j) {
      StartedHasReason(p, i.rs[j], a.rs[j], j);
      assert Reason(p, m.rs[j], j);
      assert a.rs[j] == if MayStart(p, i, j) then i.rs[j].(phase := Exec) else i.rs[j];
    }
  }

  lemma StartedHasReason(p: seq<Inst>, x: Station, y: Station, k: nat)
    ensures y.phase != Issued ==> Reason(p, y, k)
  {
  }

  lemma {:induction false} RunReasons(p: seq<Inst>, n: nat)
    ensures Reasons(p, Run(p, n))
  {
    hide Inv, Middle, Issue, Ready, Reason;
    if n == 0 {
      StartReasons(p);
    } else {
      var s := Run(p, n - 1);
      RunInv(p, n - 1);
      RunReasons(p, n - 1);
      InvShape(p, s);
      MiddleReasons(p, s);
      MiddleKeeps(p, s);
      TailReasons(p, Middle(s));
    }
  }

  lemma InvShape(p: seq<Inst>, s: State)
    requires Inv(p, s, s.cycle, s.cycle, 1)
    ensures |s.rs| == STATIONS && |s.waiting| == REGS && |s.stamps| == |p|
  {
  }

  lemma StartReasons(p: seq<Inst>)
    ensures Reasons(p, Start(p))
  {
  }

  /** A run that jams has a tangle: the oldest uncommitted instruction is its store. */
  lemma JamIsTangle(p: seq<Inst>, n: nat)
    requires Jam(p, Run(p, n))
    ensures exists j: nat :: Tangle(p, Run(p, n).committed, j)
  {
    hide Cycle, Jam, MayStart, Stamps, Phases, Distinct, AllHoused, Sources, Waits, Waiter, WrittenBefore;
    var s := Run(p, n);
    var c := s.committed;
    RunInv(p, n);
    RunReasons(p, n);
    RunLeavesNone(p, n);
    JamIsStore(p, s);
    var k: nat :| Housed(s, c, k) && s.rs[k].phase == Issued;
    var j: nat :| Producer(s, p[c].dest, j) && s.rs[j].phase == Issued && s.rs[j].inst > c;
    assert Live(s, k) && Live(s, j);
    assert Reason(p, s.rs[k], k) && Reason(p, s.rs[j], j);
    assert Tangle(p, c, s.rs[j].inst);
  }

  /** A program without a tangle finishes. */
  lemma NoTangleFinishes(p: seq<Inst>, n: nat)
    requires n >= Todo(p, 0) && forall i: nat, j: nat :: !Tangle(p, i, j)
    ensures Finished(Run(p, n))
  {
    hide Cycle, Jam, Tangle, Finished;
    FinishesOrJams(p, n);
    if Jam(p, Run(p, n)) { JamIsTangle(p, n); }
  }
}
