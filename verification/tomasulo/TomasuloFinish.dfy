/** When a run finishes: a bound when no instruction overwrites a register an earlier store
    still has to store, and what a run that never finishes looks like. */
module TomasuloFinish {
  import opened Tomasulo
  import opened TomasuloInvariant
  import opened TomasuloRun

  // ----- one station through a cycle -----

  predicate KeepsWritten(s: State, a: State)
    requires |s.stamps| == |a.stamps|
  {
    forall i: nat :: i < |s.stamps| && s.stamps[i].writeback != EMPTY ==> a.stamps[i].writeback != EMPTY
  }

  /** What a cycle makes of a station in use. */
  predicate Advances(s: State, a: State, k: nat)
    requires k < |s.rs| == |a.rs| && |s.stamps| == |a.stamps| && s.rs[k].inst < |s.stamps|
  {
    var x, y := s.rs[k], a.rs[k];
    && (x.phase == Exec && x.left > 1 ==> y == x.(left := x.left - 1))
    && (x.phase == Exec && x.left == 1 ==> y == x.(left := 0, phase := Done))
    && (x.phase == Issued ==> y.phase in {Issued, Exec} && y.inst == x.inst && y.dest == x.dest && y.left == x.left)
    && (x.phase == Done ==> a.stamps[x.inst].writeback != EMPTY)
  }

  lemma MiddleAdvances(p: seq<Inst>, s: State, k: nat)
    requires Inv(p, s, s.cycle, s.cycle, 1) && s.cycle >= 0 && Live(s, k) && s.rs[k].inst < |p|
    ensures var a := Middle(s);
      && Advances(s, a, k) && KeepsWritten(s, a)
      && (s.rs[k].phase == Issued ==> a.rs[k].phase == Issued)
      && (s.rs[k].phase == Done ==> a.rs[k].phase == Unused)
  {
    hide Stations, Distinct, AllHoused, Sources, Waits, Stamps, Phases, WriteFrom, CompleteFrom, MarkFrom;
    var b := Commit(Tick(s));
    WriteEffect(b, 0, k);
    var c := WriteFrom(b, 0);
    CompleteEffect(c, 0, k);
  }

  lemma MiddleLeaves(s: State, k: nat)
    requires |s.rs| == STATIONS && |s.waiting| == REGS && s.committed <= |s.stamps| && s.cycle >= 0
    requires k < STATIONS && s.rs[k].phase == Unused
    ensures Middle(s).rs[k].phase == Unused
  {
    hide WriteFrom, CompleteFrom, MarkFrom;
    var b := Commit(s.(cycle := s.cycle + 1, rs := Countdown(s.rs)));
    WriteEffect(b, 0, k);
    CompleteEffect(WriteFrom(b, 0), 0, k);
  }

  lemma TailAdvances(p: seq<Inst>, m: State, k: nat)
    requires Structure(p, m) && k < STATIONS
    ensures var a := Ready(p, Issue(p, m));
      && (forall i: nat :: i < |p| ==> a.stamps[i].writeback == m.stamps[i].writeback)
      && (Live(m, k) && m.rs[k].phase != Issued ==> a.rs[k] == m.rs[k])
      && (m.rs[k].phase == Issued ==> a.rs[k] == m.rs[k] || a.rs[k] == m.rs[k].(phase := Exec))
      && m.pc <= a.pc && a.committed == m.committed
  {
    hide Stations, Distinct, AllHoused, Sources, Waits, CheckReg;
  }

  lemma CycleAdvances(p: seq<Inst>, s: State, k: nat)
    requires Inv(p, s, s.cycle, s.cycle, 1) && s.cycle >= 0 && Live(s, k) && s.rs[k].inst < |p|
    ensures Advances(s, Cycle(p, s), k) && KeepsWritten(s, Cycle(p, s))
  {
    MiddleAdvances(p, s, k);
    MiddleKeeps(p, s);
    PhaseNeverSpent(p, s, k);
    TailAdvances(p, Middle(s), k);
    hide Stations, Distinct, AllHoused, Sources, Waits, Stamps, Phases, Middle, Ready, Issue;
  }

  lemma PhaseNeverSpent(p: seq<Inst>, s: State, k: nat)
    requires Inv(p, s, s.cycle, s.cycle, 1) && Live(s, k)
    ensures s.rs[k].inst < s.pc <= |p| && (s.rs[k].phase == Exec ==> 1 <= s.rs[k].left <= Latency(p[s.rs[k].inst].op))
    ensures s.rs[k].phase == Issued ==> s.rs[k].left == Latency(p[s.rs[k].inst].op)
  {
    assert PhaseOk(p, s, s.cycle, 1, k);
  }

  // ----- the oldest uncommitted instruction -----

  predicate Due(s: State, c: nat, r: int, k: nat) {
    && Housed(s, c, k) && k < STATIONS
    && ((s.rs[k].phase == Exec && s.rs[k].left + 2 <= r) || (s.rs[k].phase == Done && 2 <= r))
  }

  /** Instruction `c` is started, and commits within `r` cycles. */
  ghost predicate Within(s: State, c: nat, r: int) {
    c < |s.stamps| && ((s.stamps[c].writeback != EMPTY && 1 <= r) || exists k: nat :: Due(s, c, r, k))
  }

  /** A started front instruction commits in time. */
  lemma FrontStep(p: seq<Inst>, s: State, r: int)
    requires Inv(p, s, s.cycle, s.cycle, 1) && s.cycle >= 0 && |s.rs| == STATIONS && |s.waiting| == REGS
    requires s.committed < |p| == |s.stamps| && r >= 1 && Within(s, s.committed, r)
    ensures var a := Cycle(p, s);
      a.committed == s.committed + 1 || (a.committed == s.committed && r > 1 && Within(a, s.committed, r - 1))
  {
    hide Cycle, Structure, Stamps, Phases;
    CycleKeeps(p, s);
    var c := s.committed;
    var a := Cycle(p, s);
    if s.stamps[c].writeback == EMPTY {
      var k: nat :| Due(s, c, r, k);
      CycleAdvances(p, s, k);
      PhaseNeverSpent(p, s, k);
      assert a.stamps[c].writeback != EMPTY || Due(a, c, r - 1, k);
    }
  }

  lemma {:induction false} CommittedGrows(p: seq<Inst>, n: nat, m: nat)
    requires n <= m
    ensures Run(p, n).committed <= Run(p, m).committed
    decreases m - n
  {
    hide Cycle, Inv;
    if n < m {
      RunInv(p, n);
      CycleKeeps(p, Run(p, n));
      CommittedGrows(p, n + 1, m);
    }
  }

  lemma {:induction false} FrontCommits(p: seq<Inst>, n: nat, r: nat)
    requires Run(p, n).committed < |p| && r >= 1 && Within(Run(p, n), Run(p, n).committed, r)
    ensures Run(p, n + r).committed > Run(p, n).committed
    decreases r
  {
    hide Cycle, Inv, Due;
    RunInv(p, n);
    FrontStep(p, Run(p, n), r);
    assert Run(p, n + 1) == Cycle(p, Run(p, n));
    if Run(p, n + 1).committed == Run(p, n).committed {
      FrontCommits(p, n + 1, r - 1);
      assert n + 1 + (r - 1) == n + r;
    } else {
      CommittedGrows(p, n + 1, n + r);
    }
  }

  // ----- no overwriting of a stored register -----

  /** No instruction after a store, other than a store, writes the stored register. */
  ghost predicate NoOverwrite(p: seq<Inst>) {
    forall i: nat, j: nat :: i < j < |p| && p[i].op == SW && p[j].op != SW ==> p[i].dest != p[j].dest
  }

  lemma NoneOlder(p: seq<Inst>, s: State)
    requires Inv(p, s, s.cycle, s.cycle, 1)
    ensures forall k: nat :: Live(s, k) ==> s.committed <= s.rs[k].inst < s.pc
  {
    hide Distinct, AllHoused, Sources, Waits, Phases;
    forall k: nat | Live(s, k) ensures s.committed <= s.rs[k].inst < s.pc {
      assert StampOk(p, s, s.cycle, s.rs[k].inst);
    }
  }

  /** The oldest uncommitted instruction is issued at the latest in the cycle it becomes oldest. */
  lemma FrontIssued(p: seq<Inst>, m: State)
    requires Inv(p, m, m.cycle, m.cycle, 1) && m.committed < |p|
    ensures Issue(p, m).pc > m.committed
  {
    hide Stations, Distinct, AllHoused, Sources, Waits, Stamps, Phases;
    NoneOlder(p, m);
    if m.pc == m.committed { assert !Live(m, BankOf(p[m.pc].op)); }
  }

  lemma FrontStarts(p: seq<Inst>, s: State, k: nat)
    requires Inv(p, s, s.cycle, s.cycle, 1) && s.committed < |p|
    requires Housed(s, s.committed, k) && s.rs[k].phase == Issued && !IsStoreBank(k)
    ensures MayStart(p, s, k)
  {
    hide Distinct, AllHoused, Waits, Phases;
    NoneOlder(p, s);
    assert SourceOk(s, k, s.rs[k].qj) && SourceOk(s, k, s.rs[k].qk);
    forall i | 0 <= i < s.committed ensures s.stamps[i].commit != EMPTY { assert StampOk(p, s, s.cycle, i); }
  }

  /** Nothing keeps a front instruction from starting, unless it is a store whose register an
      instruction after it will write. */
  lemma FrontMayStart(p: seq<Inst>, s: State, k: nat)
    requires Inv(p, s, s.cycle, s.cycle, 1) && s.committed < |p|
    requires Housed(s, s.committed, k) && s.rs[k].phase == Issued && !MayStart(p, s, k)
    ensures p[s.committed].op == SW && s.waiting[s.rs[k].dest] && s.rs[k].dest == p[s.committed].dest
    ensures exists j: nat :: Producer(s, s.rs[k].dest, j) && s.rs[j].inst > s.committed
  {
    hide Sources, Phases, Stamps, AllHoused, CheckReg;
    NoneOlder(p, s);
    if !IsStoreBank(k) { FrontStarts(p, s, k); }
    var j: nat :| Producer(s, s.rs[k].dest, j);
    assert Live(s, j) && j != k;
  }

  lemma NoYounger(p: seq<Inst>, s: State, k: nat)
    requires Structure(p, s) && s.committed < |p| && NoOverwrite(p) && Housed(s, s.committed, k)
    ensures p[s.committed].op == SW ==>
      forall j: nat :: Producer(s, s.rs[k].dest, j) ==> s.rs[j].inst <= s.committed
  {
    hide AllHoused, Sources, Waits;
    assert Live(s, k);
    forall j: nat | p[s.committed].op == SW && Producer(s, s.rs[k].dest, j) ensures s.rs[j].inst <= s.committed {
      assert Live(s, j);
    }
  }

  lemma NoOverwriteStarts(p: seq<Inst>, s: State, k: nat)
    requires Inv(p, s, s.cycle, s.cycle, 1) && s.committed < |p| && NoOverwrite(p)
    requires Housed(s, s.committed, k) && s.rs[k].phase == Issued
    ensures MayStart(p, s, k)
  {
    hide Stations, AllHoused, Sources, Waits, Phases, Stamps, MayStart, NoOverwrite;
    NoYounger(p, s, k);
    if !MayStart(p, s, k) { FrontMayStart(p, s, k); }
  }

  /** At the end of a cycle the oldest uncommitted instruction is started. */
  lemma FrontIsStarted(p: seq<Inst>, s: State)
    requires Inv(p, s, s.cycle, s.cycle, 1) && s.cycle >= 0 && NoOverwrite(p)
    ensures var a := Cycle(p, s); a.committed < |p| ==> Within(a, a.committed, Latency(p[a.committed].op) + 2)
  {
    hide Stations, Distinct, AllHoused, Sources, Waits, Stamps, Phases, Middle, Issue, MayStart, Latency, NoOverwrite;
    MiddleKeeps(p, s);
    var m := Middle(s);
    if m.committed < |p| {
      IssueKeeps(p, m);
      FrontIssued(p, m);
      IssueFields(p, m);
      ReadyStarts(p, Issue(p, m));
      assert Cycle(p, s) == Ready(p, Issue(p, m));
      assert Cycle(p, s).committed == m.committed;
    } else {
      IssueFields(p, m);
    }
  }

  lemma IssueFields(p: seq<Inst>, m: State)
    requires Structure(p, m)
    ensures var i := Issue(p, m); i.cycle == m.cycle && i.committed == m.committed && |i.stamps| == |m.stamps|
  {
  }

  lemma ReadyStarts(p: seq<Inst>, m: State)
    requires Inv(p, m, m.cycle, m.cycle, 1) && m.cycle >= 1 && NoOverwrite(p) && m.committed < m.pc
    ensures Within(Ready(p, m), m.committed, Latency(p[m.committed].op) + 2)
  {
    hide Stations, Distinct, Sources, Waits, Stamps, Phases, NoOverwrite, MayStart;
    var c, a := m.committed, Ready(p, m);
    ReadyKeeps(p, m);
    if m.stamps[c].writeback == EMPTY {
      var k: nat :| Housed(m, c, k);
      if m.rs[k].phase == Issued { NoOverwriteStarts(p, m, k); }
      assert Housed(a, c, k);
      PhaseNeverSpent(p, a, k);
      assert Due(a, c, Latency(p[c].op) + 2, k);
    }
  }

  /** One cycle, and latency plus two for each of the first `c` instructions. */
  function Bound(p: seq<Inst>, c: nat): nat
    requires c <= |p|
  {
    if c == 0 then 1 else Bound(p, c - 1) + Latency(p[c - 1].op) + 2
  }

  lemma {:induction false} CommitBound(p: seq<Inst>, c: nat)
    requires NoOverwrite(p) && c <= |p|
    ensures Run(p, Bound(p, c)).committed >= c
  {
    hide Cycle, Inv, NoOverwrite, Within;
    if c > 0 {
      CommitBound(p, c - 1);
      var n := Bound(p, c - 1);
      if Run(p, n).committed == c - 1 {
        RunInv(p, n - 1);
        FrontIsStarted(p, Run(p, n - 1));
        FrontCommits(p, n, Latency(p[c - 1].op) + 2);
      } else {
        CommittedGrows(p, n, Bound(p, c));
      }
    }
  }

  /** Without overwriting, every instruction commits, and the loop stops by this cycle. */
  lemma FinishesInTime(p: seq<Inst>, n: nat)
    requires NoOverwrite(p) && n >= Bound(p, |p|)
    ensures Finished(Run(p, n)) && Run(p, n).committed == |p|
  {
    hide Cycle, Inv, NoOverwrite;
    CommitBound(p, |p|);
    CommittedGrows(p, Bound(p, |p|), n);
    FinishedIff(p, n);
  }
}
