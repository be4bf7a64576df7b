/** Whole runs of the Tomasulo simulator: its bookkeeping, and how soon it finishes. */
module TomasuloRun {
  import opened Tomasulo
  import opened TomasuloInvariant

  /** The state after `n` rounds of the loop. */
  function Run(p: seq<Inst>, n: nat): (s: State)
    ensures |s.rs| == STATIONS && |s.waiting| == REGS && s.committed <= |s.stamps| == |p|
  {
    if n == 0 then Start(p) else Cycle(p, Run(p, n - 1))
  }

  lemma {:induction false} RunInv(p: seq<Inst>, n: nat)
    ensures Inv(p, Run(p, n), n, n, 1) && Run(p, n).cycle == n
  {
    hide Structure, Stamps, Phases, Cycle;
    if n == 0 {
      StartKeeps(p);
    } else {
      RunInv(p, n - 1);
      CycleKeeps(p, Run(p, n - 1));
    }
  }

  // ----- bookkeeping -----

  /** Station `k` is in use for instruction `i`, in the bank of its class. */
  predicate Serves(p: seq<Inst>, s: State, k: nat, i: nat)
    requires i < |p|
  {
    Housed(s, i, k) && BankOf(p[i].op) <= k < BankOf(p[i].op) + BANK
  }

  /** An instruction is issued and not yet written back exactly while one station serves it. */
  lemma OneStation(p: seq<Inst>, n: nat, i: nat)
    requires i < |p|
    ensures var s := Run(p, n);
      && (s.stamps[i].issue != EMPTY && s.stamps[i].writeback == EMPTY <==> exists k: nat :: Serves(p, s, k, i))
      && (forall j: nat, k: nat :: Housed(s, i, j) && Housed(s, i, k) ==> j == k)
  {
    hide Sources, Waits, Phases, Cycle;
    RunInv(p, n);
    var s := Run(p, n);
    assert StampOk(p, s, n, i);
    assert forall k: nat :: Housed(s, i, k) ==> Live(s, k) && Serves(p, s, k, i);
  }

  /** The stamps of an instruction that has committed by cycle `n`. */
  ghost predicate Punctual(p: seq<Inst>, s: State, i: nat)
    requires i < |p| == |s.stamps|
  {
    var t := s.stamps[i];
    1 <= t.issue && t.issue + Latency(p[i].op) <= t.execute && t.writeback == t.execute + 1 && t.writeback < t.commit <= s.cycle
  }

  /** The committed instructions are the first `committed` ones, each with stamps in order; no two
      commit in the same cycle, and none before an earlier one. */
  lemma CommitsInOrder(p: seq<Inst>, n: nat)
    ensures var s := Run(p, n);
      && (forall i: nat :: i < |p| ==> (s.stamps[i].commit != EMPTY <==> i < s.committed))
      && (forall i: nat :: i < s.committed ==> Punctual(p, s, i))
      && (forall i: nat, j: nat :: i < j < s.committed ==> s.stamps[i].commit < s.stamps[j].commit)
  {
    hide Structure, Phases, Cycle;
    RunInv(p, n);
    var s := Run(p, n);
    InvCounts(p, s, n);
    forall i: nat | i < |p|
      ensures s.stamps[i].commit != EMPTY <==> i < s.committed
      ensures i < s.committed ==> Punctual(p, s, i)
    {
      assert StampOk(p, s, n, i);
    }
  }

  lemma InvCounts(p: seq<Inst>, s: State, n: nat)
    requires Inv(p, s, n, n, 1)
    ensures s.committed <= s.pc <= |p|
  {
  }

  lemma FinishedIff(p: seq<Inst>, n: nat)
    ensures Finished(Run(p, n)) <==> Run(p, n).committed == |p|
  {
    hide Cycle;
    CommitsInOrder(p, n);
    var s := Run(p, n);
    var c := s.committed;
    if c < |p| { assert !(c < s.committed); assert s.stamps[c].commit == EMPTY; }
  }

  // ----- what each stage does to one station -----

  lemma {:induction false} WriteEffect(s: State, from: nat, k: nat)
    requires |s.rs| == STATIONS && |s.waiting| == REGS && from <= STATIONS && k < STATIONS
    requires (s.rs[k].phase != Unused ==> s.rs[k].inst < |s.stamps|) && s.cycle >= 0
    ensures var a := WriteFrom(s, from);
      && (s.rs[k].phase == Issued ==> a.rs[k] == s.rs[k].(qj := a.rs[k].qj, qk := a.rs[k].qk))
      && (s.rs[k].phase == Unused || s.rs[k].phase == Exec ==> a.rs[k] == s.rs[k])
      && (s.rs[k].phase == Done && from <= k ==> a.rs[k] == NO_STATION)
      && (forall i: nat :: i < |s.stamps| && s.stamps[i].writeback != EMPTY ==> a.stamps[i].writeback != EMPTY)
      && (s.rs[k].phase == Done && from <= k ==> a.stamps[s.rs[k].inst].writeback != EMPTY)
      && a.cycle == s.cycle && a.pc == s.pc
    decreases STATIONS - from
  {
    if from < STATIONS {
      WriteEffect(WriteOne(s, from), from + 1, k);
    }
  }

  lemma {:induction false} CompleteEffect(s: State, from: nat, k: nat)
    requires |s.rs| == STATIONS && from <= STATIONS && k < STATIONS
    requires s.rs[k].phase != Unused ==> s.rs[k].inst < |s.stamps|
    ensures var a := CompleteFrom(s, from);
      && (s.rs[k].phase == Exec && s.rs[k].left == 0 && from <= k ==> a.rs[k] == s.rs[k].(phase := Done))
      && (s.rs[k].phase != Exec || s.rs[k].left != 0 ==> a.rs[k] == s.rs[k])
      && (forall i: nat :: i < |s.stamps| ==> a.stamps[i].writeback == s.stamps[i].writeback)
      && a.cycle == s.cycle && a.pc == s.pc
    decreases STATIONS - from
  {
    if from < STATIONS {
      CompleteEffect(CompleteOne(s, from), from + 1, k);
    }
  }
}
