/** A store and a later instruction that overwrites the stored register can wait for each other. */
module TomasuloOverwrite {
  import opened Tomasulo
  import opened TomasuloInvariant
  import opened TomasuloRun
  import opened TomasuloFinish
  import opened TomasuloJam

  /** Station `k` holds a store not started, station `j` a later arithmetic instruction, not
      started either, that writes the stored register. */
  predicate Embrace(s: State, k: nat, j: nat) {
    && k < |s.rs| && j < |s.rs| && IsStoreBank(k) && IsArithBank(j)
    && s.rs[k].phase == Issued && s.rs[j].phase == Issued
    && s.rs[k].dest == s.rs[j].dest && s.rs[k].inst < s.rs[j].inst
  }

  lemma EmbraceMiddle(p: seq<Inst>, s: State, k: nat, j: nat)
    requires Inv(p, s, s.cycle, s.cycle, 1) && s.cycle >= 0 && Embrace(s, k, j)
    ensures Embrace(Middle(s), k, j) && Middle(s).waiting[Middle(s).rs[j].dest]
  {
    hide Stations, Distinct, AllHoused, Sources, Waits, Stamps, Phases, WriteFrom, CompleteFrom, MarkFrom, Countdown;
    PhaseNeverSpent(p, s, k);
    PhaseNeverSpent(p, s, j);
    MiddleAdvances(p, s, k);
    MiddleAdvances(p, s, j);
    var c := CompleteFrom(WriteFrom(Commit(s.(cycle := s.cycle + 1, rs := Countdown(s.rs))), 0), 0);
    MarksSet(c.rs, c.waiting, 0, j);
  }

  lemma EmbraceTail(p: seq<Inst>, m: State, k: nat, j: nat)
    requires Inv(p, m, m.cycle, m.cycle, 1) && m.cycle >= 1 && Embrace(m, k, j) && m.waiting[m.rs[j].dest]
    ensures Embrace(Ready(p, Issue(p, m)), k, j)
  {
    hide Distinct, AllHoused, Sources, Waits, Phases;
    var i := Issue(p, m);
    IssueKeeps(p, m);
    assert Live(i, k) && Live(i, j);
    var c := i.rs[k].inst;
    assert StampOk(p, i, i.cycle, c);
    assert i.stamps[c].commit == EMPTY && p[c].dest == i.rs[j].dest;
    assert !CheckReg(p, i.stamps, i.rs[j].inst, i.rs[j].dest);
  }

  /** Neither of the two ever starts, so the run never finishes. */
  lemma {:induction false} EmbraceForever(p: seq<Inst>, n: nat, m: nat, k: nat, j: nat)
    requires n <= m && Embrace(Run(p, n), k, j)
    ensures Embrace(Run(p, m), k, j) && !Finished(Run(p, m))
    decreases m - n
  {
    hide Middle, Issue, Ready, Stations, Distinct, AllHoused, Sources, Waits, Stamps, Phases;
    RunInv(p, n);
    var s := Run(p, n);
    if n < m {
      MiddleKeeps(p, s);
      EmbraceMiddle(p, s, k, j);
      EmbraceTail(p, Middle(s), k, j);
      EmbraceForever(p, n + 1, m, k, j);
    } else {
      Unfinished(p, s, k);
    }
  }

  lemma Unfinished(p: seq<Inst>, s: State, k: nat)
    requires Inv(p, s, s.cycle, s.cycle, 1) && Live(s, k)
    ensures !Finished(s)
  {
    hide Distinct, AllHoused, Sources, Waits, Phases;
    assert StampOk(p, s, s.cycle, s.rs[k].inst);
  }

  /** A product stored and then added to: F0 is register 0, F2 is 1, F4 is 2, F6 is 3. */
  const OVERWRITE: seq<Inst> := [Inst(MUL, 0, 1, 2), Inst(SW, 0, 0, 0), Inst(ADD, 0, 0, 3)]

  predicate OnlyUsed(s: State, used: set<nat>) {
    |s.rs| == STATIONS && forall k: nat :: k < STATIONS && k !in used ==> s.rs[k].phase == Unused
  }

  lemma Round0()
    ensures var s := Run(OVERWRITE, 0);
      && s.pc == 0 && s.committed == 0 && OnlyUsed(s, {}) && s.stamps[0].writeback == EMPTY && s.cycle == 0
      && (forall r: Reg :: !s.waiting[r])
  {
    hide Cycle;
  }

  lemma Round1()
    ensures var s := Run(OVERWRITE, 1);
      && s.pc == 1 && s.committed == 0 && OnlyUsed(s, {9}) && s.waiting[0] && s.stamps[0].writeback == EMPTY
      && s.rs[9] == Station(Exec, 0, 0, EMPTY, EMPTY, MUL_CYCLE)
  {
    Round0();
    hide Middle, Run, MarkFrom;
    var s := Run(OVERWRITE, 0);
    MiddleQuiet(s);
    NoMarks(Countdown(s.rs), s.waiting, 0);
    RunNext(OVERWRITE, 0);
  }

  lemma {:induction false} NoMarks(rs: seq<Station>, w: seq<bool>, k: nat)
    requires k <= |rs| && |w| == REGS && forall j :: 0 <= j < |rs| ==> rs[j].phase == Unused
    ensures MarkFrom(rs, w, k) == w
    decreases |rs| - k
  {
    if k < |rs| { NoMarks(rs, w, k + 1); }
  }

  lemma Round2()
    ensures var s := Run(OVERWRITE, 2);
      && s.pc == 2 && s.committed == 0 && OnlyUsed(s, {3, 9}) && s.waiting[0] && s.stamps[0].writeback == EMPTY
      && s.rs[9] == Station(Exec, 0, 0, EMPTY, EMPTY, MUL_CYCLE - 1)
      && s.rs[3] == Station(Issued, 1, 0, EMPTY, EMPTY, SW_CYCLE)
  {
    Round1();
    hide Middle, Run, MarkFrom;
    var s := Run(OVERWRITE, 1);
    MiddleQuiet(s);
    MarksStay(Countdown(s.rs), s.waiting, 0, 0);
    RunNext(OVERWRITE, 1);
  }

  lemma RunNext(p: seq<Inst>, n: nat)
    ensures Run(p, n + 1) == Ready(p, Issue(p, Middle(Run(p, n))))
  {
    hide Middle, Issue, Ready;
  }

  lemma Round3()
    ensures Embrace(Run(OVERWRITE, 3), 3, 6)
  {
    Round2();
    hide Middle, Run, MarkFrom;
    var s := Run(OVERWRITE, 2);
    MiddleQuiet(s);
    MarksStay(Countdown(s.rs), s.waiting, 0, 0);
    RunNext(OVERWRITE, 2);
  }

  /** MUL F0,F2,F4; SW F0; ADD F0,F0,F6 never finishes. */
  lemma OverwriteNeverFinishes(n: nat)
    ensures !NoOverwrite(OVERWRITE) && !Finished(Run(OVERWRITE, n))
  {
    hide Cycle, Embrace;
    Round3();
    if n >= 3 {
      EmbraceForever(OVERWRITE, 3, n, 3, 6);
    } else {
      EmbraceForever(OVERWRITE, 3, 3, 3, 6);
      FinishedIff(OVERWRITE, 3);
      FinishedIff(OVERWRITE, n);
      CommittedGrows(OVERWRITE, n, 3);
    }
    assert OVERWRITE[1].op == SW && OVERWRITE[2].op != SW && OVERWRITE[1].dest == OVERWRITE[2].dest;
  }
}
