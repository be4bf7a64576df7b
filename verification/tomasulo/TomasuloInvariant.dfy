/** What every stage of the Tomasulo simulator keeps. */
module TomasuloInvariant {
  import opened Tomasulo

  // ----- the invariant -----

  predicate Live(s: State, k: nat) { k < |s.rs| && s.rs[k].phase != Unused }

  /** Station `k` will write register `r`. */
  predicate Producer(s: State, r: int, k: nat) { Live(s, k) && !IsStoreBank(k) && s.rs[k].dest == r }

  predicate Housed(s: State, i: nat, k: nat) { Live(s, k) && s.rs[k].inst == i }

  /** Each live station serves an issued instruction of its class that is not written back. */
  ghost predicate Stations(p: seq<Inst>, s: State)
    requires |s.rs| == STATIONS && |s.stamps| == |p|
  {
    forall k: nat :: Live(s, k) ==>
      && s.rs[k].inst < s.pc && s.rs[k].inst < |p|
      && var i := s.rs[k].inst;
         BankOf(p[i].op) <= k < BankOf(p[i].op) + BANK && s.rs[k].dest == p[i].dest && s.stamps[i].writeback == EMPTY
  }

  ghost predicate Distinct(s: State) {
    forall j: nat, k: nat :: Live(s, j) && Live(s, k) && s.rs[j].inst == s.rs[k].inst ==> j == k
  }

  ghost predicate AllHoused(s: State)
    requires s.pc <= |s.stamps|
  {
    forall i: nat :: i < s.pc && s.stamps[i].writeback == EMPTY ==> exists k: nat :: Housed(s, i, k)
  }

  /** The stamps of an instruction, none later than cycle `m`. */
  ghost predicate StampOk(p: seq<Inst>, s: State, m: int, i: nat)
    requires i < |s.stamps| == |p|
  {
    var t := s.stamps[i];
    && (i >= s.pc ==> t == NO_STAMP)
    && (i < s.pc ==> 1 <= t.issue <= m + 1 && t.issue <= s.cycle)
    && (t.execute != EMPTY ==> t.issue + Latency(p[i].op) <= t.execute && t.execute <= m)
    && (t.writeback != EMPTY ==> t.execute != EMPTY && t.writeback == t.execute + 1 && t.writeback <= m)
    && (t.commit != EMPTY <==> i < s.committed)
    && (t.commit != EMPTY ==> t.writeback != EMPTY && t.writeback < t.commit && t.commit <= m)
  }

  ghost predicate Stamps(p: seq<Inst>, s: State, m: int)
    requires |s.stamps| == |p|
  {
    && (forall i: nat :: i < |p| ==> StampOk(p, s, m, i))
    && (forall i: nat, j: nat :: i < j < s.committed && j < |p| ==> s.stamps[i].commit < s.stamps[j].commit)
  }

  /** A station's phase against the stamps of its instruction: a done one executed in cycle
      `t`, an executing one has at least `lo` cycles left. */
  ghost predicate PhaseOk(p: seq<Inst>, s: State, t: int, lo: int, k: nat)
    requires k < |s.rs| && s.rs[k].inst < |s.stamps| == |p|
  {
    var x := s.rs[k];
    var n := Latency(p[x.inst].op);
    && (x.phase == Done ==> s.stamps[x.inst].execute == t)
    && (x.phase == Exec || x.phase == Issued ==> s.stamps[x.inst].execute == EMPTY)
    && (x.phase == Issued ==> x.left == n)
    && (x.phase == Exec ==> lo <= x.left <= n && s.stamps[x.inst].issue + n <= s.cycle + x.left)
  }

  ghost predicate Phases(p: seq<Inst>, s: State, t: int, lo: int)
    requires |s.rs| == STATIONS && |s.stamps| == |p|
  {
    forall k: nat :: Live(s, k) ==> s.rs[k].inst < |p| && PhaseOk(p, s, t, lo, k)
  }

  /** An operand waits only while an earlier instruction that writes its register is live. */
  ghost predicate SourceOk(s: State, k: nat, q: int)
    requires k < |s.rs|
  {
    q != EMPTY ==> s.rs[k].phase == Issued && exists j: nat :: Producer(s, q, j) && s.rs[j].inst < s.rs[k].inst
  }

  ghost predicate Sources(s: State) {
    forall k: nat :: Live(s, k) ==>
      SourceOk(s, k, s.rs[k].qj) && SourceOk(s, k, s.rs[k].qk) && (!IsArithBank(k) ==> s.rs[k].qj == EMPTY && s.rs[k].qk == EMPTY)
  }

  /** A register waits only while an instruction that writes it is live. */
  ghost predicate Waits(s: State)
    requires |s.waiting| == REGS
  {
    forall r: nat :: r < REGS && s.waiting[r] ==> exists k: nat :: Producer(s, r, k)
  }

  /** Stations, operands and registers fit together. */
  ghost predicate Structure(p: seq<Inst>, s: State) {
    && |s.rs| == STATIONS && |s.waiting| == REGS && |s.stamps| == |p| && s.committed <= s.pc <= |p|
    && Stations(p, s) && Distinct(s) && AllHoused(s) && Sources(s) && Waits(s)
  }

  ghost predicate Inv(p: seq<Inst>, s: State, m: int, t: int, lo: int) {
    Structure(p, s) && Stamps(p, s, m) && Phases(p, s, t, lo)
  }

  // ----- stages that only change phases and stamps -----

  /** Same stations in use, for the same instructions and registers. */
  ghost predicate SameUse(s: State, a: State) {
    && |a.rs| == |s.rs| && a.pc == s.pc && a.waiting == s.waiting && |a.stamps| == |s.stamps|
    && (forall k: nat :: k < |s.rs| ==>
          (Live(a, k) <==> Live(s, k)) && a.rs[k].inst == s.rs[k].inst && a.rs[k].dest == s.rs[k].dest)
    && (forall i: nat :: i < |s.stamps| ==> a.stamps[i].writeback == s.stamps[i].writeback)
  }

  /** Operands wait for the same registers, and a station with one that waits stays issued. */
  ghost predicate SameSources(s: State, a: State) {
    && |a.rs| == |s.rs|
    && forall k: nat :: Live(s, k) ==>
         && a.rs[k].qj == s.rs[k].qj && a.rs[k].qk == s.rs[k].qk
         && (s.rs[k].phase == Issued && (s.rs[k].qj != EMPTY || s.rs[k].qk != EMPTY) ==> a.rs[k].phase == Issued)
  }

  lemma UseKeeps(p: seq<Inst>, s: State, a: State)
    requires Structure(p, s) && SameUse(s, a) && SameSources(s, a) && a.committed <= a.pc
    ensures Structure(p, a)
  {
    assert forall k: nat :: Live(a, k) <==> Live(s, k);
    UseKeepsHoused(p, s, a);
    UseKeepsSources(p, s, a);
  }

  lemma UseKeepsHoused(p: seq<Inst>, s: State, a: State)
    requires Structure(p, s) && SameUse(s, a)
    ensures AllHoused(a) && Waits(a)
  {
    hide Stations, Distinct, Sources;
    assert forall i: nat, k: nat :: Housed(a, i, k) <==> Housed(s, i, k);
    assert forall r: int, k: nat :: Producer(a, r, k) <==> Producer(s, r, k);
  }

  lemma UseKeepsSources(p: seq<Inst>, s: State, a: State)
    requires Structure(p, s) && SameUse(s, a) && SameSources(s, a)
    ensures Sources(a)
  {
    hide Stations, Distinct, Waits, AllHoused;
    assert forall r: int, k: nat :: Producer(a, r, k) <==> Producer(s, r, k);
    forall k: nat | Live(a, k)
      ensures SourceOk(a, k, a.rs[k].qj) && SourceOk(a, k, a.rs[k].qk)
    {
      assert Live(s, k);
      assert SourceOk(s, k, s.rs[k].qj) && SourceOk(s, k, s.rs[k].qk);
    }
  }

  // ----- countdown -----

  function Tick(s: State): State { s.(cycle := s.cycle + 1, rs := Countdown(s.rs)) }

  lemma TickKeeps(p: seq<Inst>, s: State)
    requires Inv(p, s, s.cycle, s.cycle, 1)
    ensures Inv(p, Tick(s), s.cycle, s.cycle, 0)
  {
    hide Stations, Distinct, AllHoused, Sources, Waits;
    var a := Tick(s);
    UseKeeps(p, s, a);
    forall i: nat | i < |p| ensures StampOk(p, a, s.cycle, i) {
      assert StampOk(p, s, s.cycle, i);
    }
    forall k: nat | Live(a, k) ensures a.rs[k].inst < |p| && PhaseOk(p, a, s.cycle, 0, k) {
      assert Live(s, k) && PhaseOk(p, s, s.cycle, 1, k);
    }
  }

  // ----- commit -----

  lemma CommitKeeps(p: seq<Inst>, s: State, t: int, lo: int)
    requires Inv(p, s, s.cycle - 1, t, lo)
    ensures Inv(p, Commit(s), s.cycle, t, lo)
    ensures Commit(s).committed ==
      if s.committed < |p| && s.stamps[s.committed].writeback != EMPTY then s.committed + 1 else s.committed
  {
    hide Stations, Distinct, AllHoused, Sources, Waits;
    var b, c := Commit(s), s.committed;
    if c < |p| { assert StampOk(p, s, s.cycle - 1, c); }
    if c > 0 { assert StampOk(p, s, s.cycle - 1, c - 1); }
    UseKeeps(p, s, b);
    CommitStamps(p, s, t, lo);
    forall k: nat | Live(b, k) ensures b.rs[k].inst < |p| && PhaseOk(p, b, t, lo, k) {
      assert Live(s, k) && PhaseOk(p, s, t, lo, k);
    }
  }

  lemma CommitStamps(p: seq<Inst>, s: State, t: int, lo: int)
    requires Inv(p, s, s.cycle - 1, t, lo)
    ensures Stamps(p, Commit(s), s.cycle)
  {
    hide Stations, Distinct, AllHoused, Sources, Waits, Phases;
    var b := Commit(s);
    forall i: nat | i < |p| ensures StampOk(p, b, s.cycle, i) {
      assert StampOk(p, s, s.cycle - 1, i);
    }
    forall i: nat, j: nat | i < j < b.committed && j < |p| ensures b.stamps[i].commit < b.stamps[j].commit {
      assert StampOk(p, s, s.cycle - 1, i);
    }
  }

  // ----- writeback -----

  lemma WriteOneStructure(p: seq<Inst>, s: State, k: nat)
    requires Structure(p, s) && k < STATIONS && s.cycle >= 0
    ensures Structure(p, WriteOne(s, k))
  {
    if s.rs[k].phase == Done {
      WriteOneStations(p, s, k);
      WriteOneHoused(p, s, k);
      WriteOneSources(p, s, k);
      hide Stations, Distinct, AllHoused, Sources, Waits;
    }
  }

  lemma WriteOneStations(p: seq<Inst>, s: State, k: nat)
    requires Structure(p, s) && k < STATIONS && s.rs[k].phase == Done
    ensures Stations(p, WriteOne(s, k)) && Distinct(WriteOne(s, k))
  {
    hide AllHoused, Sources, Waits;
    var a := WriteOne(s, k);
    assert Live(s, k);
    assert forall j: nat :: Live(a, j) ==> Live(s, j) && j != k && a.rs[j].inst == s.rs[j].inst && a.rs[j].dest == s.rs[j].dest;
  }

  lemma WriteOneHoused(p: seq<Inst>, s: State, k: nat)
    requires Structure(p, s) && k < STATIONS && s.rs[k].phase == Done && s.cycle >= 0
    ensures AllHoused(WriteOne(s, k)) && Waits(WriteOne(s, k))
  {
    hide Distinct, Sources;
    var a := WriteOne(s, k);
    var x := s.rs[k];
    assert Live(s, k);
    assert forall i: nat, j: nat :: Housed(a, i, j) <==> Housed(s, i, j) && j != k;
    assert forall r: int, j: nat :: Producer(a, r, j) <==> Producer(s, r, j) && j != k;
    forall i: nat | i < a.pc && a.stamps[i].writeback == EMPTY ensures exists j: nat :: Housed(a, i, j) {
      assert i != x.inst && s.stamps[i].writeback == EMPTY;
      var j: nat :| Housed(s, i, j);
      assert Housed(a, i, j);
    }
    forall r: nat | r < REGS && a.waiting[r] ensures exists j: nat :: Producer(a, r, j) {
      assert r != x.dest && s.waiting[r];
      var j: nat :| Producer(s, r, j);
      assert Producer(a, r, j);
    }
  }

  lemma WriteOneSources(p: seq<Inst>, s: State, k: nat)
    requires Structure(p, s) && k < STATIONS && s.rs[k].phase == Done
    ensures Sources(WriteOne(s, k))
  {
    hide AllHoused, Waits, Distinct;
    var a := WriteOne(s, k);
    assert Live(s, k);
    assert forall r: int, i: nat :: Producer(a, r, i) <==> Producer(s, r, i) && i != k;
    forall j: nat | Live(a, j)
      ensures SourceOk(a, j, a.rs[j].qj) && SourceOk(a, j, a.rs[j].qk)
      ensures !IsArithBank(j) ==> a.rs[j].qj == EMPTY && a.rs[j].qk == EMPTY
    {
      assert Live(s, j) && j != k;
      assert SourceOk(s, j, s.rs[j].qj) && SourceOk(s, j, s.rs[j].qk);
      if a.rs[j].qj != EMPTY { WaitsElsewhere(s, k, j, a.rs[j].qj); }
      if a.rs[j].qk != EMPTY { WaitsElsewhere(s, k, j, a.rs[j].qk); }
    }
  }

  /** An operand still waiting after the broadcast of station `k` waits for another station. */
  lemma WaitsElsewhere(s: State, k: nat, j: nat, q: int)
    requires k < |s.rs| && j < |s.rs| && |s.waiting| == REGS && s.rs[k].inst < |s.stamps|
    requires s.rs[k].phase == Done && j != k
    requires SourceOk(s, j, q) && q != EMPTY && (IsStoreBank(k) || q != s.rs[k].dest)
    ensures SourceOk(WriteOne(s, k), j, q)
  {
    var a := WriteOne(s, k);
    var i: nat :| Producer(s, q, i) && s.rs[i].inst < s.rs[j].inst;
    assert Producer(a, q, i) && a.rs[i].inst < a.rs[j].inst;
  }

  lemma WriteOneKeeps(p: seq<Inst>, s: State, k: nat)
    requires Inv(p, s, s.cycle, s.cycle - 1, 0) && s.cycle >= 1 && k < STATIONS
    ensures Inv(p, WriteOne(s, k), s.cycle, s.cycle - 1, 0)
  {
    var a := WriteOne(s, k);
    WriteOneStructure(p, s, k);
    if s.rs[k].phase == Done {
      assert Live(s, k) && PhaseOk(p, s, s.cycle - 1, 0, k);
      WriteOneMarks(p, s, k);
    }
  }

  lemma WriteOneMarks(p: seq<Inst>, s: State, k: nat)
    requires Inv(p, s, s.cycle, s.cycle - 1, 0) && s.cycle >= 1 && k < STATIONS
    requires s.rs[k].phase == Done && s.rs[k].inst < s.pc && s.stamps[s.rs[k].inst].execute == s.cycle - 1
    requires s.stamps[s.rs[k].inst].writeback == EMPTY
    ensures Stamps(p, WriteOne(s, k), s.cycle) && Phases(p, WriteOne(s, k), s.cycle - 1, 0)
  {
    hide Stations, Distinct, AllHoused, Sources, Waits;
    var a := WriteOne(s, k);
    var x := s.rs[k];
    forall i: nat | i < |p| ensures StampOk(p, a, s.cycle, i) {
      assert StampOk(p, s, s.cycle, i);
    }
    forall i: nat, j: nat | i < j < a.committed && j < |p| ensures a.stamps[i].commit < a.stamps[j].commit {
      assert s.stamps[i].commit < s.stamps[j].commit;
    }
    forall j: nat | Live(a, j) ensures a.rs[j].inst < |p| && PhaseOk(p, a, s.cycle - 1, 0, j) {
      assert Live(s, j) && PhaseOk(p, s, s.cycle - 1, 0, j);
    }
  }

  /** No station below `k` is done. */
  predicate NoneDone(s: State, k: nat) { forall j: nat :: j < k && j < |s.rs| ==> s.rs[j].phase != Done }

  lemma {:induction false} WriteKeeps(p: seq<Inst>, s: State, k: nat)
    requires Inv(p, s, s.cycle, s.cycle - 1, 0) && s.cycle >= 1 && k <= STATIONS && NoneDone(s, k)
    ensures var a := WriteFrom(s, k);
      && Inv(p, a, s.cycle, s.cycle, 0) && a.cycle == s.cycle && a.pc == s.pc && a.committed == s.committed
      && NoneDone(a, STATIONS)
    decreases STATIONS - k
  {
    hide Stations, Distinct, AllHoused, Sources, Waits, Stamps;
    if k < STATIONS {
      WriteOneKeeps(p, s, k);
      assert s.rs[k].phase == Done ==> Live(s, k);
      WriteKeeps(p, WriteOne(s, k), k + 1);
    } else {
      forall j: nat | Live(s, j) ensures PhaseOk(p, s, s.cycle, 0, j) {
        assert PhaseOk(p, s, s.cycle - 1, 0, j);
      }
    }
  }

  // ----- completion -----

  lemma CompleteOneKeeps(p: seq<Inst>, s: State, k: nat)
    requires Inv(p, s, s.cycle, s.cycle, 0) && s.cycle >= 1 && k < STATIONS
    ensures Inv(p, CompleteOne(s, k), s.cycle, s.cycle, 0)
  {
    hide Stations, Distinct, AllHoused, Sources, Waits;
    var a := CompleteOne(s, k);
    var x := s.rs[k];
    UseKeeps(p, s, a);
    if Live(s, k) {
      assert PhaseOk(p, s, s.cycle, 0, k);
      assert StampOk(p, s, s.cycle, x.inst);
      OtherInst(p, s, k);
      LiveIssued(p, s, k);
    }
    forall i: nat | i < |p| ensures StampOk(p, a, s.cycle, i) {
      assert StampOk(p, s, s.cycle, i);
    }
    forall j: nat | Live(a, j) ensures a.rs[j].inst < |p| && PhaseOk(p, a, s.cycle, 0, j) {
      assert Live(s, j) && PhaseOk(p, s, s.cycle, 0, j);
    }
  }

  lemma OtherInst(p: seq<Inst>, s: State, k: nat)
    requires Structure(p, s) && Live(s, k)
    ensures forall j: nat :: Live(s, j) && j != k ==> s.rs[j].inst != s.rs[k].inst
  {
  }

  lemma LiveIssued(p: seq<Inst>, s: State, k: nat)
    requires Structure(p, s) && Live(s, k)
    ensures s.rs[k].inst < s.pc && s.stamps[s.rs[k].inst].writeback == EMPTY
  {
  }

  /** Every executing station below `k` has at least one cycle left. */
  predicate NoneSpent(s: State, k: nat) {
    forall j: nat :: j < k && j < |s.rs| && s.rs[j].phase == Exec ==> s.rs[j].left != 0
  }

  lemma {:induction false} CompleteKeeps(p: seq<Inst>, s: State, k: nat)
    requires Inv(p, s, s.cycle, s.cycle, 0) && s.cycle >= 1 && k <= STATIONS && NoneSpent(s, k)
    ensures var a := CompleteFrom(s, k);
      Inv(p, a, s.cycle, s.cycle, 1) && a.cycle == s.cycle && a.pc == s.pc && a.committed == s.committed
    decreases STATIONS - k
  {
    hide Stations, Distinct, AllHoused, Sources, Waits, Stamps;
    if k < STATIONS {
      CompleteOneKeeps(p, s, k);
      assert s.rs[k].phase == Exec ==> Live(s, k);
      CompleteKeeps(p, CompleteOne(s, k), k + 1);
    } else {
      forall j: nat | Live(s, j) ensures PhaseOk(p, s, s.cycle, 1, j) {
        assert PhaseOk(p, s, s.cycle, 0, j);
      }
    }
  }

  // ----- register marking -----

  lemma {:induction false} MarkKeeps(p: seq<Inst>, s: State, w: seq<bool>, k: nat)
    requires |s.rs| == STATIONS && |w| == REGS && k <= STATIONS && Waits(s.(waiting := w))
    ensures Waits(s.(waiting := MarkFrom(s.rs, w, k)))
    decreases STATIONS - k
  {
    if k < STATIONS {
      var a, b := s.(waiting := w), s.(waiting := if Marks(s.rs[k], k) then w[s.rs[k].dest := true] else w);
      assert forall r: int, j: nat :: Producer(b, r, j) <==> Producer(a, r, j);
      if Marks(s.rs[k], k) { assert Producer(b, s.rs[k].dest, k); }
      MarkKeeps(p, s, b.waiting, k + 1);
    }
  }

  lemma MarkAllKeeps(p: seq<Inst>, s: State, m: int, t: int, lo: int)
    requires Inv(p, s, m, t, lo)
    ensures Inv(p, s.(waiting := MarkFrom(s.rs, s.waiting, 0)), m, t, lo)
  {
    var a := s.(waiting := MarkFrom(s.rs, s.waiting, 0));
    MarkKeeps(p, s, s.waiting, 0);
    assert s.(waiting := s.waiting) == s;
    assert forall k: nat :: Live(a, k) <==> Live(s, k);
    MarkSame(p, s, a);
    hide Stations, Distinct, AllHoused, Sources, Waits;
    forall i: nat | i < |p| ensures StampOk(p, a, m, i) { assert StampOk(p, s, m, i); }
    forall k: nat | Live(a, k) ensures a.rs[k].inst < |p| && PhaseOk(p, a, t, lo, k) {
      assert Live(s, k) && PhaseOk(p, s, t, lo, k);
    }
  }

  lemma MarkSame(p: seq<Inst>, s: State, a: State)
    requires Structure(p, s) && |a.waiting| == REGS && a == s.(waiting := a.waiting)
    ensures AllHoused(a) && Sources(a)
  {
    hide Stations, Distinct, Waits;
    assert forall i: nat, k: nat :: Housed(a, i, k) <==> Housed(s, i, k);
    assert forall r: int, k: nat :: Producer(a, r, k) <==> Producer(s, r, k);
    forall k: nat | Live(a, k)
      ensures SourceOk(a, k, a.rs[k].qj) && SourceOk(a, k, a.rs[k].qk)
    {
      assert Live(s, k);
      assert SourceOk(s, k, s.rs[k].qj) && SourceOk(s, k, s.rs[k].qk);
    }
  }

  // ----- issue -----

  lemma IssueKeeps(p: seq<Inst>, s: State)
    requires Inv(p, s, s.cycle, s.cycle, 1) && s.cycle >= 1
    ensures Inv(p, Issue(p, s), s.cycle, s.cycle, 1)
  {
    var a := Issue(p, s);
    if a != s {
      var k := IssueSlot(p, s);
      IssueStations(p, s, k);
      IssueHoused(p, s, k);
      IssueSources(p, s, k);
      IssueStamps(p, s, k);
      hide Stations, Distinct, AllHoused, Sources, Waits, Stamps, Phases, Issue;
    }
  }

  lemma IssueStamps(p: seq<Inst>, s: State, k: nat)
    requires Inv(p, s, s.cycle, s.cycle, 1) && s.cycle >= 1 && Gives(p, s, k)
    ensures Stamps(p, Issue(p, s), s.cycle) && Phases(p, Issue(p, s), s.cycle, 1)
  {
    hide Stations, Distinct, AllHoused, Sources, Waits, Issue;
    var a := Issue(p, s);
    assert StampOk(p, s, s.cycle, s.pc);
    forall i: nat | i < |p| ensures StampOk(p, a, s.cycle, i) {
      assert StampOk(p, s, s.cycle, i);
    }
    forall j: nat | Live(a, j) ensures a.rs[j].inst < |p| && PhaseOk(p, a, s.cycle, 1, j) {
      if j != k { assert Live(s, j) && PhaseOk(p, s, s.cycle, 1, j); LiveIssued(p, s, j); }
    }
  }

  /** The station an issued instruction is given. */
  predicate Gives(p: seq<Inst>, s: State, k: nat)
    requires |s.rs| == STATIONS && |s.waiting| == REGS && |s.stamps| == |p|
  {
    && s.pc < |p| && BankOf(p[s.pc].op) <= k < BankOf(p[s.pc].op) + BANK && s.rs[k].phase == Unused
    && Issue(p, s) ==
         s.(rs := s.rs[k := Filled(p[s.pc], s.pc, s.waiting)],
            waiting := if p[s.pc].op == SW then s.waiting else s.waiting[p[s.pc].dest := true],
            stamps := s.stamps[s.pc := s.stamps[s.pc].(issue := s.cycle)], pc := s.pc + 1)
  }

  lemma IssueSlot(p: seq<Inst>, s: State) returns (k: nat)
    requires Structure(p, s) && Issue(p, s) != s
    ensures Gives(p, s, k)
  {
    var i := p[s.pc];
    k := FindIdle(s.rs, BankOf(i.op), BankOf(i.op) + BANK);
  }

  lemma IssueStations(p: seq<Inst>, s: State, k: nat)
    requires Structure(p, s) && Stamps(p, s, s.cycle) && Gives(p, s, k)
    ensures Stations(p, Issue(p, s)) && Distinct(Issue(p, s))
  {
    hide AllHoused, Sources, Waits, Issue;
    var a := Issue(p, s);
    assert StampOk(p, s, s.cycle, s.pc);
    assert forall j: nat :: Live(a, j) <==> Live(s, j) || j == k;
    assert forall j: nat :: Live(s, j) ==> j != k && a.rs[j] == s.rs[j];
  }

  lemma IssueHoused(p: seq<Inst>, s: State, k: nat)
    requires Structure(p, s) && Gives(p, s, k)
    ensures AllHoused(Issue(p, s)) && Waits(Issue(p, s))
  {
    hide Stations, Distinct, Sources, Issue;
    var a := Issue(p, s);
    assert forall i: nat, j: nat :: Housed(s, i, j) ==> Housed(a, i, j);
    assert forall r: int, j: nat :: Producer(s, r, j) ==> Producer(a, r, j);
    assert Housed(a, s.pc, k);
    assert p[s.pc].op != SW ==> Producer(a, p[s.pc].dest, k);
    forall i: nat | i < a.pc && a.stamps[i].writeback == EMPTY ensures exists j: nat :: Housed(a, i, j) {
      if i != s.pc {
        var j: nat :| Housed(s, i, j);
        assert Housed(a, i, j);
      }
    }
    forall r: nat | r < REGS && a.waiting[r] ensures exists j: nat :: Producer(a, r, j) {
      if s.waiting[r] {
        var j: nat :| Producer(s, r, j);
        assert Producer(a, r, j);
      }
    }
  }

  lemma IssueSources(p: seq<Inst>, s: State, k: nat)
    requires Structure(p, s) && Gives(p, s, k)
    ensures Sources(Issue(p, s))
  {
    hide Distinct, AllHoused, Issue;
    var a := Issue(p, s);
    forall j: nat | Live(a, j)
      ensures SourceOk(a, j, a.rs[j].qj) && SourceOk(a, j, a.rs[j].qk)
      ensures !IsArithBank(j) ==> a.rs[j].qj == EMPTY && a.rs[j].qk == EMPTY
    {
      if j == k {
        IssuedSource(p, s, k, a.rs[k].qj);
        IssuedSource(p, s, k, a.rs[k].qk);
      } else {
        assert Live(s, j);
        KeptSource(p, s, k, j, s.rs[j].qj);
        KeptSource(p, s, k, j, s.rs[j].qk);
      }
    }
  }

  lemma KeptSource(p: seq<Inst>, s: State, k: nat, j: nat, q: int)
    requires Structure(p, s) && Gives(p, s, k) && Live(s, j) && SourceOk(s, j, q)
    ensures SourceOk(Issue(p, s), j, q)
  {
    hide Stations, Distinct, AllHoused, Sources, Waits, Issue;
    var a := Issue(p, s);
    if q != EMPTY {
      var i: nat :| Producer(s, q, i) && s.rs[i].inst < s.rs[j].inst;
      assert Producer(a, q, i) && a.rs[i].inst < a.rs[j].inst;
    }
  }

  lemma IssuedSource(p: seq<Inst>, s: State, k: nat, q: int)
    requires Structure(p, s) && Gives(p, s, k)
    requires q == EMPTY || (0 <= q < REGS && s.waiting[q] && Issue(p, s).rs[k].phase == Issued)
    ensures SourceOk(Issue(p, s), k, q)
  {
    hide Distinct, AllHoused, Sources, Issue;
    var a := Issue(p, s);
    if q != EMPTY {
      var i: nat :| Producer(s, q, i);
      assert Live(s, i);
      assert Producer(a, q, i) && a.rs[i].inst < a.rs[k].inst;
    }
  }

  // ----- ready check -----

  lemma ReadyKeeps(p: seq<Inst>, s: State)
    requires Inv(p, s, s.cycle, s.cycle, 1) && s.cycle >= 1
    ensures Inv(p, Ready(p, s), s.cycle, s.cycle, 1)
  {
    hide Stations, Distinct, AllHoused, Waits, CheckReg;
    var a := Ready(p, s);
    forall k: nat | Live(s, k) && MayStart(p, s, k) ensures s.rs[k].qj == EMPTY && s.rs[k].qk == EMPTY {
    }
    assert SameSources(s, a);
    UseKeeps(p, s, a);
    hide Sources;
    forall i: nat | i < |p| ensures StampOk(p, a, s.cycle, i) {
      assert StampOk(p, s, s.cycle, i);
    }
    forall k: nat | Live(a, k) ensures a.rs[k].inst < |p| && PhaseOk(p, a, s.cycle, 1, k) {
      assert Live(s, k) && PhaseOk(p, s, s.cycle, 1, k);
      LiveIssued(p, s, k);
      assert StampOk(p, s, s.cycle, s.rs[k].inst);
    }
  }

  // ----- a cycle -----

  lemma MiddleKeeps(p: seq<Inst>, s: State)
    requires Inv(p, s, s.cycle, s.cycle, 1)
    ensures var m := Middle(s);
      && Inv(p, m, m.cycle, m.cycle, 1) && m.cycle == s.cycle + 1 && m.pc == s.pc
      && m.committed == if s.committed < |p| && s.stamps[s.committed].writeback != EMPTY then s.committed + 1 else s.committed
  {
    hide Stations, Distinct, AllHoused, Sources, Waits, Stamps, Phases, Countdown, Commit, WriteFrom, CompleteFrom, MarkFrom;
    var a := Tick(s);
    TickKeeps(p, s);
    CommitKeeps(p, a, s.cycle, 0);
    var b := Commit(a);
    CommitFields(a);
    WriteKeeps(p, b, 0);
    var c := WriteFrom(b, 0);
    CompleteKeeps(p, c, 0);
    var d := CompleteFrom(c, 0);
    MarkAllKeeps(p, d, s.cycle + 1, s.cycle + 1, 1);
  }

  lemma CommitFields(s: State)
    requires s.committed <= |s.stamps|
    ensures var b := Commit(s); b.cycle == s.cycle && b.pc == s.pc && b.rs == s.rs && |b.stamps| == |s.stamps|
  {
  }

  /** Every stage together: a cycle keeps the invariant, and commits the oldest instruction if
      it is written back. */
  lemma CycleKeeps(p: seq<Inst>, s: State)
    requires Inv(p, s, s.cycle, s.cycle, 1) && s.cycle >= 0
    ensures var a := Cycle(p, s);
      && Inv(p, a, a.cycle, a.cycle, 1) && a.cycle == s.cycle + 1
      && a.committed == if s.committed < |p| && s.stamps[s.committed].writeback != EMPTY then s.committed + 1 else s.committed
  {
    hide Stations, Distinct, AllHoused, Sources, Waits, Stamps, Phases, Middle, MayStart, FindIdle;
    MiddleKeeps(p, s);
    var m := Middle(s);
    IssueKeeps(p, m);
    ReadyKeeps(p, Issue(p, m));
  }

  lemma StartKeeps(p: seq<Inst>)
    ensures Inv(p, Start(p), 0, 0, 1)
  {
  }
}
