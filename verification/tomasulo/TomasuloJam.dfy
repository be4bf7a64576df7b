/** Every run either finishes or jams, and a jam is always a store that waits for a later
    instruction which waits for the store. */
module TomasuloJam {
  import opened Tomasulo
  import opened TomasuloInvariant
  import opened TomasuloRun
  import opened TomasuloFinish

  /** No station works, the oldest instruction is not written back, and nothing can be issued. */
  predicate Jam(p: seq<Inst>, s: State)
    requires |s.rs| == STATIONS && |s.stamps| == |p|
  {
    && s.committed < |p| && s.stamps[s.committed].writeback == EMPTY
    && (forall k :: 0 <= k < STATIONS ==> s.rs[k].phase == Unused || s.rs[k].phase == Issued)
    && (s.pc < |p| ==> FindIdle(s.rs, BankOf(p[s.pc].op), BankOf(p[s.pc].op) + BANK) == EMPTY)
  }

  // ----- a jam lasts -----

  lemma {:induction false} NothingToWrite(s: State, k: nat)
    requires k <= |s.rs| && |s.waiting| == REGS && forall j :: 0 <= j < |s.rs| ==> s.rs[j].phase != Done
    ensures WriteFrom(s, k) == s
    decreases |s.rs| - k
  {
    if k < |s.rs| { NothingToWrite(s, k + 1); }
  }

  lemma {:induction false} NothingToComplete(s: State, k: nat)
    requires k <= |s.rs| && forall j :: 0 <= j < |s.rs| && s.rs[j].phase == Exec ==> s.rs[j].left != 0
    ensures CompleteFrom(s, k) == s
    decreases |s.rs| - k
  {
    if k < |s.rs| { NothingToComplete(s, k + 1); }
  }

  lemma {:induction false} MarksStay(rs: seq<Station>, w: seq<bool>, k: nat, r: Reg)
    requires k <= |rs| && |w| == REGS && w[r]
    ensures MarkFrom(rs, w, k)[r]
    decreases |rs| - k
  {
    if k < |rs| { MarksStay(rs, if Marks(rs[k], k) then w[rs[k].dest := true] else w, k + 1, r); }
  }

  lemma {:induction false} MarksSet(rs: seq<Station>, w: seq<bool>, k: nat, j: nat)
    requires k <= j < |rs| && |w| == REGS && Marks(rs[j], j)
    ensures MarkFrom(rs, w, k)[rs[j].dest]
    decreases |rs| - k
  {
    var v := if Marks(rs[k], k) then w[rs[k].dest := true] else w;
    if k < j { MarksSet(rs, v, k + 1, j); } else { MarksStay(rs, v, k + 1, rs[j].dest); }
  }

  /** The middle of a cycle in which nothing completes, is written back or commits. */
  lemma MiddleQuiet(s: State)
    requires |s.rs| == STATIONS && |s.waiting| == REGS && s.committed < |s.stamps|
    requires s.stamps[s.committed].writeback == EMPTY
    requires forall k :: 0 <= k < STATIONS ==> s.rs[k].phase != Done && (s.rs[k].phase == Exec ==> s.rs[k].left != 1)
    ensures var rs := Countdown(s.rs);
      Middle(s) == s.(cycle := s.cycle + 1, rs := rs, waiting := MarkFrom(rs, s.waiting, 0))
  {
    hide MarkFrom;
    var a := s.(cycle := s.cycle + 1, rs := Countdown(s.rs));
    NothingToWrite(a, 0);
    NothingToComplete(a, 0);
  }

  ghost predicate NoneMayStart(p: seq<Inst>, s: State)
    requires |s.rs| == STATIONS && |s.stamps| == |p| && |s.waiting| == REGS
  {
    forall k: nat :: k < STATIONS ==> !MayStart(p, s, k)
  }

  /** After a ready check no issued station could have started but did not. */
  lemma ReadyLeavesNone(p: seq<Inst>, s: State)
    requires |s.rs| == STATIONS && |s.stamps| == |p| && |s.waiting| == REGS
    ensures NoneMayStart(p, Ready(p, s))
  {
    hide CheckReg;
    var a := Ready(p, s);
    forall k: nat | k < STATIONS ensures !MayStart(p, a, k) {
      assert a.stamps == s.stamps && a.waiting == s.waiting;
    }
  }

  lemma CycleLeavesNone(p: seq<Inst>, s: State)
    requires |s.rs| == STATIONS && |s.waiting| == REGS && s.committed <= |s.stamps| == |p|
    ensures NoneMayStart(p, Cycle(p, s))
  {
    hide Middle, Issue, Ready, NoneMayStart;
    ReadyLeavesNone(p, IssueOf(p, s));
  }

  function IssueOf(p: seq<Inst>, s: State): (t: State)
    requires |s.rs| == STATIONS && |s.waiting| == REGS && s.committed <= |s.stamps| == |p|
    ensures |t.rs| == STATIONS && |t.waiting| == REGS && |t.stamps| == |p|
  {
    Issue(p, Middle(s))
  }

  /** A cycle changes nothing in a jammed state but the clock and some marks. */
  lemma JamLasts(p: seq<Inst>, s: State)
    requires |s.rs| == STATIONS && |s.waiting| == REGS && s.committed <= |s.stamps| == |p|
    requires Jam(p, s) && NoneMayStart(p, s)
    ensures var a := Cycle(p, s); a == s.(cycle := s.cycle + 1, waiting := a.waiting) && Jam(p, a)
  {
    hide CheckReg, MarkFrom, Middle;
    MiddleQuiet(s);
    assert Countdown(s.rs) == s.rs;
    var m := Middle(s);
    assert Issue(p, m) == m;
    forall k: nat | k < STATIONS ensures !MayStart(p, m, k) {
      assert !MayStart(p, s, k);
      if s.waiting[s.rs[k].dest] { MarksStay(s.rs, s.waiting, 0, s.rs[k].dest); }
    }
    assert Ready(p, m).rs == m.rs;
  }

  lemma {:induction false} JamForever(p: seq<Inst>, n: nat, m: nat)
    requires n <= m && Jam(p, Run(p, n))
    ensures Jam(p, Run(p, m)) && Run(p, m).committed == Run(p, n).committed && !Finished(Run(p, m))
    decreases m - n
  {
    hide Cycle, Jam, MayStart;
    if n < m {
      RunLeavesNone(p, n);
      JamLasts(p, Run(p, n));
      JamForever(p, n + 1, m);
    } else {
      FinishedIff(p, n);
      JamUnfinished(p, Run(p, n));
    }
  }

  lemma JamUnfinished(p: seq<Inst>, s: State)
    requires |s.rs| == STATIONS && |s.stamps| == |p| && Jam(p, s)
    ensures s.committed < |p|
  {
  }

  lemma RunLeavesNone(p: seq<Inst>, n: nat)
    ensures NoneMayStart(p, Run(p, n))
  {
    hide Cycle;
    if n > 0 { CycleLeavesNone(p, Run(p, n - 1)); }
  }

  // ----- the shape of a jam -----

  /** The oldest uncommitted instruction is a store that waits, though every instruction before it
      has committed: an instruction after it is to write the register it stores. */
  ghost predicate StoreWaits(p: seq<Inst>, s: State)
    requires |s.rs| == STATIONS && |s.waiting| == REGS
  {
    && s.committed < |p| && p[s.committed].op == SW && s.waiting[p[s.committed].dest]
    && (exists k: nat :: Housed(s, s.committed, k) && s.rs[k].phase == Issued)
    && (exists j: nat :: Producer(s, p[s.committed].dest, j) && s.rs[j].phase == Issued && s.rs[j].inst > s.committed)
  }

  lemma JamIsStore(p: seq<Inst>, s: State)
    requires Inv(p, s, s.cycle, s.cycle, 1) && Jam(p, s) && NoneMayStart(p, s)
    ensures StoreWaits(p, s)
  {
    hide Stations, Distinct, Sources, Waits, Stamps, Phases, MayStart;
    var c := s.committed;
    NoneOlder(p, s);
    if s.pc < |p| {
      var b := BankOf(p[s.pc].op);
      assert Live(s, b) ==> c < s.pc;
    }
    var k: nat :| Housed(s, c, k);
    FrontMayStart(p, s, k);
    var j: nat :| Producer(s, s.rs[k].dest, j) && s.rs[j].inst > c;
    assert s.rs[j].phase == Issued;
  }

  // ----- work left -----

  /** Cycles an instruction not yet issued may still cost. */
  function Todo(p: seq<Inst>, i: nat): nat
    requires i <= |p|
    decreases |p| - i
  {
    if i == |p| then 0 else Latency(p[i].op) + 4 + Todo(p, i + 1)
  }

  function Weight(x: Station): int {
    match x.phase
    case Unused => 0
    case Issued => x.left + 2
    case Exec => x.left + 1
    case Done => 1
  }

  function Load(rs: seq<Station>, k: nat): int
    requires k <= |rs|
  {
    if k == 0 then 0 else Load(rs, k - 1) + Weight(rs[k - 1])
  }

  function Rank(p: seq<Inst>, s: State): int
    requires |s.rs| == STATIONS && s.pc <= |p|
  {
    Todo(p, s.pc) + (s.pc - s.committed) + Load(s.rs, STATIONS)
  }

  lemma {:induction false} LoadFalls(x: seq<Station>, y: seq<Station>, k: nat)
    requires k <= |x| == |y| && forall j :: 0 <= j < k ==> Weight(y[j]) <= Weight(x[j])
    ensures Load(y, k) <= Load(x, k)
    ensures (exists j :: 0 <= j < k && Weight(y[j]) < Weight(x[j])) ==> Load(y, k) < Load(x, k)
  {
    if k > 0 { LoadFalls(x, y, k - 1); }
  }

  lemma {:induction false} LoadUpdate(x: seq<Station>, i: nat, v: Station, k: nat)
    requires k <= |x| && i < |x|
    ensures Load(x[i := v], k) == Load(x, k) + if i < k then Weight(v) - Weight(x[i]) else 0
  {
    if k > 0 { LoadUpdate(x, i, v, k - 1); }
  }

  /** The middle of a cycle takes work off every working station, and commits a written front. */
  lemma MiddleWorks(p: seq<Inst>, s: State)
    requires Inv(p, s, s.cycle, s.cycle, 1) && s.cycle >= 0
    ensures var m := Middle(s);
      && m.pc == s.pc && Rank(p, m) <= Rank(p, s)
      && ((exists k: nat :: Works(s, k)) ==> Rank(p, m) < Rank(p, s))
      && (s.committed < |p| && s.stamps[s.committed].writeback != EMPTY ==> Rank(p, m) < Rank(p, s))
  {
    hide Stations, Distinct, AllHoused, Sources, Waits, Stamps, Phases, Middle;
    MiddleKeeps(p, s);
    var m := Middle(s);
    forall k: nat | k < STATIONS ensures Weight(m.rs[k]) <= Weight(s.rs[k]) && (Works(s, k) ==> Weight(m.rs[k]) < Weight(s.rs[k])) {
      if Live(s, k) {
        PhaseNeverSpent(p, s, k);
        MiddleAdvances(p, s, k);
      } else {
        MiddleLeaves(s, k);
      }
    }
    LoadFalls(s.rs, m.rs, STATIONS);
  }

  predicate Works(s: State, k: nat) { k < |s.rs| && (s.rs[k].phase == Exec || s.rs[k].phase == Done) }

  /** Issuing turns an instruction still to do into a station's work, and takes a cycle off. */
  lemma IssueWorks(p: seq<Inst>, m: State)
    requires Structure(p, m)
    ensures var i := Issue(p, m);
      && Structure(p, m) && |i.rs| == STATIONS && i.pc <= |p|
      && Rank(p, i) <= Rank(p, m)
      && (m.pc < |p| && FindIdle(m.rs, BankOf(p[m.pc].op), BankOf(p[m.pc].op) + BANK) != EMPTY ==> Rank(p, i) < Rank(p, m))
  {
    hide Stations, Distinct, AllHoused, Sources, Waits;
    if m.pc < |p| {
      var k := FindIdle(m.rs, BankOf(p[m.pc].op), BankOf(p[m.pc].op) + BANK);
      if k != EMPTY {
        LoadUpdate(m.rs, k, Filled(p[m.pc], m.pc, m.waiting), STATIONS);
      }
    }
  }

  lemma ReadyWorks(p: seq<Inst>, m: State)
    requires |m.rs| == STATIONS && |m.stamps| == |p| && |m.waiting| == REGS && m.pc <= |p|
    ensures Rank(p, Ready(p, m)) <= Rank(p, m)
  {
    hide CheckReg;
    LoadFalls(m.rs, Ready(p, m).rs, STATIONS);
  }

  /** A cycle that does not start in a jam takes at least one off the work left. */
  lemma CycleWorks(p: seq<Inst>, s: State)
    requires Inv(p, s, s.cycle, s.cycle, 1) && s.cycle >= 0 && s.committed < |p|
    ensures var a := Cycle(p, s); a.pc <= |p| && (Jam(p, s) || Rank(p, a) < Rank(p, s))
  {
    hide Stations, Distinct, AllHoused, Sources, Waits, Stamps, Phases, Middle, Issue, Ready, Rank;
    MiddleWorks(p, s);
    MiddleKeeps(p, s);
    var m := Middle(s);
    IssueWorks(p, m);
    IssueKeeps(p, m);
    ReadyWorks(p, Issue(p, m));
    ReadyPc(p, Issue(p, m));
    if !Jam(p, s) && s.stamps[s.committed].writeback == EMPTY && !(exists k: nat :: Works(s, k)) {
      CanIssue(p, s);
      var b := BankOf(p[s.pc].op);
      var k := FindIdle(s.rs, b, b + BANK);
      MiddleLeaves(s, k);
    }
  }

  lemma CanIssue(p: seq<Inst>, s: State)
    requires |s.rs| == STATIONS && |s.stamps| == |p| && s.committed < |p| && !Jam(p, s)
    requires s.stamps[s.committed].writeback == EMPTY && forall k: nat :: !Works(s, k)
    ensures s.pc < |p| && FindIdle(s.rs, BankOf(p[s.pc].op), BankOf(p[s.pc].op) + BANK) != EMPTY
  {
    forall k | 0 <= k < STATIONS ensures s.rs[k].phase == Unused || s.rs[k].phase == Issued {
      assert !Works(s, k);
    }
  }

  lemma ReadyPc(p: seq<Inst>, m: State)
    requires |m.rs| == STATIONS && |m.stamps| == |p| && |m.waiting| == REGS
    ensures Ready(p, m).pc == m.pc
  {
  }

  lemma {:induction false} RankFalls(p: seq<Inst>, n: nat)
    ensures Run(p, n).pc <= |p|
    ensures Finished(Run(p, n)) || Jam(p, Run(p, n)) || Rank(p, Run(p, n)) + n <= Todo(p, 0)
  {
    hide Cycle, Jam, Rank;
    RunInv(p, n);
    FinishedIff(p, n);
    if n == 0 {
      StartRank(p);
    } else {
      RunInv(p, n - 1);
      FinishedIff(p, n - 1);
      RankFalls(p, n - 1);
      if Jam(p, Run(p, n - 1)) {
        JamForever(p, n - 1, n);
      } else if Run(p, n - 1).committed == |p| {
        CommittedGrows(p, n - 1, n);
      } else {
        CycleWorks(p, Run(p, n - 1));
      }
    }
  }

  lemma {:induction false} Empty(rs: seq<Station>, k: nat)
    requires k <= |rs| && forall j :: 0 <= j < k ==> rs[j].phase == Unused
    ensures Load(rs, k) == 0
  {
    if k > 0 { Empty(rs, k - 1); }
  }

  lemma StartRank(p: seq<Inst>)
    ensures Rank(p, Start(p)) == Todo(p, 0)
  {
    Empty(Start(p).rs, STATIONS);
  }

  lemma {:induction false} LoadPositive(p: seq<Inst>, s: State, k: nat)
    requires Inv(p, s, s.cycle, s.cycle, 1) && k <= STATIONS
    ensures Load(s.rs, k) >= 0
  {
    hide Stations, Distinct, AllHoused, Sources, Waits, Stamps, Phases;
    if k > 0 {
      LoadPositive(p, s, k - 1);
      if Live(s, k - 1) { PhaseNeverSpent(p, s, k - 1); }
    }
  }

  /** A run has finished by the cycle its work amounts to, or it is jammed there, and then stays
      so: never both, and never neither. */
  lemma FinishesOrJams(p: seq<Inst>, n: nat)
    requires n >= Todo(p, 0)
    ensures Finished(Run(p, n)) <==> !Jam(p, Run(p, n))
    ensures Jam(p, Run(p, n)) ==> forall m: nat :: m >= n ==> Jam(p, Run(p, m)) && !Finished(Run(p, m))
    ensures Jam(p, Run(p, n)) ==> StoreWaits(p, Run(p, n))
  {
    hide Cycle, Jam, MayStart;
    RunInv(p, n);
    var s := Run(p, n);
    RankFalls(p, n);
    FinishedIff(p, n);
    if Jam(p, s) {
      RunLeavesNone(p, n);
      JamIsStore(p, s);
      forall m: nat | m >= n ensures Jam(p, Run(p, m)) && !Finished(Run(p, m)) { JamForever(p, n, m); }
    } else {
      LoadPositive(p, s, STATIONS);
    }
  }
}
