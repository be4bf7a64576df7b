/** The simulator over its arrays: four banks of stations, the registers and the instruction
    table, changed in place stage by stage. Each method is proved against the stage function. */
module TomasuloSim {
  import opened Tomasulo
  import opened TomasuloFinish
  import opened TomasuloInvariant
  import opened TomasuloJam
  import opened TomasuloRun

  const BANKS: nat := 4

  lemma PutShape(p: seq<Inst>, s: State, k: nat, x: Station)
    requires Shape(p, s) && k < STATIONS && (x.phase != Unused ==> x.inst < |p|)
    ensures Shape(p, s.(rs := s.rs[k := x]))
  {
  }

  class Sim {
    const prog: seq<Inst>
    const load: array<Station>
    const store: array<Station>
    const addSub: array<Station>
    const mulDiv: array<Station>
    const waiting: array<bool>
    const stamps: array<Stamp>
    var programCounter: nat
    var cycleCounter: nat
    var commitCount: nat

    /** The arrays are apart from each other and have their sizes. */
    predicate Fits() {
      && load.Length == BANK && store.Length == BANK && addSub.Length == BANK && mulDiv.Length == BANK
      && waiting.Length == REGS && stamps.Length == |prog|
      && load != store && load != addSub && load != mulDiv && store != addSub && store != mulDiv && addSub != mulDiv
    }

    ghost function View(): (s: State)
      reads this, load, store, addSub, mulDiv, waiting, stamps
      requires Fits()
      ensures |s.rs| == STATIONS && |s.waiting| == REGS && |s.stamps| == |prog|
    {
      State(load[..] + store[..] + addSub[..] + mulDiv[..], waiting[..], stamps[..], programCounter, cycleCounter, commitCount)
    }

    ghost predicate Sound()
      reads this, load, store, addSub, mulDiv, waiting, stamps
    {
      Fits() && Shape(prog, View())
    }

    function Bank(b: nat): array<Station>
      requires b < BANKS
    {
      if b == 0 then load else if b == 1 then store else if b == 2 then addSub else mulDiv
    }

    method Get(b: nat, i: nat) returns (x: Station)
      requires Sound() && b < BANKS && i < BANK
      ensures x == View().rs[BANK * b + i]
      ensures x.phase != Unused ==> x.inst < |prog|
    {
      x := Bank(b)[i];
      assert x == View().rs[BANK * b + i];
    }

    method Put(b: nat, i: nat, x: Station)
      requires Sound() && b < BANKS && i < BANK && (x.phase != Unused ==> x.inst < |prog|)
      modifies load, store, addSub, mulDiv
      ensures Sound() && View() == old(View()).(rs := old(View().rs)[BANK * b + i := x])
    {
      PutShape(prog, View(), BANK * b + i, x);
      Bank(b)[i] := x;
      assert View().rs == old(View().rs)[BANK * b + i := x];
    }

    method SetWaiting(r: Reg, w: bool)
      requires Sound()
      modifies waiting
      ensures Sound() && View() == old(View()).(waiting := old(View().waiting)[r := w])
    {
      waiting[r] := w;
      assert View().waiting == old(View().waiting)[r := w];
    }

    method Stamped(i: nat, t: Stamp)
      requires Sound() && i < |prog|
      modifies stamps
      ensures Sound() && View() == old(View()).(stamps := old(View().stamps)[i := t])
    {
      stamps[i] := t;
      assert View().stamps == old(View().stamps)[i := t];
    }

    // ----- countdown -----

    method CountDown()
      requires Sound()
      modifies load, store, addSub, mulDiv
      ensures Sound() && View() == old(View()).(rs := Countdown(old(View().rs)))
    {
      hide Shape;
      ghost var was := View();
      var b := 0;
      while b < BANKS
        invariant b <= BANKS && Sound() && View() == was.(rs := View().rs)
        invariant forall k :: 0 <= k < STATIONS ==>
          View().rs[k] == if k < BANK * b then Countdown(was.rs)[k] else was.rs[k]
      {
        var i := 0;
        while i < BANK
          invariant i <= BANK && Sound() && View() == was.(rs := View().rs)
          invariant forall k :: 0 <= k < STATIONS ==>
            View().rs[k] == if k < BANK * b + i then Countdown(was.rs)[k] else was.rs[k]
        {
          var x := Get(b, i);
          if x.phase == Exec {
            Put(b, i, x.(left := x.left - 1));
          }
          i := i + 1;
        }
        b := b + 1;
      }
      assert View().rs == Countdown(was.rs);
    }

    // ----- commit -----

    method CommitNext()
      requires Sound()
      modifies this`commitCount, stamps
      ensures Sound() && View() == Commit(old(View()))
    {
      var check := commitCount == 0;
      var i := 0;
      while i < commitCount
        invariant i <= commitCount
        invariant check == if i == 0 then commitCount == 0 else
          stamps[i - 1].writeback != EMPTY && stamps[i - 1].commit != EMPTY
      {
        check := stamps[i].writeback != EMPTY && stamps[i].commit != EMPTY;
        i := i + 1;
      }
      if commitCount < stamps.Length && stamps[commitCount].writeback != EMPTY && stamps[commitCount].commit == EMPTY && check {
        stamps[commitCount] := stamps[commitCount].(commit := cycleCounter);
        assert stamps[..] == old(View().stamps)[commitCount := stamps[commitCount]];
        commitCount := commitCount + 1;
      }
    }

    // ----- writeback -----

    /** One operand of a waiting station after register `r` is broadcast. */
    static function Freed(q: int, r: Reg): int { if q == r then EMPTY else q }

    method UpdateStations(r: Reg)
      requires Sound()
      modifies load, store, addSub, mulDiv
      ensures Sound() && View() == old(View()).(rs := Broadcast(old(View().rs), r))
    {
      hide Shape;
      ghost var was := View();
      var b := 2;
      while b < BANKS
        invariant 2 <= b <= BANKS && Sound() && View() == was.(rs := View().rs)
        invariant forall k :: 0 <= k < STATIONS ==>
          View().rs[k] == if k < BANK * b then Broadcast(was.rs, r)[k] else was.rs[k]
      {
        var i := 0;
        while i < BANK
          invariant i <= BANK && Sound() && View() == was.(rs := View().rs)
          invariant forall k :: 0 <= k < STATIONS ==>
            View().rs[k] == if k < BANK * b + i then Broadcast(was.rs, r)[k] else was.rs[k]
        {
          var x := Get(b, i);
          if x.phase == Issued {
            Put(b, i, x.(qj := Freed(x.qj, r), qk := Freed(x.qk, r)));
          }
          i := i + 1;
        }
        b := b + 1;
      }
      assert View().rs == Broadcast(was.rs, r);
    }

    method WriteStation(b: nat, i: nat)
      requires Sound() && b < BANKS && i < BANK
      modifies load, store, addSub, mulDiv, waiting, stamps
      ensures Sound() && View() == WriteOne(old(View()), BANK * b + i)
    {
      hide Shape, Broadcast;
      var x := Get(b, i);
      if x.phase == Done {
        var t := stamps[x.inst];
        Stamped(x.inst, t.(writeback := cycleCounter));
        if b != 1 {
          UpdateStations(x.dest);
        }
        Put(b, i, NO_STATION);
        SetWaiting(x.dest, false);
      }
    }

    method Writeback()
      requires Sound()
      modifies load, store, addSub, mulDiv, waiting, stamps
      ensures Sound() && View() == WriteFrom(old(View()), 0)
    {
      hide Shape, WriteOne;
      var b := 0;
      while b < BANKS
        invariant b <= BANKS && Sound() && WriteFrom(View(), BANK * b) == WriteFrom(old(View()), 0)
      {
        var i := 0;
        while i < BANK
          invariant i <= BANK && Sound() && WriteFrom(View(), BANK * b + i) == WriteFrom(old(View()), 0)
        {
          WriteStation(b, i);
          i := i + 1;
        }
        b := b + 1;
      }
    }

    // ----- completion -----

    method CompleteStation(b: nat, i: nat)
      requires Sound() && b < BANKS && i < BANK
      modifies load, store, addSub, mulDiv, stamps
      ensures Sound() && View() == CompleteOne(old(View()), BANK * b + i)
    {
      hide Shape;
      var x := Get(b, i);
      if x.left == 0 && x.phase == Exec {
        var t := stamps[x.inst];
        Stamped(x.inst, t.(execute := cycleCounter));
        Put(b, i, x.(phase := Done));
      }
    }

    method Complete()
      requires Sound()
      modifies load, store, addSub, mulDiv, stamps
      ensures Sound() && View() == CompleteFrom(old(View()), 0)
    {
      hide Shape, CompleteOne;
      var b := 0;
      while b < BANKS
        invariant b <= BANKS && Sound() && CompleteFrom(View(), BANK * b) == CompleteFrom(old(View()), 0)
      {
        var i := 0;
        while i < BANK
          invariant i <= BANK && Sound() && CompleteFrom(View(), BANK * b + i) == CompleteFrom(old(View()), 0)
        {
          CompleteStation(b, i);
          i := i + 1;
        }
        b := b + 1;
      }
    }

    // ----- register marking -----

    method MarkRegisters()
      requires Sound()
      modifies waiting
      ensures Sound() && View() == old(View()).(waiting := MarkFrom(old(View().rs), old(View().waiting), 0))
    {
      hide Shape;
      ghost var was := View();
      var b := 0;
      while b < BANKS
        invariant b <= BANKS && Sound() && View() == was.(waiting := View().waiting)
        invariant MarkFrom(was.rs, View().waiting, BANK * b) == MarkFrom(was.rs, was.waiting, 0)
      {
        var i := 0;
        while i < BANK
          invariant i <= BANK && Sound() && View() == was.(waiting := View().waiting)
          invariant MarkFrom(was.rs, View().waiting, BANK * b + i) == MarkFrom(was.rs, was.waiting, 0)
        {
          var x := Get(b, i);
          if (x.phase == Exec && b != 1) || (x.phase == Issued && b >= 2) {
            SetWaiting(x.dest, true);
          }
          i := i + 1;
        }
        b := b + 1;
      }
    }

    // ----- issue -----

    method FindIdleIn(b: nat) returns (r: int)
      requires Sound() && b < BANKS
      ensures r == if FindIdle(View().rs, BANK * b, BANK * b + BANK) == EMPTY then EMPTY
                   else FindIdle(View().rs, BANK * b, BANK * b + BANK) - BANK * b
    {
      hide Shape;
      var i := 0;
      while i < BANK
        invariant i <= BANK
        invariant FindIdle(View().rs, BANK * b + i, BANK * b + BANK) == FindIdle(View().rs, BANK * b, BANK * b + BANK)
      {
        var x := Get(b, i);
        if x.phase == Unused {
          return i;
        }
        i := i + 1;
      }
      return EMPTY;
    }

    method IssueNext()
      requires Sound()
      modifies this`programCounter, load, store, addSub, mulDiv, waiting, stamps
      ensures Sound() && View() == Issue(prog, old(View()))
    {
      hide Shape, FindIdle, Filled;
      if programCounter < |prog| {
        var b := BankOf(prog[programCounter].op) / BANK;
        var r := FindIdleIn(b);
        if r != EMPTY {
          assert BANK * b == BankOf(prog[programCounter].op);
          IssueInto(b, r);
        }
      }
    }

    /** Fills in station `r` of bank `b` for the next instruction. */
    method IssueInto(b: nat, r: nat)
      requires Sound() && b < BANKS && r < BANK && programCounter < |prog|
      modifies this`programCounter, load, store, addSub, mulDiv, waiting, stamps
      ensures Sound() && var s := old(View()); var i := prog[s.pc];
        View() == s.(rs := s.rs[BANK * b + r := Filled(i, s.pc, s.waiting)],
                     waiting := if i.op == SW then s.waiting else s.waiting[i.dest := true],
                     stamps := s.stamps[s.pc := s.stamps[s.pc].(issue := s.cycle)], pc := s.pc + 1)
    {
      var inst := prog[programCounter];
      var x := FillStation(inst);
      assert x.inst == programCounter;
      hide Filled;
      Put(b, r, x);
      var t := stamps[programCounter];
      Stamped(programCounter, t.(issue := cycleCounter));
      if inst.op != SW {
        SetWaiting(inst.dest, true);
      }
      programCounter := programCounter + 1;
    }

    method FillStation(inst: Inst) returns (x: Station)
      requires Sound() && programCounter < |prog|
      ensures x == Filled(inst, programCounter, View().waiting)
    {
      if inst.op == LW || inst.op == SW {
        x := Station(Issued, programCounter, inst.dest, EMPTY, EMPTY, Latency(inst.op));
      } else {
        var qj, qk := EMPTY, EMPTY;
        if waiting[inst.src1] { qj := inst.src1; }
        if waiting[inst.src2] { qk := inst.src2; }
        x := Station(if qj == EMPTY && qk == EMPTY then Exec else Issued, programCounter, inst.dest, qj, qk, Latency(inst.op));
      }
    }

    // ----- ready check -----

    method CheckRegister(id: nat, r: Reg) returns (ok: bool)
      requires Sound() && id <= |prog|
      ensures ok == CheckReg(prog, View().stamps, id, r)
    {
      hide Shape;
      var i := 0;
      while i < id
        invariant i <= id && CheckReg(prog, View().stamps, i, r)
      {
        if stamps[i].commit == EMPTY && prog[i].dest == r {
          assert View().stamps[i].commit == EMPTY;
          return false;
        }
        i := i + 1;
      }
      return true;
    }

    method StartIfReady(b: nat, i: nat)
      requires Sound() && b < BANKS && i < BANK
      modifies load, store, addSub, mulDiv
      ensures Sound() && var s, k := old(View()), BANK * b + i;
        View() == s.(rs := s.rs[k := if MayStart(prog, s, k) then s.rs[k].(phase := Exec) else s.rs[k]])
    {
      hide Shape, CheckReg;
      var x := Get(b, i);
      if x.phase != Unused {
        var allow := CheckRegister(x.inst, x.dest);
        var start := false;
        if b == 1 {
          start := x.phase == Issued && !waiting[x.dest];
        } else {
          start := x.phase == Issued && x.qj == EMPTY && x.qk == EMPTY && allow;
        }
        if start {
          Put(b, i, x.(phase := Exec));
        }
      }
    }

    method CheckReady()
      requires Sound()
      modifies load, store, addSub, mulDiv
      ensures Sound() && View() == Ready(prog, old(View()))
    {
      hide Shape, CheckReg;
      ghost var was := View();
      ghost var end := Ready(prog, was).rs;
      var b := 0;
      while b < BANKS
        invariant b <= BANKS && Sound() && View() == was.(rs := View().rs)
        invariant forall k :: 0 <= k < STATIONS ==> View().rs[k] == if k < BANK * b then end[k] else was.rs[k]
      {
        var i := 0;
        while i < BANK
          invariant i <= BANK && Sound() && View() == was.(rs := View().rs)
          invariant forall k :: 0 <= k < STATIONS ==> View().rs[k] == if k < BANK * b + i then end[k] else was.rs[k]
        {
          StartIfReady(b, i);
          i := i + 1;
        }
        b := b + 1;
      }
      assert View().rs == end;
    }

    // ----- the loop -----

    method CheckFinish() returns (done: bool)
      requires Sound()
      ensures done == Finished(View())
    {
      hide Shape;
      var i := 0;
      while i < |prog|
        invariant i <= |prog| && forall j :: 0 <= j < i ==> stamps[j].commit != EMPTY
      {
        if stamps[i].commit == EMPTY {
          assert View().stamps[i].commit == EMPTY;
          return false;
        }
        i := i + 1;
      }
      assert forall j :: 0 <= j < |prog| ==> View().stamps[j] == stamps[j];
      return true;
    }

    constructor (p: seq<Inst>)
      ensures fresh(load) && fresh(store) && fresh(addSub) && fresh(mulDiv) && fresh(waiting) && fresh(stamps)
      ensures prog == p && Sound() && View() == Start(p)
    {
      prog := p;
      load := new Station[BANK](_ => NO_STATION);
      store := new Station[BANK](_ => NO_STATION);
      addSub := new Station[BANK](_ => NO_STATION);
      mulDiv := new Station[BANK](_ => NO_STATION);
      waiting := new bool[REGS](_ => false);
      stamps := new Stamp[|p|](_ => NO_STAMP);
      programCounter, cycleCounter, commitCount := 0, 0, 0;
      new;
      assert View().rs == Start(p).rs;
      assert View().waiting == Start(p).waiting;
      assert View().stamps == Start(p).stamps;
    }

    method AddCycle()
      requires Sound()
      modifies this`cycleCounter
      ensures Sound() && View() == old(View()).(cycle := old(View().cycle) + 1)
    {
      cycleCounter := cycleCounter + 1;
    }

    /** One round of the loop. */
    method Step()
      requires Sound()
      modifies this, load, store, addSub, mulDiv, waiting, stamps
      ensures Sound() && View() == Cycle(prog, old(View())) && cycleCounter == old(cycleCounter) + 1
    {
      hide Shape, Countdown, Commit, WriteFrom, CompleteFrom, MarkFrom, Issue, Ready;
      AddCycle();
      CountDown();
      CommitNext();
      Writeback();
      Complete();
      MarkRegisters();
      IssueNext();
      CheckReady();
    }

    /** The whole simulation, given up after `limit` rounds: it ends in the first cycle in which
        every instruction has committed, in time if no stored register is overwritten, and is
        given up late enough only if it is jammed. */
    method Simulate(limit: nat) returns (finish: bool)
      requires Sound() && View() == Start(prog) && limit >= 1
      modifies this, load, store, addSub, mulDiv, waiting, stamps
      ensures Sound() && 1 <= cycleCounter <= limit && View() == Run(prog, cycleCounter)
      ensures finish == Finished(View()) && (!finish ==> cycleCounter == limit)
      ensures forall m: nat :: 1 <= m < cycleCounter ==> !Finished(Run(prog, m))
      ensures NoOverwrite(prog) && limit >= Bound(prog, |prog|) ==> finish && cycleCounter <= Bound(prog, |prog|)
      ensures limit >= Todo(prog, 0) ==> finish == !Jam(prog, View())
    {
      hide Shape, Cycle, Finished, Jam, NoOverwrite;
      finish := false;
      Clock(prog, 0);
      assert View().cycle == cycleCounter;
      while !finish && cycleCounter < limit
        invariant cycleCounter <= limit && Sound() && View() == Run(prog, cycleCounter) && (cycleCounter == 0 ==> !finish)
        invariant cycleCounter > 0 ==> finish == Finished(Run(prog, cycleCounter))
        invariant forall m: nat :: 1 <= m < cycleCounter ==> !Finished(Run(prog, m))
        decreases limit - cycleCounter
      {
        Step();
        finish := CheckFinish();
      }
      if NoOverwrite(prog) && limit >= Bound(prog, |prog|) {
        BoundPositive(prog, |prog|);
        FinishesInTime(prog, Bound(prog, |prog|));
        FinishesInTime(prog, limit);
      }
      if limit >= Todo(prog, 0) { Verdict(prog, cycleCounter, limit); }
    }
  }

  lemma Clock(p: seq<Inst>, n: nat)
    ensures Run(p, n).cycle == n
  {
    RunInv(p, n);
  }

  lemma BoundPositive(p: seq<Inst>, c: nat)
    requires c <= |p|
    ensures Bound(p, c) >= 1
  {
  }

  lemma Verdict(p: seq<Inst>, n: nat, limit: nat)
    requires n <= limit && limit >= Todo(p, 0) && (Finished(Run(p, n)) || n == limit)
    ensures Finished(Run(p, n)) <==> !Jam(p, Run(p, n))
  {
    hide Cycle, Jam, Finished;
    if Jam(p, Run(p, n)) { JamForever(p, n, n); } else if n == limit { FinishesOrJams(p, n); }
  }
}
