/** The Tomasulo simulator as a state and one function per stage of a cycle.

    The four banks of reservation stations are one sequence: loads first, then stores, adders
    and multipliers, which is the order in which every stage visits them. */
module Tomasulo {

  const BANK: nat := 3
  const STATIONS: nat := 12
  const REGS: nat := 8
  const LW_CYCLE: nat := 2
  const SW_CYCLE: nat := 2
  const ADD_SUB_CYCLE: nat := 2
  const MUL_CYCLE: nat := 10
  const DIV_CYCLE: nat := 40
  const EMPTY: int := -1

  type Reg = n: nat | n < REGS witness 0

  datatype Op = LW | SW | ADD | SUB | MUL | DIV

  /** One line of the trace. */
  datatype Inst = Inst(op: Op, dest: Reg, src1: Reg, src2: Reg)

  /** The cycle in which an instruction reached each point, -1 before. */
  datatype Stamp = Stamp(issue: int, execute: int, writeback: int, commit: int)

  datatype Phase = Unused | Issued | Exec | Done

  /** `qj` and `qk` name the registers an arithmetic operation waits for, -1 for none. */
  datatype Station = Station(phase: Phase, inst: nat, dest: Reg, qj: int, qk: int, left: int)

  datatype State = State(rs: seq<Station>, waiting: seq<bool>, stamps: seq<Stamp>, pc: nat, cycle: nat, committed: nat)

  const NO_STATION := Station(Unused, 0, 0, EMPTY, EMPTY, EMPTY)
  const NO_STAMP := Stamp(EMPTY, EMPTY, EMPTY, EMPTY)

  function Latency(op: Op): nat {
    match op
    case LW => LW_CYCLE
    case SW => SW_CYCLE
    case ADD | SUB => ADD_SUB_CYCLE
    case MUL => MUL_CYCLE
    case DIV => DIV_CYCLE
  }

  /** The first station of the bank that serves an operation. */
  function BankOf(op: Op): nat {
    match op
    case LW => 0
    case SW => BANK
    case ADD | SUB => 2 * BANK
    case MUL | DIV => 3 * BANK
  }

  predicate IsStoreBank(k: nat) { BANK <= k < 2 * BANK }
  predicate IsArithBank(k: nat) { 2 * BANK <= k }

  ghost predicate Shape(p: seq<Inst>, s: State) {
    && |s.rs| == STATIONS && |s.waiting| == REGS && |s.stamps| == |p|
    && s.committed <= |p| && s.pc <= |p|
    && (forall k :: 0 <= k < STATIONS && s.rs[k].phase != Unused ==> s.rs[k].inst < |p|)
  }

  function Start(p: seq<Inst>): State {
    State(seq(STATIONS, _ => NO_STATION), seq(REGS, _ => false), seq(|p|, _ => NO_STAMP), 0, 0, 0)
  }

  // ----- countdown -----

  function Countdown(rs: seq<Station>): (r: seq<Station>)
    ensures |r| == |rs|
  {
    seq(|rs|, k requires 0 <= k < |rs| => if rs[k].phase == Exec then rs[k].(left := rs[k].left - 1) else rs[k])
  }

  // ----- commit -----

  /** The instruction before the next one to commit is written back and committed. */
  predicate PreviousDone(s: State)
    requires s.committed <= |s.stamps|
  {
    s.committed == 0 ||
    (s.stamps[s.committed - 1].writeback != EMPTY && s.stamps[s.committed - 1].commit != EMPTY)
  }

  function Commit(s: State): State
    requires s.committed <= |s.stamps|
  {
    var c := s.committed;
    if c < |s.stamps| && s.stamps[c].writeback != EMPTY && s.stamps[c].commit == EMPTY && PreviousDone(s) then
      s.(stamps := s.stamps[c := s.stamps[c].(commit := s.cycle)], committed := c + 1)
    else s
  }

  // ----- writeback -----

  /** Arithmetic stations that wait for register `r` wait no longer. */
  function Broadcast(rs: seq<Station>, r: Reg): (t: seq<Station>)
    ensures |t| == |rs|
  {
    seq(|rs|, k requires 0 <= k < |rs| =>
      if IsArithBank(k) && rs[k].phase == Issued then
        rs[k].(qj := if rs[k].qj == r then EMPTY else rs[k].qj, qk := if rs[k].qk == r then EMPTY else rs[k].qk)
      else rs[k])
  }

  /** Writeback of station `k`, if it is done. */
  function WriteOne(s: State, k: nat): (t: State)
    requires k < |s.rs| && |s.waiting| == REGS
    ensures |t.rs| == |s.rs| && |t.waiting| == REGS && |t.stamps| == |s.stamps| && t.committed == s.committed
  {
    var x := s.rs[k];
    if x.phase != Done || x.inst >= |s.stamps| then s
    else
      var rs := if IsStoreBank(k) then s.rs else Broadcast(s.rs, x.dest);
      s.(rs := rs[k := NO_STATION], waiting := s.waiting[x.dest := false],
         stamps := s.stamps[x.inst := s.stamps[x.inst].(writeback := s.cycle)])
  }

  function WriteFrom(s: State, k: nat): (t: State)
    requires k <= |s.rs| && |s.waiting| == REGS
    ensures |t.rs| == |s.rs| && |t.waiting| == REGS && |t.stamps| == |s.stamps| && t.committed == s.committed
    decreases |s.rs| - k
  {
    if k == |s.rs| then s else WriteFrom(WriteOne(s, k), k + 1)
  }

  // ----- completion -----

  function CompleteOne(s: State, k: nat): (t: State)
    requires k < |s.rs|
    ensures |t.rs| == |s.rs| && t.waiting == s.waiting && |t.stamps| == |s.stamps| && t.committed == s.committed
  {
    var x := s.rs[k];
    if x.phase == Exec && x.left == 0 && x.inst < |s.stamps| then
      s.(rs := s.rs[k := x.(phase := Done)], stamps := s.stamps[x.inst := s.stamps[x.inst].(execute := s.cycle)])
    else s
  }

  function CompleteFrom(s: State, k: nat): (t: State)
    requires k <= |s.rs|
    ensures |t.rs| == |s.rs| && t.waiting == s.waiting && |t.stamps| == |s.stamps| && t.committed == s.committed
    decreases |s.rs| - k
  {
    if k == |s.rs| then s else CompleteFrom(CompleteOne(s, k), k + 1)
  }

  // ----- register marking -----

  /** Loads mark their register only while they execute; stores mark none. */
  predicate Marks(x: Station, k: nat) {
    if k < BANK then x.phase == Exec else IsArithBank(k) && (x.phase == Issued || x.phase == Exec)
  }

  function MarkFrom(rs: seq<Station>, waiting: seq<bool>, k: nat): (w: seq<bool>)
    requires k <= |rs| && |waiting| == REGS
    ensures |w| == REGS
    decreases |rs| - k
  {
    if k == |rs| then waiting
    else MarkFrom(rs, if Marks(rs[k], k) then waiting[rs[k].dest := true] else waiting, k + 1)
  }

  // ----- issue -----

  /** The first unused station from `k` up to `end`. */
  function FindIdle(rs: seq<Station>, k: nat, end: nat): (r: int)
    requires k <= end <= |rs|
    ensures r == EMPTY || (k <= r < end && rs[r].phase == Unused)
    ensures r == EMPTY ==> forall j :: k <= j < end ==> rs[j].phase != Unused
    decreases end - k
  {
    if k == end then EMPTY else if rs[k].phase == Unused then k else FindIdle(rs, k + 1, end)
  }

  function Source(waiting: seq<bool>, r: Reg): int
    requires |waiting| == REGS
  {
    if waiting[r] then r else EMPTY
  }

  /** The station as it is filled in; an operation with all its sources starts at once. */
  function Filled(i: Inst, id: nat, waiting: seq<bool>): Station
    requires |waiting| == REGS
  {
    if i.op == LW || i.op == SW then Station(Issued, id, i.dest, EMPTY, EMPTY, Latency(i.op))
    else
      var qj, qk := Source(waiting, i.src1), Source(waiting, i.src2);
      Station(if qj == EMPTY && qk == EMPTY then Exec else Issued, id, i.dest, qj, qk, Latency(i.op))
  }

  function Issue(p: seq<Inst>, s: State): State
    requires |s.rs| == STATIONS && |s.waiting| == REGS && |s.stamps| == |p|
  {
    if s.pc >= |p| then s
    else
      var i := p[s.pc];
      var k := FindIdle(s.rs, BankOf(i.op), BankOf(i.op) + BANK);
      if k == EMPTY then s
      else
        s.(rs := s.rs[k := Filled(i, s.pc, s.waiting)],
           waiting := if i.op == SW then s.waiting else s.waiting[i.dest := true],
           stamps := s.stamps[s.pc := s.stamps[s.pc].(issue := s.cycle)], pc := s.pc + 1)
  }

  // ----- ready check -----

  /** No earlier instruction with the same destination is uncommitted. */
  predicate CheckReg(p: seq<Inst>, stamps: seq<Stamp>, id: nat, r: Reg)
    requires |stamps| == |p|
  {
    forall i :: 0 <= i < id && i < |p| ==> !(stamps[i].commit == EMPTY && p[i].dest == r)
  }

  predicate MayStart(p: seq<Inst>, s: State, k: nat)
    requires |s.stamps| == |p| && |s.waiting| == REGS && k < |s.rs|
  {
    var x := s.rs[k];
    x.phase == Issued &&
    if IsStoreBank(k) then !s.waiting[x.dest]
    else x.qj == EMPTY && x.qk == EMPTY && CheckReg(p, s.stamps, x.inst, x.dest)
  }

  function Ready(p: seq<Inst>, s: State): State
    requires |s.stamps| == |p| && |s.waiting| == REGS
  {
    s.(rs := seq(|s.rs|, k requires 0 <= k < |s.rs| => if MayStart(p, s, k) then s.rs[k].(phase := Exec) else s.rs[k]))
  }

  // ----- a cycle -----

  function Middle(s: State): (t: State)
    requires |s.rs| == STATIONS && |s.waiting| == REGS && s.committed <= |s.stamps|
    ensures |t.rs| == STATIONS && |t.waiting| == REGS && t.committed <= |t.stamps| == |s.stamps|
  {
    var a := s.(cycle := s.cycle + 1, rs := Countdown(s.rs));
    var b := WriteFrom(Commit(a), 0);
    var c := CompleteFrom(b, 0);
    c.(waiting := MarkFrom(c.rs, c.waiting, 0))
  }

  function Cycle(p: seq<Inst>, s: State): (t: State)
    requires |s.rs| == STATIONS && |s.waiting| == REGS && s.committed <= |s.stamps| == |p|
    ensures |t.rs| == STATIONS && |t.waiting| == REGS && t.committed <= |t.stamps| == |p|
  {
    Ready(p, Issue(p, Middle(s)))
  }

  predicate Finished(s: State) {
    forall i :: 0 <= i < |s.stamps| ==> s.stamps[i].commit != EMPTY
  }
}
