/** The pipeline stages as functions on the engine state, with every panic as an outcome. */
module RuuSteps {
  import opened Common
  import opened RuuTypes

  // ----- link lists -----

  /** Insertion behind every link with a smaller `x` at the front of the list: the event
      queue is ordered by time, the ready queue scanned by sequence number. */
  function InsertByX(q: seq<Link>, n: Link): seq<Link> {
    if q == [] || n.x <= q[0].x then [n] + q
    else [q[0]] + InsertByX(q[1..], n)
  }

  /** Frees a list link by link, each onto the front of the free list. */
  function FreeChain(free: seq<nat>, chain: seq<Link>): seq<nat>
    decreases |chain|
  {
    if chain == [] then free else FreeChain([chain[0].id] + free, chain[1..])
  }

  function NewLink(c: Core, x: nat, v: nat): Link
    requires x < |c.st| && c.free != []
  {
    Link(c.free[0], x, c.st[x].tag, v, c.st[x].num)
  }

  function Enqueue(c: Core, x: nat): (r: Outcome)
    requires Shape(c) && x < |c.st|
    ensures r.Ok? ==> Shape(r.core) && SameSize(c, r.core) && r.core.events == c.events && r.core.cycle == c.cycle
  {
    var s := c.st[x];
    if s.queued then Stop(AlreadyQueued)
    else if c.free == [] then Stop(OutOfLinks)
    else
      var n := NewLink(c, x, s.num);
      Ok(With(c, x, s.(queued := true)).(
        free := c.free[1..],
        readyq := if s.inLsq || s.atHead then [n] + c.readyq else InsertByX(c.readyq, n)))
  }

  function QueueEvent(c: Core, x: nat, when: nat): (r: Outcome)
    requires Shape(c) && x < |c.st|
    ensures r.Ok? ==> Shape(r.core) && SameSize(c, r.core)
  {
    if c.st[x].completed then Stop(EventCompleted)
    else if when <= c.cycle then Stop(EventInPast)
    else if c.free == [] then Stop(OutOfLinks)
    else Ok(c.(free := c.free[1..], events := InsertByX(c.events, NewLink(c, x, when))))
  }

  // ----- commit -----

  function PopLsq(c: Core): (r: Core)
    requires Shape(c) && c.ln > 0
    ensures Shape(r) && SameSize(c, r) && r.rn == c.rn
  {
    var y := c.R + c.lh;
    With(c, y, c.st[y].(tag := c.st[y].tag + 1)).(lh := Next(c.lh, c.L), ln := c.ln - 1)
  }

  function PopRuu(c: Core): (r: Core)
    requires Shape(c) && c.rn > 0
    ensures Shape(r) && SameSize(c, r) && r.rn < c.rn
  {
    With(c, c.rh, c.st[c.rh].(tag := c.st[c.rh].tag + 1)).(rh := Next(c.rh, c.R), rn := c.rn - 1)
  }

  /** Why the oldest entry cannot retire now, if it cannot. */
  datatype Gate = Open | Stall | Broken(fault: Fault)

  function CommitGate(c: Core, port: nat -> bool): Gate
    requires Shape(c) && c.rn > 0
  {
    var h, y := c.st[c.rh], c.st[c.R + c.lh];
    if !h.completed then Stall
    else if !h.eaComp then Open
    else if c.ln == 0 || !y.inLsq then Broken(OutOfSyncAtCommit)
    else if !y.completed then Stall
    else if y.kind == Store && !port(y.num) then Stall
    else Open
  }

  /** Retires the oldest RUU entry and, for a load or store, the oldest LSQ entry. */
  function Retire(c: Core): (r: Core)
    requires Shape(c) && c.rn > 0 && (c.st[c.rh].eaComp ==> c.ln > 0)
    ensures Shape(r) && SameSize(c, r) && r.rn < c.rn
  {
    PopRuu(if c.st[c.rh].eaComp then PopLsq(c) else c)
  }

  function Commit(c: Core, width: nat, port: nat -> bool): (r: Outcome)
    requires Shape(c)
    ensures r.Ok? ==> Shape(r.core) && SameSize(c, r.core)
    decreases width
  {
    if c.rn == 0 || width == 0 then Ok(c)
    else match CommitGate(c, port)
      case Stall => Ok(c)
      case Broken(f) => Stop(f)
      case Open =>
        if c.st[c.rh].odeps != Duo([], []) then Stop(RetiredHasOdeps)
        else Commit(Retire(c), width - 1, port)
  }

  // ----- writeback -----

  function DropChains(free: seq<nat>, s: Station): seq<nat> {
    FreeChain(FreeChain(free, s.odeps.a), s.odeps.b)
  }

  function SquashLsq(c: Core): (r: Core)
    requires Shape(c) && c.ln > 0
    ensures Shape(r) && SameSize(c, r) && r.rn == c.rn && r.events == c.events && r.cycle == c.cycle
  {
    var y := c.R + At(c.lh, c.L, c.ln - 1);
    With(c, y, c.st[y].(tag := c.st[y].tag + 1, odeps := Duo([], []))).(
      free := DropChains(c.free, c.st[y]), ln := c.ln - 1)
  }

  function SquashRuu(c: Core): (r: Core)
    requires Shape(c) && c.rn > 0
    ensures Shape(r) && SameSize(c, r) && r.rn < c.rn && r.events == c.events && r.cycle == c.cycle
  {
    var x := At(c.rh, c.R, c.rn - 1);
    With(c, x, c.st[x].(tag := c.st[x].tag + 1, odeps := Duo([], []))).(
      free := DropChains(c.free, c.st[x]), rn := c.rn - 1)
  }

  /** Squashes the youngest RUU entry and, for a load or store, the youngest LSQ entry. */
  function Squash(c: Core): (r: Core)
    requires Shape(c) && c.rn > 0
    requires c.st[At(c.rh, c.R, c.rn - 1)].eaComp ==> c.ln > 0
    ensures Shape(r) && SameSize(c, r) && r.rn < c.rn && r.events == c.events && r.cycle == c.cycle
  {
    SquashRuu(if c.st[At(c.rh, c.R, c.rn - 1)].eaComp then SquashLsq(c) else c)
  }

  function Prev(i: nat, size: nat): int {
    if i == 0 then size - 1 else i - 1
  }

  /** Squashes from the tail until the entry at `branch` is the youngest, then forgets the
      speculative create vector. */
  function Recover(c: Core, branch: nat): (r: Outcome)
    requires Shape(c)
    ensures r.Ok? ==> Shape(r.core) && SameSize(c, r.core) && r.core.events == c.events && r.core.cycle == c.cycle
    decreases c.rn
  {
    var t := Prev(At(c.rh, c.R, c.rn), c.R);
    if t == branch then Ok(c.(useSpec := {}))
    else if c.rn == 0 then Stop(EmptyRuu)
    else if t == c.rh then Stop(HeadTailBroken)
    else if c.st[t].eaComp && c.ln == 0 then Stop(OutOfSyncAtSquash)
    else Recover(Squash(c), branch)
  }

  function TracerRecover(c: Core): Outcome {
    if !c.specMode then Stop(NotSpeculative) else Ok(c.(specMode := false))
  }

  /** Output `o` of `r` leaves the create vector it was entered in, if it is still there. */
  function ClearCreator(c: Core, r: nat, o: nat): (d: Core)
    requires Shape(c) && r < |c.st|
    ensures Shape(d) && SameSize(c, d) && d.events == c.events && d.cycle == c.cycle && d.st == c.st
  {
    var n := c.st[r].onames.Get(o);
    if c.st[r].specMode then
      if c.scv[n] == By(r, o) then c.(scv := c.scv[n := RegFile]) else c
    else
      if c.cv[n] == By(r, o) then c.(cv := c.cv[n := RegFile]) else c
  }

  /** The station now has operand `k`; it is queued if that was the last one missing. */
  function Satisfy(c: Core, x: nat, k: nat): (r: Outcome)
    requires Shape(c) && x < |c.st|
    ensures r.Ok? ==> Shape(r.core) && SameSize(c, r.core) && r.core.events == c.events && r.core.cycle == c.cycle
    ensures r.Ok? ==> forall p :: 0 <= p < |c.st| ==> r.core.st[p].odeps == c.st[p].odeps
    ensures r.Ok? ==> forall p :: 0 <= p < |c.st| ==> r.core.st[p].onames == c.st[p].onames
  {
    var s := c.st[x];
    if s.ready.Get(k) then Stop(AlreadySatisfied)
    else
      var s1 := s.(ready := s.ready.Set(k, true));
      var c1 := With(c, x, s1);
      if s1.AllReady() && (!s1.inLsq || s1.kind == Store) then Enqueue(c1, x) else Ok(c1)
  }

  /** Serves and frees the first link of chain `o` of `r`. */
  function WakeFirst(c: Core, r: nat, o: nat): (d: Outcome)
    requires Shape(c) && r < |c.st| && o < 2 && c.st[r].odeps.Get(o) != []
    ensures d.Ok? ==> Shape(d.core) && SameSize(c, d.core) && d.core.events == c.events && d.core.cycle == c.cycle
                      && d.core.st[r].odeps.Get(o) == c.st[r].odeps.Get(o)[1..]
                      && d.core.st[r].onames == c.st[r].onames
  {
    var l := c.st[r].odeps.Get(o)[0];
    var c1 :- if Valid(c, l) then Satisfy(c, l.rs, l.x) else Ok(c);
    var s := c1.st[r];
    Ok(With(c1, r, s.(odeps := s.odeps.Set(o, s.odeps.Get(o)[1..]))).(free := [l.id] + c1.free))
  }

  function WakeAll(c: Core, r: nat, o: nat): (d: Outcome)
    requires Shape(c) && r < |c.st| && o < 2
    ensures d.Ok? ==> Shape(d.core) && SameSize(c, d.core) && d.core.events == c.events && d.core.cycle == c.cycle && d.core.st[r].onames == c.st[r].onames
    decreases |c.st[r].odeps.Get(o)|
  {
    if c.st[r].odeps.Get(o) == [] then Ok(c)
    else
      var c1 :- WakeFirst(c, r, o);
      WakeAll(c1, r, o)
  }

  function Broadcast(c: Core, r: nat, o: nat): (d: Outcome)
    requires Shape(c) && r < |c.st| && o < 2
    ensures d.Ok? ==> Shape(d.core) && SameSize(c, d.core) && d.core.events == c.events && d.core.cycle == c.cycle && d.core.st[r].onames == c.st[r].onames
  {
    if c.st[r].onames.Get(o) == NA then Ok(c) else WakeAll(ClearCreator(c, r, o), r, o)
  }

  /** A completion event for `r`: misprediction recovery, then the result broadcast. */
  function Complete(c: Core, r: nat): (d: Outcome)
    requires Shape(c) && r < |c.st|
    ensures d.Ok? ==> Shape(d.core) && SameSize(c, d.core) && d.core.events == c.events && d.core.cycle == c.cycle
  {
    var s := c.st[r];
    if !s.AllReady() || s.queued || !s.issued || s.completed then Stop(BadCompletion)
    else
      var c1 := With(c, r, s.(completed := true));
      var c2 :- if s.recoverInst then RecoverAll(c1, r) else Ok(c1);
      var c3 :- Broadcast(c2, r, 0);
      Broadcast(c3, r, 1)
  }

  function RecoverAll(c: Core, r: nat): (d: Outcome)
    requires Shape(c) && r < |c.st|
    ensures d.Ok? ==> Shape(d.core) && SameSize(c, d.core) && d.core.events == c.events && d.core.cycle == c.cycle
  {
    if c.st[r].inLsq then Stop(MispredictedMemOp)
    else
      var c1 :- Recover(c, r);
      TracerRecover(c1)
  }

  /** Serves every event that is due, earliest first. */
  function Writeback(c: Core): (d: Outcome)
    requires Shape(c)
    ensures d.Ok? ==> Shape(d.core) && SameSize(c, d.core)
    decreases |c.events|
  {
    if c.events == [] || c.events[0].x > c.cycle then Ok(c)
    else
      var l := c.events[0];
      var c1 := c.(events := c.events[1..], free := [l.id] + c.free);
      var c2 :- if Valid(c, l) then Complete(c1, l.rs) else Ok(c1);
      Writeback(c2)
  }

  // ----- memory dependences -----

  function Hide(unknown: seq<nat>, addr: nat): seq<nat> {
    seq(|unknown|, j requires 0 <= j < |unknown| => if unknown[j] == addr then 0 else unknown[j])
  }

  predicate LoadWaits(s: Station) {
    s.kind == Load && !s.queued && !s.issued && !s.completed && s.AllReady()
  }

  /** The LSQ scan from position `i`, with the addresses of stores whose value is unknown. */
  function Refresh(c: Core, i: nat, unknown: seq<nat>): (d: Outcome)
    requires Shape(c)
    ensures d.Ok? ==> Shape(d.core) && SameSize(c, d.core)
    decreases c.ln - i
  {
    if i >= c.ln then Ok(c)
    else
      var y := c.R + At(c.lh, c.L, i);
      var s := c.st[y];
      if s.kind == Store && !s.ready.b then Ok(c)
      else if s.kind == Store && !s.AllReady() && |unknown| == MAX_STD_UNKNOWNS then Stop(StdUnknownOverflow)
      else
        var u := if s.kind != Store then unknown
                 else if !s.AllReady() then unknown + [s.addr] else Hide(unknown, s.addr);
        var c1 :- if LoadWaits(s) && s.addr !in u then Enqueue(c, y) else Ok(c);
        Refresh(c1, i + 1, u)
  }

  // ----- issue -----

  /** The answers of the parts outside the engine, by sequence number: is a unit free,
      and the latencies of units, data cache and TLB. */
  datatype IssueEnv = IssueEnv(
    width: nat, unit: nat -> bool, opLat: nat -> nat, memLat: nat -> nat, tlbLat: nat -> nat)

  /** The first store to address `a` met when walking from LSQ index `i` back to the head. */
  function ForwardFrom(c: Core, i: nat, a: nat): Option<nat>
    requires Shape(c) && i < c.L
    decreases Pos(c.lh, c.L, i)
  {
    if i == c.lh then None
    else
      var y := c.R + Prev(i, c.L);
      if c.st[y].kind == Store && c.st[y].addr == a then Some(y) else ForwardFrom(c, Prev(i, c.L), a)
  }

  function Max(a: nat, b: nat): nat { if a < b then b else a }

  function LsqIndex(c: Core, x: nat): nat { if x >= c.R then x - c.R else 0 }

  function LoadLatency(c: Core, x: nat, env: IssueEnv): nat
    requires Shape(c) && x < |c.st|
  {
    var s := c.st[x];
    var fromLsq := ForwardFrom(c, LsqIndex(c, x), s.addr).Some?;
    Max(env.tlbLat(s.num), if fromLsq then 1 else env.memLat(s.num))
  }

  predicate GetsUnit(s: Station, env: IssueEnv) {
    (s.inLsq && s.kind == Store) || !s.usesUnit || env.unit(s.num)
  }

  /** Issues station `x`, or queues it again when no unit is free. */
  function IssueOne(c: Core, x: nat, env: IssueEnv): (d: Outcome)
    requires Shape(c) && x < |c.st|
    ensures d.Ok? ==> Shape(d.core) && SameSize(c, d.core)
  {
    var s := c.st[x];
    if !s.AllReady() || !s.queued || s.issued || s.completed then Stop(BadIssue)
    else
      var s1 := s.(queued := false);
      var c1 := With(c, x, s1);
      if s.inLsq && s.kind == Store then
        if s.onames != Duo(NA, NA) then Stop(StoreCreatesResult)
        else if s.recoverInst then Stop(MispredictedStore)
        else Ok(With(c, x, s1.(issued := true, completed := true)))
      else if !s.usesUnit then
        QueueEvent(With(c, x, s1.(issued := true)), x, c.cycle + 1)
      else if !env.unit(s.num) then Enqueue(c1, x)
      else
        var lat := if s.inLsq && s.kind == Load then LoadLatency(c, x, env) else env.opLat(s.num);
        QueueEvent(With(c, x, s1.(issued := true)), x, c.cycle + lat)
  }

  /** Puts station `x` back on the ready queue. */
  function Requeue(c: Core, x: nat): (d: Outcome)
    requires Shape(c) && x < |c.st|
    ensures d.Ok? ==> Shape(d.core) && SameSize(c, d.core)
  {
    Enqueue(With(c, x, c.st[x].(queued := false)), x)
  }

  /** One link taken off the old ready list, when `n` operations were issued so far. */
  function IssueLink(c: Core, l: Link, n: nat, env: IssueEnv): (d: Outcome)
    requires Shape(c)
    ensures d.Ok? ==> Shape(d.core) && SameSize(c, d.core)
  {
    var c1 :- if !Valid(c, l) then Ok(c)
              else if n < env.width then IssueOne(c, l.rs, env) else Requeue(c, l.rs);
    Ok(c1.(free := [l.id] + c1.free))
  }

  /** Serves the old ready list `pend`; the ready queue is rebuilt on the way. */
  function Issue(c: Core, pend: seq<Link>, n: nat, env: IssueEnv): (d: Outcome)
    requires Shape(c)
    ensures d.Ok? ==> Shape(d.core) && SameSize(c, d.core)
    decreases |pend|
  {
    if pend == [] then Ok(c)
    else
      var l := pend[0];
      var c1 :- IssueLink(c, l, n, env);
      Issue(c1, pend[1..], if n < env.width && Valid(c, l) && GetsUnit(c.st[l.rs], env) then n + 1 else n, env)
  }

  // ----- dispatch -----

  /** A decoded instruction: register names, effective address and program counters. */
  datatype Inst = Inst(
    kind: Kind, isNop: bool, isTrap: bool, directJump: bool, atHead: bool, usesUnit: bool,
    out1: Reg, out2: Reg, in1: Reg, in2: Reg, in3: Reg,
    addr: nat, PC: nat, nextPC: nat, predPC: nat, targetPC: nat)

  const INST_SIZE: nat := 8

  datatype DispatchEnv = DispatchEnv(width: nat, includeSpec: bool, perfect: bool)

  /** A fetch redirect at dispatch: perfect prediction, or a mispredicted jump target. */
  predicate Redirects(i: Inst, env: DispatchEnv) {
    || (i.predPC != i.nextPC && env.perfect)
    || (i.directJump && i.targetPC != i.predPC && i.predPC != i.PC + INST_SIZE)
  }

  predicate Mispredicts(i: Inst, env: DispatchEnv) {
    i.predPC != i.nextPC && !Redirects(i, env)
  }

  function LinkIdep(c: Core, x: nat, k: nat, name: Reg): (d: Outcome)
    requires Shape(c) && x < |c.st|
    ensures d.Ok? ==> Shape(d.core) && SameSize(c, d.core)
  {
    var s := c.st[x];
    var head := if name == NA then RegFile else if name in c.useSpec then c.scv[name] else c.cv[name];
    var named := s.(inames := s.inames.Set(k, name));
    match head
    case RegFile => Ok(With(c, x, named.(ready := s.ready.Set(k, true))))
    case By(p, o) =>
      if c.free == [] then Stop(OutOfLinks)
      else
        var l := NewLink(c, x, k);
        var c1 := With(c, x, named.(ready := s.ready.Set(k, false), waitOn := s.waitOn.Set(k, head)));
        var ps := c1.st[p];
        Ok(With(c1, p, ps.(odeps := ps.odeps.Set(o, [l] + ps.odeps.Get(o)))).(free := c.free[1..]))
  }

  function InstallOdep(c: Core, x: nat, o: nat, name: Reg): (d: Core)
    requires Shape(c) && x < |c.st| && o < 2
    ensures Shape(d) && SameSize(c, d)
  {
    var s := c.st[x];
    if name == NA then With(c, x, s.(onames := s.onames.Set(o, NA)))
    else
      var c1 := With(c, x, s.(onames := s.onames.Set(o, name), odeps := s.odeps.Set(o, [])));
      if c.specMode then c1.(useSpec := c.useSpec + {name}, scv := c.scv[name := By(x, o)])
      else c1.(cv := c.cv[name := By(x, o)])
  }

  /** Stores create no register and no NOP is mispredicted. */
  predicate WellFormed(i: Inst) {
    && (i.kind == Store ==> i.out1 == NA && i.out2 == NA)
    && (i.isNop ==> i.predPC == i.nextPC)
  }

  function Tail(c: Core): int { At(c.rh, c.R, c.rn) }
  function LsqTail(c: Core): int { c.R + At(c.lh, c.L, c.ln) }

  /** A station as filled in at dispatch, before its operands are linked. */
  function Blank(old_: Station, i: Inst, inLsq: bool, spec: bool, num: nat, partner: nat): Station {
    Station(
      kind := if inLsq then i.kind else Alu,
      atHead := if i.kind == Alu then i.atHead else false,
      usesUnit := if i.kind == Alu || inLsq then i.usesUnit else true,
      inLsq := inLsq, eaComp := !inLsq && i.kind != Alu, recoverInst := false, specMode := spec,
      addr := if inLsq then i.addr else 0, tag := old_.tag, num := num,
      queued := false, issued := false, completed := false,
      onames := Duo(NA, NA), odeps := old_.odeps,
      ready := Tri(true, true, true), inames := Tri(NA, NA, NA),
      waitOn := Tri(RegFile, RegFile, RegFile), partner := partner)
  }

  /** The new entries at the tails. */
  function Allocate(c: Core, i: Inst): (d: Core)
    requires Shape(c) && c.rn < c.R && c.ln < c.L
    ensures Shape(d) && SameSize(c, d)
  {
    var x, y := Tail(c), LsqTail(c);
    var c1 := With(c, x, Blank(c.st[x], i, false, c.specMode, c.instSeq + 1, y)).(rn := c.rn + 1, instSeq := c.instSeq + 1);
    if i.kind == Alu then c1
    else With(c1, y, Blank(c.st[y], i, true, c.specMode, c.instSeq + 2, x)).(ln := c.ln + 1, instSeq := c.instSeq + 2)
  }

  function LinkThree(c: Core, x: nat, n0: Reg, n1: Reg, n2: Reg): (d: Outcome)
    requires Shape(c) && x < |c.st|
    ensures d.Ok? ==> Shape(d.core) && SameSize(c, d.core)
  {
    var c0 :- LinkIdep(c, x, 0, n0);
    var c1 :- LinkIdep(c0, x, 1, n1);
    LinkIdep(c1, x, 2, n2)
  }

  function InstallTwo(c: Core, x: nat, n0: Reg, n1: Reg): (d: Core)
    requires Shape(c) && x < |c.st|
    ensures Shape(d) && SameSize(c, d)
  {
    InstallOdep(InstallOdep(c, x, 0, n0), x, 1, n1)
  }

  function EnqueueIfReady(c: Core, x: nat): (d: Outcome)
    requires Shape(c) && x < |c.st|
    ensures d.Ok? ==> Shape(d.core) && SameSize(c, d.core)
  {
    if c.st[x].AllReady() then Enqueue(c, x) else Ok(c)
  }

  function DispatchOp(c: Core, i: Inst): (d: Outcome)
    requires Shape(c) && c.rn < c.R && c.ln < c.L && WellFormed(i)
    ensures d.Ok? ==> Shape(d.core) && SameSize(c, d.core)
  {
    var x := Tail(c);
    var c0 := Allocate(c, i);
    var c1 :- LinkThree(c0, x, i.in1, i.in2, i.in3);
    EnqueueIfReady(InstallTwo(c1, x, i.out1, i.out2), x)
  }

  function DispatchMem(c: Core, i: Inst): (d: Outcome)
    requires Shape(c) && c.rn < c.R && c.ln < c.L && WellFormed(i)
    ensures d.Ok? ==> Shape(d.core) && SameSize(c, d.core)
  {
    var x, y := Tail(c), LsqTail(c);
    var c0 := Allocate(c, i);
    var c1 :- LinkThree(c0, x, NA, i.in2, i.in3);
    var c2 := InstallTwo(c1, x, DTMP, NA);
    var c3 :- LinkThree(c2, y, i.in1, DTMP, NA);
    var c4 := InstallTwo(c3, y, i.out1, i.out2);
    var c5 :- EnqueueIfReady(c4, x);
    if i.kind == Store then EnqueueIfReady(c5, y) else Ok(c5)
  }

  /** The trace generator enters mis-speculation at the entry in slot `x`. */
  function EnterSpec(c: Core, x: nat): (d: Core)
    requires Shape(c) && x < |c.st|
    ensures Shape(d) && SameSize(c, d)
  {
    With(c, x, c.st[x].(recoverInst := true)).(specMode := true)
  }

  function DispatchInst(c: Core, i: Inst, env: DispatchEnv): (d: Outcome)
    requires Shape(c) && c.rn < c.R && c.ln < c.L && WellFormed(i)
    ensures d.Ok? ==> Shape(d.core) && SameSize(c, d.core)
  {
    if i.isNop then Ok(c)
    else
      var c1 :- if i.kind == Alu then DispatchOp(c, i) else DispatchMem(c, i);
      Ok(if !c.specMode && Mispredicts(i, env) then EnterSpec(c1, Tail(c)) else c1)
  }

  function Dispatch(c: Core, insts: seq<Inst>, n: nat, env: DispatchEnv): (d: Outcome)
    requires Shape(c) && (forall j :: 0 <= j < |insts| ==> WellFormed(insts[j]))
    ensures d.Ok? ==> Shape(d.core) && SameSize(c, d.core)
    decreases |insts|
  {
    if n >= env.width || c.rn >= c.R || c.ln >= c.L || insts == [] || (c.specMode && !env.includeSpec) then Ok(c)
    else
      var i := insts[0];
      if i.isTrap && c.rn != 0 then Ok(c)
      else if i.isTrap && c.specMode then Stop(DrainedAndSpeculative)
      else
        var c1 :- DispatchInst(c, i, env);
        if Redirects(i, env) then Ok(c1)
        else Dispatch(c1, insts[1..], if i.isNop then n else n + 1, env)
  }

  // ----- one cycle -----

  /** What the rest of the simulator contributes to one cycle. */
  datatype Inputs = Inputs(
    commitWidth: nat, port: nat -> bool, issue: IssueEnv, insts: seq<Inst>, dispatch: DispatchEnv)

  ghost predicate WellFormedInputs(inp: Inputs) {
    && (forall j :: 0 <= j < |inp.insts| ==> WellFormed(inp.insts[j]))
    && (forall n :: inp.issue.opLat(n) >= 1 && inp.issue.memLat(n) >= 1)
  }

  function Cycle(c: Core, inp: Inputs): (d: Outcome)
    requires Shape(c) && (forall j :: 0 <= j < |inp.insts| ==> WellFormed(inp.insts[j]))
    ensures d.Ok? ==> Shape(d.core) && SameSize(c, d.core)
  {
    if c.rn < c.ln then Stop(RuuSmallerThanLsq)
    else
      var c1 :- Commit(c, inp.commitWidth, inp.port);
      var c2 :- Writeback(c1);
      var c3 :- Refresh(c2, 0, []);
      var c4 :- Issue(c3.(readyq := []), c3.readyq, 0, inp.issue);
      var c5 :- Dispatch(c4, inp.insts, 0, inp.dispatch);
      Ok(c5.(cycle := c5.cycle + 1))
  }
}
