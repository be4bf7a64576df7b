/** The engine in place: arrays, counters and lists changed step by step, proved to compute
    the stage functions. */
module RuuEngine {
  import opened Common
  import opened RuuTypes
  import opened RuuSteps
  import opened RuuInvariants
  import opened RuuCycle
  import opened RuuNeverStops
  import opened RuuUnits
  import Units = RuuUnitsProof
  import Refreshing = RuuRefreshStage

  /** What a method reports: no fault and the new state, or the panic it stopped at. */
  ghost predicate Reports(o: Outcome, fault: Option<Fault>, c: Core) {
    if fault.None? then o == Ok(c) else o == Stop(fault.value)
  }

  /** The same with the busy counters of the units. */
  ghost predicate ReportsUnits(r: UnitOutcome, fault: Option<Fault>, c: Core, busy: seq<nat>) {
    if fault.None? then r == Ran(c, busy) else r == Halt(fault.value)
  }

  lemma ModShift(a: nat, size: nat)
    requires a < size
    ensures (a + size) % size == a
  {
    var q, r := (a + size) / size, (a + size) % size;
    assert a + size == q * size + r && r < size;
  }

  /** The ring index before `i`. */
  method StepBack(i: nat, size: nat) returns (j: nat)
    requires i < size
    ensures j == Prev(i, size) && j < size
  {
    if i > 0 {
      ModShift(i - 1, size);
    }
    j := (i + (size - 1)) % size;
  }

  /** The ring index after `i`. */
  method StepOn(i: nat, size: nat) returns (j: nat)
    requires i < size
    ensures j == Next(i, size) && j < size
  {
    if i + 1 < size {
      assert (i + 1) % size == i + 1;
    }
    j := (i + 1) % size;
  }

  lemma CommitIs(c: Core, busy: seq<nat>, width: nat, u: UnitEnv)
    requires Shape(c)
    ensures c.rn == 0 || width == 0 ==> CommitUnits(c, busy, width, u) == Ran(c, busy)
    ensures c.rn > 0 && width > 0 ==>
              var gate, g := GateNow(c, busy, u), Port(c, busy, u);
              && !InUse(busy, g)
              && (gate == Stall ==> CommitUnits(c, busy, width, u) == Ran(c, busy))
              && (gate.Broken? ==> CommitUnits(c, busy, width, u) == Halt(gate.fault))
              && (gate == Open ==>
                    && (c.st[c.rh].eaComp ==> c.ln > 0)
                    && CommitUnits(c, busy, width, u) ==
                         if c.st[c.rh].odeps != Duo([], []) then Halt(RetiredHasOdeps)
                         else CommitUnits(Retire(c), Reserve(busy, g), width - 1, u))
  {
    if c.rn > 0 && width > 0 {
      Units.PoolNeverInUse(c, busy, u);
      Units.CommitUnitsStep(c, busy, width, u);
      hide CommitUnits, CommitGate, Port, Retire;
    }
  }

  lemma RetireIs(c: Core)
    requires Shape(c) && c.rn > 0 && (c.st[c.rh].eaComp ==> c.ln > 0)
    ensures c.st[c.rh].eaComp ==> Shape(PopLsq(c)) && PopLsq(c).rn > 0
    ensures Retire(c) == PopRuu(if c.st[c.rh].eaComp then PopLsq(c) else c)
  {
  }

  lemma RecoverIs(c: Core, branch: nat)
    requires Shape(c)
    ensures var t := Prev(At(c.rh, c.R, c.rn), c.R);
            && 0 <= t < c.R && t < |c.st|
            && Recover(c, branch) ==
                 if t == branch then Ok(c.(useSpec := {}))
                 else if c.rn == 0 then Stop(EmptyRuu)
                 else if t == c.rh then Stop(HeadTailBroken)
                 else if c.st[t].eaComp && c.ln == 0 then Stop(OutOfSyncAtSquash)
                 else if c.st[At(c.rh, c.R, c.rn - 1)].eaComp && c.ln == 0 then Stop(OutOfSyncAtSquash)
                 else Recover(Squash(c), branch)
  {
  }

  lemma RecoverSlots(c: Core)
    requires Shape(c)
    ensures c.rn > 0 ==> At(c.rh, c.R, c.rn - 1) == Prev(At(c.rh, c.R, c.rn), c.R)
    ensures c.ln > 0 ==> At(c.lh, c.L, c.ln - 1) == Prev(At(c.lh, c.L, c.ln), c.L)
  {
  }

  lemma SquashLsqIs(c: Core)
    requires Shape(c) && c.ln > 0
    ensures var y := c.R + At(c.lh, c.L, c.ln - 1);
            && 0 <= y < |c.st| && Shape(SquashLsq(c)) && SquashLsq(c).rn == c.rn
            && SquashLsq(c) == With(c, y, c.st[y].(tag := c.st[y].tag + 1, odeps := Duo([], []))).(
                 free := DropChains(c.free, c.st[y]), ln := c.ln - 1)
  {
  }

  lemma SquashRuuIs(c: Core)
    requires Shape(c) && c.rn > 0
    ensures var x := At(c.rh, c.R, c.rn - 1);
            && 0 <= x < |c.st| && Shape(SquashRuu(c))
            && SquashRuu(c) == With(c, x, c.st[x].(tag := c.st[x].tag + 1, odeps := Duo([], []))).(
                 free := DropChains(c.free, c.st[x]), rn := c.rn - 1)
  {
  }

  lemma SquashIs(c: Core)
    requires Shape(c) && c.rn > 0 && (c.st[At(c.rh, c.R, c.rn - 1)].eaComp ==> c.ln > 0)
    ensures c.st[At(c.rh, c.R, c.rn - 1)].eaComp ==> Shape(SquashLsq(c)) && SquashLsq(c).rn > 0
    ensures Squash(c) == SquashRuu(if c.st[At(c.rh, c.R, c.rn - 1)].eaComp then SquashLsq(c) else c)
  {
  }

  lemma WakeAllIs(c: Core, r: nat, o: nat)
    requires Shape(c) && r < |c.st| && o < 2
    ensures c.st[r].odeps.Get(o) == [] ==> WakeAll(c, r, o) == Ok(c)
    ensures c.st[r].odeps.Get(o) != [] ==>
              var w := WakeFirst(c, r, o);
              && WakeAll(c, r, o) == (if w.Ok? then WakeAll(w.core, r, o) else w)
              && (w.Ok? ==> |w.core.st[r].odeps.Get(o)| < |c.st[r].odeps.Get(o)|)
  {
  }

  lemma CompleteParts(c: Core, r: nat)
    requires Shape(c) && r < |c.st|
    ensures Shape(With(c, r, c.st[r].(completed := true)))
  {
  }

  /** The first due event of a live instance, and the state with the events before it gone. */
  function NextEvent(c: Core): (r: (Option<nat>, Core))
    requires Shape(c)
    ensures Shape(r.1) && |r.1.st| == |c.st| && r.1.cycle == c.cycle && |r.1.events| <= |c.events|
    ensures r.0.Some? ==> r.0.value < |c.st| && |r.1.events| < |c.events|
    decreases |c.events|
  {
    if c.events == [] || c.events[0].x > c.cycle then (None, c)
    else
      var l := c.events[0];
      var d := c.(events := c.events[1..], free := [l.id] + c.free);
      if Valid(c, l) then (Some(l.rs), d) else NextEvent(d)
  }

  /** What writeback does from an event on. */
  ghost function AfterEvent(next: Option<nat>, c: Core): Outcome
    requires Shape(c) && (next.Some? ==> next.value < |c.st|)
  {
    if next.None? then Ok(c)
    else
      var r := Complete(c, next.value);
      if r.Stop? then r else Writeback(r.core)
  }

  lemma {:induction false} WritebackNextEvent(c: Core)
    requires Shape(c)
    ensures Writeback(c) == AfterEvent(NextEvent(c).0, NextEvent(c).1)
    decreases |c.events|
  {
    if c.events != [] && c.events[0].x <= c.cycle {
      var l := c.events[0];
      var d := c.(events := c.events[1..], free := [l.id] + c.free);
      if !Valid(c, l) {
        WritebackNextEvent(d);
      }
    }
    hide Complete;
  }

  lemma AtStart(head: nat, size: nat)
    requires head < size
    ensures At(head, size, 0) == head
  {
  }

  lemma AtNext(head: nat, size: nat, i: nat)
    requires head < size && i < size
    ensures 0 <= At(head, size, i) < size && At(head, size, i + 1) == Next(At(head, size, i), size)
  {
  }

  lemma RefreshIs(c: Core, i: nat, unknown: seq<nat>)
    requires Shape(c)
    ensures i >= c.ln ==> Refresh(c, i, unknown) == Ok(c)
    ensures i < c.ln ==>
              var y := c.R + At(c.lh, c.L, i);
              && 0 <= y < |c.st|
              && var s := c.st[y];
                 Refresh(c, i, unknown) ==
                   if s.kind == Store && !s.ready.b then Ok(c)
                   else if s.kind == Store && !s.AllReady() && |unknown| == MAX_STD_UNKNOWNS then Stop(StdUnknownOverflow)
                   else
                     var u := Refreshing.Seen(unknown, s);
                     var e := if LoadWaits(s) && s.addr !in u then Enqueue(c, y) else Ok(c);
                     if e.Ok? then Refresh(e.core, i + 1, u) else e
  {
    hide Enqueue, Hide;
  }

  /** The link's instance is still in flight. */
  ghost predicate InFlight(c: Core, l: Link) { Valid(c, l) }

  /** The part of issue after the checks, for an operation that is no store. */
  ghost function Start(c: Core, x: nat, env: IssueEnv): Outcome
    requires Shape(c) && x < |c.st|
  {
    var s := c.st[x];
    var c1, c2 := With(c, x, s.(queued := false)), With(c, x, s.(queued := false, issued := true));
    if !s.usesUnit then QueueEvent(c2, x, c.cycle + 1)
    else if !env.unit(s.num) then Enqueue(c1, x)
    else QueueEvent(c2, x, c.cycle + (if s.inLsq && s.kind == Load then LoadLatency(c, x, env) else env.opLat(s.num)))
  }

  lemma ForwardIs(c: Core, i: nat, a: nat)
    requires Shape(c) && i < c.L
    ensures i == c.lh ==> ForwardFrom(c, i, a) == None
    ensures i != c.lh ==>
              var j := Prev(i, c.L);
              && 0 <= j < c.L && c.R + j < |c.st| && Pos(c.lh, c.L, j) == Pos(c.lh, c.L, i) - 1 && Pos(c.lh, c.L, i) > 0
              && ForwardFrom(c, i, a) ==
                   if c.st[c.R + j].kind == Store && c.st[c.R + j].addr == a then Some(c.R + j) else ForwardFrom(c, j, a)
  {
  }

  lemma DetachShape(c: Core)
    requires Shape(c)
    ensures Shape(c.(readyq := []))
  {
  }

  lemma IssueIs(c: Core, busy: seq<nat>, pend: seq<Link>, n: nat, u: UnitEnv)
    requires Shape(c)
    ensures pend == [] ==> IssueUnits(c, busy, pend, n, u) == Ran(c, busy)
    ensures pend != [] ==>
              var l := pend[0];
              var g := UnitFor(c, l, n, busy, u);
              var r := IssueLink(c, l, n, StepEnv(u, g));
              && !InUse(busy, g)
              && IssueUnits(c, busy, pend, n, u) ==
                if r.Stop? then Halt(r.fault)
                else IssueUnits(r.core, Reserve(busy, g), pend[1..], Issued(c, l, n, StepEnv(u, g)), u)
  {
    if pend != [] {
      UnitFree(c, pend[0], n, busy, u);
      Units.IssueUnitsStep(c, busy, pend, n, u);
    }
    hide IssueLink, UnitFor, StepEnv, Issued;
  }

  lemma UnitFree(c: Core, l: Link, n: nat, busy: seq<nat>, u: UnitEnv)
    ensures !InUse(busy, UnitFor(c, l, n, busy, u))
  {
  }

  lemma ServedInRange(u: UnitEnv, num: nat, units: nat)
    requires Usable(u, units)
    ensures forall i :: 0 <= i < |Serving(u, num)| ==> Serving(u, num)[i].unit < units
  {
  }

  lemma FoundInRange(busy: seq<nat>, list: seq<Template>)
    ensures FirstFree(busy, list, 0).Some? ==> FirstFree(busy, list, 0).value.unit < |busy|
  {
  }

  lemma PortIs(c: Core, busy: seq<nat>, u: UnitEnv)
    requires Shape(c) && c.rn > 0
    ensures Port(c, busy, u) == if StoreAtHead(c) then FirstFree(busy, Serving(u, c.st[c.R + c.lh].num), 0) else None
    ensures var h, y := c.st[c.rh], c.st[c.R + c.lh];
      GateNow(c, busy, u) ==
        if !h.completed then Stall
        else if !h.eaComp then Open
        else if c.ln == 0 || !y.inLsq then Broken(OutOfSyncAtCommit)
        else if !y.completed then Stall
        else if y.kind == Store && Port(c, busy, u).None? then Stall
        else Open
  {
    hide FirstFree, Serving;
  }

  /** Where the producer of a register is to be found. */
  function Head(c: Core, name: Reg): Creator
    requires |c.cv| == |c.scv| == MD_TOTAL_REGS
  {
    if name == NA then RegFile else if name in c.useSpec then c.scv[name] else c.cv[name]
  }

  function Waiting(c: Core, x: nat, k: nat, name: Reg, head: Creator): Core
    requires x < |c.st| && head.By? && head.slot < |c.st| && head.odep < 2 && c.free != []
  {
    var s := c.st[x];
    var l := Link(c.free[0], x, s.tag, k, s.num);
    var c1 := With(c, x, s.(inames := s.inames.Set(k, name), ready := s.ready.Set(k, false), waitOn := s.waitOn.Set(k, head)));
    var ps := c1.st[head.slot];
    With(c1, head.slot, ps.(odeps := ps.odeps.Set(head.odep, [l] + ps.odeps.Get(head.odep)))).(free := c.free[1..])
  }

  lemma LinkIs(c: Core, x: nat, k: nat, name: Reg)
    requires Shape(c) && x < |c.st|
    ensures |c.cv| == |c.scv| == MD_TOTAL_REGS
    ensures var s, head := c.st[x], Head(c, name);
            && (head == RegFile ==>
                  LinkIdep(c, x, k, name) == Ok(With(c, x, s.(inames := s.inames.Set(k, name), ready := s.ready.Set(k, true)))))
            && (head.By? ==>
                  && head.slot < |c.st| && head.odep < 2
                  && LinkIdep(c, x, k, name) ==
                       if c.free == [] then Stop(OutOfLinks) else Ok(Waiting(c, x, k, name, head)))
  {
  }

  /** A new RUU entry, and a new LSQ entry, at the tail. */
  function WithRuu(c: Core, i: Inst, partner: nat): Core
    requires Shape(c) && c.rn < c.R
  {
    With(c, Tail(c), Blank(c.st[Tail(c)], i, false, c.specMode, c.instSeq + 1, partner)).(rn := c.rn + 1, instSeq := c.instSeq + 1)
  }

  function WithLsq(c: Core, i: Inst, partner: nat): Core
    requires Shape(c) && c.ln < c.L
  {
    With(c, LsqTail(c), Blank(c.st[LsqTail(c)], i, true, c.specMode, c.instSeq + 1, partner)).(ln := c.ln + 1, instSeq := c.instSeq + 1)
  }

  lemma AllocateIs(c: Core, i: Inst)
    requires Shape(c) && c.rn < c.R && c.ln < c.L
    ensures 0 <= Tail(c) < c.R && c.R <= LsqTail(c) < c.R + c.L
    ensures var d := WithRuu(c, i, LsqTail(c));
            && Shape(d) && d.ln == c.ln && d.L == c.L
            && Allocate(c, i) == if i.kind == Alu then d else WithLsq(d, i, Tail(c))
  {
    hide Blank;
  }

  lemma DispatchIs(c: Core, insts: seq<Inst>, n: nat, env: DispatchEnv)
    requires Shape(c) && (forall j :: 0 <= j < |insts| ==> WellFormed(insts[j]))
    ensures n >= env.width || c.rn >= c.R || c.ln >= c.L || insts == [] || (c.specMode && !env.includeSpec) ==>
              Dispatch(c, insts, n, env) == Ok(c)
    ensures !(n >= env.width || c.rn >= c.R || c.ln >= c.L || insts == [] || (c.specMode && !env.includeSpec)) ==>
              var i := insts[0];
              var r := DispatchInst(c, i, env);
              && (i.isTrap && c.rn != 0 ==> Dispatch(c, insts, n, env) == Ok(c))
              && (i.isTrap && c.rn == 0 && c.specMode ==> Dispatch(c, insts, n, env) == Stop(DrainedAndSpeculative))
              && (!i.isTrap || (c.rn == 0 && !c.specMode) ==>
                    Dispatch(c, insts, n, env) ==
                      if r.Stop? || Redirects(i, env) then r
                      else Dispatch(r.core, insts[1..], if i.isNop then n else n + 1, env))
  {
    hide DispatchInst;
  }

  lemma CycleUnitsParts(c: Core, busy: seq<nat>, inp: UnitInputs)
    requires Shape(c) && (forall j :: 0 <= j < |inp.insts| ==> WellFormed(inp.insts[j]))
    ensures CycleUnits(c, busy, inp) ==
      if c.rn < c.ln then Halt(RuuSmallerThanLsq)
      else
        var r := CommitUnits(c, busy, inp.commitWidth, inp.units);
        if r.Halt? then r else RestUnits(r.core, Release(r.busy), inp)
  {
    hide CommitUnits, RestUnits, Shape;
  }

  lemma RestUnitsParts(c: Core, busy: seq<nat>, inp: UnitInputs)
    requires Shape(c) && (forall j :: 0 <= j < |inp.insts| ==> WellFormed(inp.insts[j]))
    ensures RestUnits(c, busy, inp) ==
            var r2 := Writeback(c);
            if r2.Stop? then Halt(r2.fault) else
              var r3 := Refresh(r2.core, 0, []);
              if r3.Stop? then Halt(r3.fault) else
                var r4 := IssueUnits(r3.core.(readyq := []), busy, r3.core.readyq, 0, inp.units);
                if r4.Halt? then r4 else
                  var r5 := Dispatch(r4.core, inp.insts, 0, inp.dispatch);
                  if r5.Stop? then Halt(r5.fault) else Ran(RuuCycle.Tick(r5.core), r4.busy)
    ensures Writeback(c).Ok? ==> Shape(Writeback(c).core)
    ensures forall b: Core :: Shape(b) ==> Shape(b.(readyq := []))
  {
    hide Writeback, Refresh, IssueUnits, Dispatch;
  }

  lemma AtIsMod(head: nat, size: nat, n: nat)
    requires head < size && n <= size
    ensures (head + n) % size == At(head, size, n)
  {
    if head + n >= size {
      ModShift(head + n - size, size);
    }
  }

  lemma RunUnitsNext(c: Core, busy: seq<nat>, inputs: seq<UnitInputs>)
    requires Shape(c) && WellFormedUnitRun(inputs, |busy|)
    ensures inputs == [] ==> RunUnits(c, busy, inputs) == Ran(c, busy)
    ensures inputs != [] ==>
      && WellFormedUnits(inputs[0], |busy|) && WellFormedUnitRun(inputs[1..], |busy|)
      && (forall j :: 0 <= j < |inputs[0].insts| ==> WellFormed(inputs[0].insts[j]))
      && var r := CycleUnits(c, busy, inputs[0]);
         RunUnits(c, busy, inputs) == if r.Halt? then r else RunUnits(r.core, r.busy, inputs[1..])
  {
    if inputs != [] { assert WellFormedUnits(inputs[0], |busy|); }
    hide CycleUnits, Shape;
  }

  class Engine {
    const ruuSize: nat
    const lsqSize: nat
    const ruu: array<Station>
    const lsq: array<Station>
    const createVector: array<Creator>
    const specCreateVector: array<Creator>
    const units: UnitPool
    var ruuHead: nat
    var ruuTail: nat
    var ruuNum: nat
    var lsqHead: nat
    var lsqTail: nat
    var lsqNum: nat
    var freeList: seq<nat>
    var eventQueue: seq<Link>
    var readyQueue: seq<Link>
    var useSpecCV: set<Reg>
    var specMode: bool
    var instSeq: nat
    var simCycle: nat

    ghost predicate Separate() {
      && ruu.Length == ruuSize && lsq.Length == lsqSize
      && ruu != lsq && createVector != specCreateVector
    }

    ghost function Stations(): seq<Station>
      reads ruu, lsq
    {
      ruu[..] + lsq[..]
    }

    ghost function Created(): seq<Creator>
      reads createVector
    {
      createVector[..]
    }

    ghost function SpecCreated(): seq<Creator>
      reads specCreateVector
    {
      specCreateVector[..]
    }

    ghost function View(): Core
      reads this, ruu, lsq, createVector, specCreateVector
    {
      Core(ruuSize, lsqSize, Stations(), ruuHead, ruuNum, lsqHead, lsqNum, freeList, eventQueue, readyQueue,
           Created(), SpecCreated(), useSpecCV, specMode, instSeq, simCycle)
    }

    /** In shape, whatever the two tail indexes are. */
    ghost predicate InShape()
      reads this, ruu, lsq, createVector, specCreateVector
    {
      Separate() && Shape(View())
    }

    /** Head, count and tail of both queues agree. */
    ghost predicate Valid()
      reads this, ruu, lsq, createVector, specCreateVector
    {
      InShape() && ruuTail == At(ruuHead, ruuSize, ruuNum) && lsqTail == At(lsqHead, lsqSize, lsqNum)
    }

    /** The station in a slot of either queue. */
    function Rs(x: nat): Station
      requires Separate() && x < ruuSize + lsqSize
      reads ruu, lsq
      ensures x < |Stations()| && Rs(x) == Stations()[x]
    {
      if x < ruuSize then ruu[x] else lsq[x - ruuSize]
    }

    method Write(x: nat, s: Station)
      requires InShape() && x < ruuSize + lsqSize
      modifies ruu, lsq
      ensures InShape() && View() == With(old(View()), x, s)
    {
      if x < ruuSize {
        ruu[x] := s;
      } else {
        lsq[x - ruuSize] := s;
      }
      assert Stations() == old(Stations())[x := s];
    }

    static lemma Passes(q: seq<Link>, node: Link)
      requires q != [] && q[0].x < node.x
      ensures InsertByX(q, node) == [q[0]] + InsertByX(q[1..], node)
    {
    }

    static lemma WalkPast(q: seq<Link>, node: Link, i: nat)
      requires i < |q| && q[i].x < node.x
      ensures q[..i] + InsertByX(q[i..], node) == q[..i + 1] + InsertByX(q[i + 1..], node)
    {
      hide InsertByX;
      Passes(q[i..], node);
      assert q[i..][1..] == q[i + 1..];
      assert q[..i + 1] == q[..i] + [q[i]];
    }

    static lemma StopHere(q: seq<Link>, node: Link, i: nat)
      requires i <= |q| && (i < |q| ==> q[i].x >= node.x)
      ensures InsertByX(q[i..], node) == [node] + q[i..]
    {
    }

    /** Walks past the links with a smaller `x`. */
    static method InsertionPoint(q: seq<Link>, node: Link) returns (i: nat)
      ensures i <= |q| && InsertByX(q, node) == q[..i] + [node] + q[i..]
      ensures (forall j :: 0 <= j < i ==> q[j].x < node.x) && (i < |q| ==> q[i].x >= node.x)
    {
      hide InsertByX;
      i := 0;
      assert q[..0] + InsertByX(q[0..], node) == InsertByX(q, node) by { assert q[0..] == q; }
      while i < |q| && q[i].x < node.x
        invariant i <= |q| && forall j :: 0 <= j < i ==> q[j].x < node.x
        invariant InsertByX(q, node) == q[..i] + InsertByX(q[i..], node)
      {
        WalkPast(q, node, i);
        i := i + 1;
      }
      StopHere(q, node, i);
      assert q[..i] + ([node] + q[i..]) == q[..i] + [node] + q[i..];
    }

    method ReadyqEnqueue(x: nat) returns (fault: Option<Fault>)
      requires InShape() && x < ruuSize + lsqSize
      modifies this`freeList, this`readyQueue, ruu, lsq
      ensures Reports(Enqueue(old(View()), x), fault, View())
      ensures fault.None? ==> InShape()
    {
      var rs := Rs(x);
      if rs.queued {
        return Some(AlreadyQueued);
      }
      if freeList == [] {
        return Some(OutOfLinks);
      }
      Write(x, rs.(queued := true));
      var node := Link(freeList[0], x, rs.tag, rs.num, rs.num);
      freeList := freeList[1..];
      var i := 0;
      if !rs.inLsq && !rs.atHead {
        i := InsertionPoint(readyQueue, node);
      }
      readyQueue := readyQueue[..i] + [node] + readyQueue[i..];
      assert View() == With(old(View()), x, rs.(queued := true)).(free := freeList, readyq := readyQueue);
      fault := None;
    }

    method EventqQueueEvent(x: nat, when: nat) returns (fault: Option<Fault>)
      requires InShape() && x < ruuSize + lsqSize
      modifies this`freeList, this`eventQueue
      ensures Reports(QueueEvent(old(View()), x, when), fault, View())
      ensures fault.None? ==> InShape()
    {
      var rs := Rs(x);
      if rs.completed {
        return Some(EventCompleted);
      }
      if when <= simCycle {
        return Some(EventInPast);
      }
      if freeList == [] {
        return Some(OutOfLinks);
      }
      var ev := Link(freeList[0], x, rs.tag, when, rs.num);
      freeList := freeList[1..];
      var i := InsertionPoint(eventQueue, ev);
      eventQueue := eventQueue[..i] + [ev] + eventQueue[i..];
      assert View() == old(View()).(free := freeList, events := eventQueue);
      fault := None;
    }

    // ----- commit -----

    method RuuCommit(width: nat, u: UnitEnv) returns (fault: Option<Fault>)
      requires Valid() && Usable(u, units.busy.Length)
      modifies this`ruuHead, this`ruuNum, this`lsqHead, this`lsqNum, ruu, lsq, units.busy
      ensures ReportsUnits(CommitUnits(old(View()), old(units.busy[..]), width, u), fault, View(), units.busy[..])
      ensures fault.None? ==> Valid()
    {
      hide CommitUnits, Retire, GateNow, Port, Shape, Usable, InUse, Reserve, Valid, InShape, View, Stations, Separate;
      ghost var c, b := View(), units.busy[..];
      HeadHere();
      CommitIs(c, b, width, u);
      var committed := 0;
      while ruuNum > 0 && committed < width
        invariant committed <= width && Valid() && Shape(c) && Shape(View())
        invariant CommitUnits(c, b, width, u) == CommitUnits(View(), units.busy[..], width - committed, u)
        decreases width - committed
      {
        ghost var d := View();
        HeadHere();
        CommitIs(d, units.busy[..], width - committed, u);
        var gate, g := HeadGate(u);
        if gate == Stall {
          return None;
        }
        if gate != Open {
          return Some(gate.fault);
        }
        TakeUnit(g);
        var odeps := RetireHead();
        committed := committed + 1;
        if odeps != Duo([], []) {
          return Some(RetiredHasOdeps);
        }
      }
      HeadHere();
      CommitIs(View(), units.busy[..], width - committed, u);
      fault := None;
    }

    /** Reserves the unit that was handed out; it is never in use. */
    method TakeUnit(g: Option<Template>)
      requires !InUse(units.busy[..], g) && (g.Some? ==> g.value.unit < units.busy.Length)
      modifies units.busy
      ensures units.busy[..] == Reserve(old(units.busy[..]), g)
    {
      if g.Some? {
        var inUse := units.Take(g.value);
        if inUse {
          assert false;
        }
      }
    }

    lemma ValidShape()
      requires Valid()
      ensures Shape(View())
    {
    }

    lemma HeadHere()
      requires Valid()
      ensures Shape(View()) && View().rn == ruuNum && 0 <= ruuHead < ruu.Length && 0 <= View().rh < |View().st|
      ensures View().st[View().rh] == ruu[ruuHead]
    {
    }

    /** Why the head of the RUU can or cannot retire, and the port a store is to retire through. */
    method HeadGate(u: UnitEnv) returns (gate: Gate, g: Option<Template>)
      requires Valid() && ruuNum > 0 && Usable(u, units.busy.Length)
      ensures Shape(View()) && View().rn > 0 && gate == GateNow(View(), units.busy[..], u)
      ensures gate == Open ==> g == Port(View(), units.busy[..], u) && (g.Some? ==> g.value.unit < units.busy.Length)
      ensures gate == Open && ruu[ruuHead].eaComp ==> lsqNum > 0
    {
      assert View().st[View().rh] == ruu[ruuHead] && View().st[View().R + View().lh] == lsq[lsqHead];
      PortIs(View(), units.busy[..], u);
      hide GateNow, Port, FirstFree, Usable, Serving;
      g := None;
      var rs := ruu[ruuHead];
      if !rs.completed {
        return Stall, g;
      }
      if rs.eaComp {
        if lsqNum <= 0 || !lsq[lsqHead].inLsq {
          return Broken(OutOfSyncAtCommit), g;
        }
        if !lsq[lsqHead].completed {
          return Stall, g;
        }
        if lsq[lsqHead].kind == Store {
          ServedInRange(u, lsq[lsqHead].num, units.busy.Length);
          FoundInRange(units.busy[..], Serving(u, lsq[lsqHead].num));
          g := units.ResGet(Serving(u, lsq[lsqHead].num));
          if g.None? {
            return Stall, g;
          }
        }
      }
      gate := Open;
    }

    /** Retires the head of the RUU, its memory half first; gives the chains the entry still had. */
    method RetireHead() returns (odeps: Duo<seq<Link>>)
      requires Valid() && ruuNum > 0 && (ruu[ruuHead].eaComp ==> lsqNum > 0)
      modifies this`ruuHead, this`ruuNum, this`lsqHead, this`lsqNum, ruu, lsq
      ensures Valid() && Shape(old(View())) && Shape(View()) && old(View()).rn > 0
      ensures (old(View()).st[old(View()).rh].eaComp ==> old(View()).ln > 0) && View() == Retire(old(View()))
      ensures odeps == old(View()).st[old(View()).rh].odeps
    {
      hide Retire, PopRuu, PopLsq;
      ghost var c := View();
      HeadHere();
      RetireIs(c);
      var rs := ruu[ruuHead];
      if rs.eaComp {
        RetireLsq();
        ValidShape();
      }
      RetireRuu();
      ValidShape();
      odeps := rs.odeps;
    }

    method RetireLsq()
      requires Valid() && lsqNum > 0
      modifies this`lsqHead, this`lsqNum, lsq
      ensures Valid() && View() == PopLsq(old(View()))
    {
      ghost var c := View();
      lsq[lsqHead] := lsq[lsqHead].(tag := lsq[lsqHead].tag + 1);
      assert Stations() == c.st[ruuSize + c.lh := c.st[ruuSize + c.lh].(tag := c.st[ruuSize + c.lh].tag + 1)];
      lsqHead := StepOn(lsqHead, lsqSize);
      lsqNum := lsqNum - 1;
    }

    method RetireRuu()
      requires Valid() && ruuNum > 0
      modifies this`ruuHead, this`ruuNum, ruu
      ensures Valid() && View() == PopRuu(old(View()))
    {
      ghost var c := View();
      ruu[ruuHead] := ruu[ruuHead].(tag := ruu[ruuHead].tag + 1);
      assert Stations() == c.st[c.rh := c.st[c.rh].(tag := c.st[c.rh].tag + 1)];
      ruuHead := StepOn(ruuHead, ruuSize);
      ruuNum := ruuNum - 1;
    }

    // ----- recovery -----

    /** Frees a list of links, one after the other. */
    method FreeLinks(chain: seq<Link>)
      modifies this`freeList
      ensures freeList == FreeChain(old(freeList), chain)
    {
      var i := 0;
      while i < |chain|
        invariant i <= |chain|
        invariant FreeChain(old(freeList), chain) == FreeChain(freeList, chain[i..])
      {
        assert chain[i..][1..] == chain[i + 1..];
        freeList := [chain[i].id] + freeList;
        i := i + 1;
      }
    }

    method DropChain(x: nat, o: nat)
      requires InShape() && x < ruuSize + lsqSize && o < 2
      modifies this`freeList, ruu, lsq
      ensures InShape()
      ensures var c := old(View());
              View() == With(c, x, c.st[x].(odeps := c.st[x].odeps.Set(o, []))).(free := FreeChain(c.free, c.st[x].odeps.Get(o)))
    {
      var rs := Rs(x);
      FreeLinks(rs.odeps.Get(o));
      Write(x, rs.(odeps := rs.odeps.Set(o, [])));
    }

    /** Frees both consumer chains of a station and bumps its tag. */
    method SquashStation(x: nat)
      requires InShape() && x < ruuSize + lsqSize
      modifies this`freeList, ruu, lsq
      ensures InShape()
      ensures var c := old(View());
              View() == With(c, x, c.st[x].(tag := c.st[x].tag + 1, odeps := Duo([], []))).(free := DropChains(c.free, c.st[x]))
    {
      hide FreeChain, Shape;
      ghost var c := View();
      DropChain(x, 0);
      ghost var d := View();
      assert d.st[x] == c.st[x].(odeps := Duo([], c.st[x].odeps.b));
      DropChain(x, 1);
      var rs := Rs(x);
      Write(x, rs.(tag := rs.tag + 1));
      assert View().st == c.st[x := c.st[x].(tag := c.st[x].tag + 1, odeps := Duo([], []))];
    }

    method SquashLsqTail(index: nat)
      requires InShape() && lsqNum > 0 && index == At(lsqHead, lsqSize, lsqNum - 1)
      modifies this`lsqNum, this`freeList, ruu, lsq
      ensures InShape() && Shape(old(View())) && View() == SquashLsq(old(View())) && lsqNum == old(lsqNum) - 1
    {
      hide SquashLsq, DropChains;
      SquashLsqIs(View());
      SquashStation(ruuSize + index);
      lsqNum := lsqNum - 1;
    }

    method SquashRuuTail(index: nat)
      requires InShape() && ruuNum > 0 && index == At(ruuHead, ruuSize, ruuNum - 1)
      modifies this`ruuNum, this`freeList, ruu, lsq
      ensures InShape() && Shape(old(View())) && View() == SquashRuu(old(View())) && ruuNum == old(ruuNum) - 1
    {
      hide SquashRuu, DropChains;
      SquashRuuIs(View());
      SquashStation(index);
      ruuNum := ruuNum - 1;
    }

    /** Squashes the youngest RUU entry and its memory half, if it has one. */
    method SquashYoungest(ruuIndex: nat, lsqIndex: nat) returns (isMem: bool)
      requires InShape() && ruuNum > 0 && ruuIndex == At(ruuHead, ruuSize, ruuNum - 1)
      requires ruuIndex < ruuSize && (ruu[ruuIndex].eaComp ==> lsqNum > 0 && lsqIndex == At(lsqHead, lsqSize, lsqNum - 1))
      modifies this`ruuNum, this`lsqNum, this`freeList, ruu, lsq
      ensures InShape() && Shape(View()) && Shape(old(View())) && isMem == old(ruu[ruuIndex].eaComp)
      ensures old(View()).st[ruuIndex] == old(ruu[ruuIndex]) && (isMem ==> old(lsqNum) > 0)
      ensures View() == Squash(old(View()))
      ensures ruuNum == old(ruuNum) - 1 && lsqNum == if isMem then old(lsqNum) - 1 else old(lsqNum)
    {
      hide Squash, SquashRuu, SquashLsq, Shape;
      ghost var c := View();
      ShapeHere();
      assert c.st[ruuIndex] == ruu[ruuIndex];
      SquashIs(c);
      isMem := ruu[ruuIndex].eaComp;
      if isMem {
        SquashLsqTail(lsqIndex);
      }
      SquashRuuTail(ruuIndex);
      ShapeHere();
    }

    lemma ShapeHere()
      requires InShape()
      ensures Separate() && Shape(View()) && ruuHead < ruuSize && lsqHead < lsqSize && ruuSize == ruu.Length && lsqSize == lsq.Length
      ensures View().rh == ruuHead && View().rn == ruuNum && View().lh == lsqHead && View().ln == lsqNum
      ensures View().R == ruuSize && View().L == lsqSize && |View().st| == ruuSize + lsqSize
    {
    }

    lemma RuuEntry(x: nat)
      requires InShape() && x < ruuSize
      ensures Separate() && |View().st| == ruuSize + lsqSize && View().st[x] == ruu[x]
    {
    }

    /** The tails move to the branch, and the speculative create vector is forgotten. */
    method ResetTails(ruuPrevTail: nat, lsqPrevTail: nat)
      requires InShape() && ruuPrevTail == At(ruuHead, ruuSize, ruuNum) && lsqPrevTail == At(lsqHead, lsqSize, lsqNum)
      modifies this`ruuTail, this`lsqTail, this`useSpecCV
      ensures Valid() && View() == old(View()).(useSpec := {})
    {
      ruuTail := ruuPrevTail;
      lsqTail := lsqPrevTail;
      useSpecCV := {};
    }

    /** The sanity checks before the entry at `ruuIndex` is squashed. */
    method SquashGate(ruuIndex: nat, branch: nat) returns (fault: Option<Fault>)
      requires InShape() && ruuIndex < ruuSize && ruuIndex == Prev(At(ruuHead, ruuSize, ruuNum), ruuSize) && ruuIndex != branch
      ensures Separate() && Shape(View())
      ensures fault.Some? ==> Recover(View(), branch) == Stop(fault.value)
      ensures fault.None? ==>
                && ruuNum > 0 && ruuIndex == At(ruuHead, ruuSize, ruuNum - 1)
                && View().rn == ruuNum && View().st[ruuIndex] == ruu[ruuIndex]
                && (ruu[ruuIndex].eaComp ==> lsqNum > 0)
                && (lsqNum > 0 ==> At(lsqHead, lsqSize, lsqNum - 1) == Prev(At(lsqHead, lsqSize, lsqNum), lsqSize))
                && (View().st[At(View().rh, View().R, View().rn - 1)].eaComp ==> View().ln > 0)
                && Recover(View(), branch) == Recover(Squash(View()), branch)
    {
      ghost var d := View();
      hide Recover, Squash, Shape;
      ShapeHere();
      RuuEntry(ruuIndex);
      RecoverIs(d, branch);
      RecoverSlots(d);
      if ruuNum == 0 {
        return Some(EmptyRuu);
      }
      if ruuIndex == ruuHead {
        return Some(HeadTailBroken);
      }
      if ruu[ruuIndex].eaComp && lsqNum == 0 {
        return Some(OutOfSyncAtSquash);
      }
      fault := None;
    }

    /** Squashes one entry and moves the walking indexes to the next older one. */
    method SquashStep(ruuIndex: nat, lsqIndex: nat, lsqPrevTail: nat, branch: nat)
      returns (fault: Option<Fault>, nextRuu: nat, nextLsq: nat, ruuTo: nat, lsqTo: nat)
      requires InShape() && ruuIndex < ruuSize && ruuIndex == Prev(At(ruuHead, ruuSize, ruuNum), ruuSize) && ruuIndex != branch
      requires lsqPrevTail < lsqSize && lsqPrevTail == At(lsqHead, lsqSize, lsqNum)
      requires lsqIndex < lsqSize && lsqIndex == Prev(lsqPrevTail, lsqSize)
      modifies this`ruuNum, this`lsqNum, this`freeList, ruu, lsq
      ensures Shape(old(View())) && (fault.Some? ==> Recover(old(View()), branch) == Stop(fault.value))
      ensures fault.None? ==>
                && InShape() && Shape(View()) && ruuNum < old(ruuNum) && Recover(old(View()), branch) == Recover(View(), branch)
                && ruuTo < ruuSize && ruuTo == At(ruuHead, ruuSize, ruuNum) && nextRuu < ruuSize && nextRuu == Prev(ruuTo, ruuSize)
                && lsqTo < lsqSize && lsqTo == At(lsqHead, lsqSize, lsqNum) && nextLsq < lsqSize && nextLsq == Prev(lsqTo, lsqSize)
    {
      hide Recover, Squash, Shape, At, Prev, View, InShape, Separate;
      nextRuu, nextLsq, ruuTo, lsqTo := ruuIndex, lsqIndex, ruuIndex, lsqPrevTail;
      fault := SquashGate(ruuIndex, branch);
      if fault.Some? {
        return;
      }
      var isMem := SquashYoungest(ruuIndex, lsqIndex);
      if isMem {
        lsqTo := lsqIndex;
        nextLsq := StepBack(lsqIndex, lsqSize);
      }
      nextRuu := StepBack(ruuIndex, ruuSize);
    }

    method RuuRecover(branch: nat) returns (fault: Option<Fault>)
      requires Valid()
      modifies this`ruuNum, this`ruuTail, this`lsqNum, this`lsqTail, this`freeList, this`useSpecCV, ruu, lsq
      ensures Shape(old(View())) && Reports(Recover(old(View()), branch), fault, View())
      ensures fault.None? ==> Valid()
    {
      ghost var c := View();
      ShapeHere();
      TailBounds();
      hide Recover, Squash, Shape, At, Prev, View, InShape, Separate, Valid, With, Stations, InRange, Live;
      var ruuPrevTail, lsqPrevTail := ruuTail, lsqTail;
      var ruuIndex := StepBack(ruuTail, ruuSize);
      var lsqIndex := StepBack(lsqTail, lsqSize);
      RecoverIs(c, branch);
      while ruuIndex != branch
        invariant InShape() && Shape(c) && Shape(View())
        invariant 0 <= ruuPrevTail < ruuSize && 0 <= lsqPrevTail < lsqSize
        invariant ruuPrevTail == At(ruuHead, ruuSize, ruuNum) && lsqPrevTail == At(lsqHead, lsqSize, lsqNum)
        invariant 0 <= ruuIndex < ruuSize && 0 <= lsqIndex < lsqSize
        invariant ruuIndex == Prev(ruuPrevTail, ruuSize) && lsqIndex == Prev(lsqPrevTail, lsqSize)
        invariant Recover(c, branch) == Recover(View(), branch)
        decreases ruuNum
      {
        fault, ruuIndex, lsqIndex, ruuPrevTail, lsqPrevTail := SquashStep(ruuIndex, lsqIndex, lsqPrevTail, branch);
        if fault.Some? {
          return;
        }
      }
      ShapeHere();
      RecoverIs(View(), branch);
      ResetTails(ruuPrevTail, lsqPrevTail);
      fault := None;
    }

    lemma TailBounds()
      requires Valid()
      ensures ruuTail < ruuSize && lsqTail < lsqSize && ruuHead < ruuSize && lsqHead < lsqSize
    {
    }

    // ----- writeback -----

    method TracerRecover() returns (fault: Option<Fault>)
      modifies this`specMode
      ensures Reports(RuuSteps.TracerRecover(old(View())), fault, View())
      ensures old(InShape()) ==> InShape()
      ensures old(Valid()) ==> Valid()
    {
      if !specMode {
        return Some(NotSpeculative);
      }
      specMode := false;
      fault := None;
    }

    /** Output `o` of `x` leaves the create vector it was entered in, if it is still there. */
    method ClearCreator(x: nat, o: nat)
      requires Valid() && x < ruuSize + lsqSize && o < 2
      modifies createVector, specCreateVector
      ensures Valid() && Shape(old(View())) && View() == RuuSteps.ClearCreator(old(View()), x, o)
    {
      ghost var c := View();
      var rs := Rs(x);
      var n := rs.onames.Get(o);
      if rs.specMode {
        if specCreateVector[n] == By(x, o) {
          specCreateVector[n] := RegFile;
          assert SpecCreated() == c.scv[n := RegFile];
        }
      } else {
        if createVector[n] == By(x, o) {
          createVector[n] := RegFile;
          assert Created() == c.cv[n := RegFile];
        }
      }
    }

    method Satisfy(x: nat, k: nat) returns (fault: Option<Fault>)
      requires Valid() && x < ruuSize + lsqSize
      modifies this`freeList, this`readyQueue, ruu, lsq
      ensures Shape(old(View())) && Reports(RuuSteps.Satisfy(old(View()), x, k), fault, View())
      ensures fault.None? ==> Valid()
    {
      hide Enqueue;
      var rs := Rs(x);
      if rs.ready.Get(k) {
        return Some(AlreadySatisfied);
      }
      var woken := rs.(ready := rs.ready.Set(k, true));
      Write(x, woken);
      fault := None;
      if woken.AllReady() {
        if !woken.inLsq || woken.kind == Store {
          fault := ReadyqEnqueue(x);
        }
      }
    }

    /** Serves the first link of chain `o` of `x`, unlinks it and frees it. */
    method WakeConsumer(x: nat, o: nat) returns (fault: Option<Fault>)
      requires Valid() && x < ruuSize + lsqSize && o < 2 && Rs(x).odeps.Get(o) != []
      modifies this`freeList, this`readyQueue, ruu, lsq
      ensures Shape(old(View())) && old(View()).st[x] == old(Rs(x)) && Reports(WakeFirst(old(View()), x, o), fault, View())
      ensures fault.None? ==> Valid()
    {
      hide RuuSteps.Satisfy, Shape;
      ShapeHere();
      var olink := Rs(x).odeps.Get(o)[0];
      fault := None;
      if olink.rs < ruuSize + lsqSize {
        var target := Rs(olink.rs);
        if olink.tag == target.tag {
          fault := Satisfy(olink.rs, olink.x);
          if fault.Some? {
            return;
          }
        }
      }
      var rs := Rs(x);
      Write(x, rs.(odeps := rs.odeps.Set(o, rs.odeps.Get(o)[1..])));
      freeList := [olink.id] + freeList;
    }

    method WakeConsumers(x: nat, o: nat) returns (fault: Option<Fault>)
      requires Valid() && x < ruuSize + lsqSize && o < 2
      modifies this`freeList, this`readyQueue, ruu, lsq
      ensures Shape(old(View())) && Reports(WakeAll(old(View()), x, o), fault, View())
      ensures fault.None? ==> Valid()
    {
      hide WakeAll, WakeFirst, Shape;
      ghost var c := View();
      ShapeHere();
      while Rs(x).odeps.Get(o) != []
        invariant Valid() && Shape(c) && Shape(View()) && x < |View().st|
        invariant WakeAll(c, x, o) == WakeAll(View(), x, o)
        decreases |Rs(x).odeps.Get(o)|
      {
        ghost var d := View();
        WakeAllIs(d, x, o);
        fault := WakeConsumer(x, o);
        if fault.Some? {
          return;
        }
        ShapeHere();
      }
      WakeAllIs(View(), x, o);
      fault := None;
    }

    /** The results of `x` reach the create vector and the consumers, output by output. */
    method BroadcastOutput(x: nat, o: nat) returns (fault: Option<Fault>)
      requires Valid() && x < ruuSize + lsqSize && o < 2
      modifies this`freeList, this`readyQueue, ruu, lsq, createVector, specCreateVector
      ensures Shape(old(View())) && Reports(Broadcast(old(View()), x, o), fault, View())
      ensures fault.None? ==> Valid()
    {
      hide WakeAll, RuuSteps.ClearCreator, Shape;
      ShapeHere();
      fault := None;
      if Rs(x).onames.Get(o) != NA {
        ClearCreator(x, o);
        fault := WakeConsumers(x, o);
      }
    }

    method RecoverBranch(x: nat) returns (fault: Option<Fault>)
      requires Valid() && x < ruuSize + lsqSize
      modifies this`ruuNum, this`ruuTail, this`lsqNum, this`lsqTail, this`freeList, this`useSpecCV, this`specMode, ruu, lsq
      ensures Shape(old(View())) && Reports(RecoverAll(old(View()), x), fault, View())
      ensures fault.None? ==> Valid()
    {
      hide Recover, Shape;
      ShapeHere();
      if Rs(x).inLsq {
        return Some(MispredictedMemOp);
      }
      fault := RuuRecover(x);
      if fault.None? {
        fault := TracerRecover();
      }
    }

    /** A completed operation: recovery if it was the mispredicted branch, then its results. */
    method CompleteInst(x: nat) returns (fault: Option<Fault>)
      requires Valid() && x < ruuSize + lsqSize
      modifies this`ruuNum, this`ruuTail, this`lsqNum, this`lsqTail, this`freeList, this`readyQueue, this`useSpecCV, this`specMode,
               ruu, lsq, createVector, specCreateVector
      ensures Shape(old(View())) && Reports(Complete(old(View()), x), fault, View())
      ensures fault.None? ==> Valid()
    {
      hide RecoverAll, Broadcast, Shape;
      ShapeHere();
      CompleteParts(View(), x);
      var rs := Rs(x);
      if !rs.AllReady() || rs.queued || !rs.issued || rs.completed {
        return Some(BadCompletion);
      }
      Write(x, rs.(completed := true));
      ShapeHere();
      if rs.recoverInst {
        fault := RecoverBranch(x);
        if fault.Some? {
          return;
        }
        ShapeHere();
      }
      fault := BroadcastOutput(x, 0);
      if fault.None? {
        ShapeHere();
        fault := BroadcastOutput(x, 1);
      }
    }

    /** The next due event of an operation still in flight; stale events on the way are freed. */
    method EventqNextEvent() returns (next: Option<nat>)
      requires Valid()
      modifies this`freeList, this`eventQueue
      ensures Valid() && Shape(old(View())) && (next, View()) == NextEvent(old(View()))
      ensures next.Some? ==> next.value < ruuSize + lsqSize
      decreases |eventQueue|
    {
      if eventQueue != [] && eventQueue[0].x <= simCycle {
        var ev := eventQueue[0];
        eventQueue := eventQueue[1..];
        freeList := [ev.id] + freeList;
        if ev.rs < ruuSize + lsqSize {
          var rs := Rs(ev.rs);
          if ev.tag == rs.tag {
            return Some(ev.rs);
          }
        }
        next := EventqNextEvent();
      } else {
        next := None;
      }
    }

    method RuuWriteback() returns (fault: Option<Fault>)
      requires Valid()
      modifies this`ruuNum, this`ruuTail, this`lsqNum, this`lsqTail, this`freeList, this`eventQueue, this`readyQueue,
               this`useSpecCV, this`specMode, ruu, lsq, createVector, specCreateVector
      ensures Shape(old(View())) && Reports(Writeback(old(View())), fault, View())
      ensures fault.None? ==> Valid()
    {
      hide Writeback, Complete, NextEvent, Shape;
      ghost var c := View();
      ShapeHere();
      WritebackNextEvent(c);
      var rs: Option<nat> := EventqNextEvent();
      while rs.Some?
        invariant Valid() && Shape(c) && Shape(View()) && (rs.Some? ==> rs.value < ruuSize + lsqSize)
        invariant Writeback(c) == AfterEvent(rs, View())
        decreases if rs.Some? then |eventQueue| + 1 else 0
      {
        fault := CompleteInst(rs.value);
        if fault.Some? {
          return;
        }
        ShapeHere();
        WritebackNextEvent(View());
        rs := EventqNextEvent();
        ShapeHere();
      }
      fault := None;
    }

    // ----- memory dependences -----

    /** A known store value hides the earlier unknown ones at its address. */
    static method HideKnown(stdUnknowns: array<nat>, n: nat, addr: nat)
      requires n <= stdUnknowns.Length
      modifies stdUnknowns
      ensures stdUnknowns[..n] == Hide(old(stdUnknowns[..n]), addr)
    {
      var j := 0;
      while j < n
        invariant j <= n
        invariant forall k :: 0 <= k < j ==> stdUnknowns[k] == if old(stdUnknowns[k]) == addr then 0 else old(stdUnknowns[k])
        invariant forall k :: j <= k < n ==> stdUnknowns[k] == old(stdUnknowns[k])
      {
        if stdUnknowns[j] == addr {
          stdUnknowns[j] := 0;
        }
        j := j + 1;
      }
    }

    static method IsUnknown(stdUnknowns: array<nat>, n: nat, addr: nat) returns (found: bool)
      requires n <= stdUnknowns.Length
      ensures found <==> addr in stdUnknowns[..n]
    {
      var j := 0;
      while j < n && stdUnknowns[j] != addr
        invariant j <= n && forall k :: 0 <= k < j ==> stdUnknowns[k] != addr
      {
        j := j + 1;
      }
      found := j < n;
      assert found ==> stdUnknowns[..n][j] == addr;
    }

    /** Notes the store of an LSQ entry on the list, or clears what it makes known. */
    static method NoteStore(stdUnknowns: array<nat>, n: nat, rs: Station) returns (m: nat)
      requires n <= MAX_STD_UNKNOWNS == stdUnknowns.Length && (rs.kind == Store && !rs.AllReady() ==> n < MAX_STD_UNKNOWNS)
      modifies stdUnknowns
      ensures m <= MAX_STD_UNKNOWNS && stdUnknowns[..m] == Refreshing.Seen(old(stdUnknowns[..n]), rs)
    {
      m := n;
      if rs.kind == Store {
        if !rs.AllReady() {
          stdUnknowns[n] := rs.addr;
          m := n + 1;
        } else {
          HideKnown(stdUnknowns, n, rs.addr);
        }
      }
    }

    /** Queues the LSQ entry if it is a waiting load and its address is not on the list. */
    method RefreshLoad(x: nat, stdUnknowns: array<nat>, n: nat) returns (fault: Option<Fault>)
      requires Valid() && x < ruuSize + lsqSize && n <= stdUnknowns.Length
      modifies this`freeList, this`readyQueue, ruu, lsq
      ensures var c := old(View());
              && Shape(c) && |c.st| == ruuSize + lsqSize
              && var u := old(stdUnknowns[..n]);
                 Reports(if LoadWaits(c.st[x]) && c.st[x].addr !in u then Enqueue(c, x) else Ok(c), fault, View())
      ensures fault.None? ==> Valid() && View().ln == old(View()).ln
    {
      hide Enqueue;
      var rs := Rs(x);
      fault := None;
      if rs.kind == Load && !rs.queued && !rs.issued && !rs.completed && rs.AllReady() {
        var blocked := IsUnknown(stdUnknowns, n, rs.addr);
        if !blocked {
          fault := ReadyqEnqueue(x);
        }
      }
    }

    /** One LSQ entry of the scan: it may end the scan, note a store or queue a load. */
    method RefreshEntry(i: nat, index: nat, stdUnknowns: array<nat>, n: nat) returns (stop: bool, fault: Option<Fault>, m: nat)
      requires Valid() && i < lsqNum && index == At(lsqHead, lsqSize, i) && index < lsqSize
      requires n <= MAX_STD_UNKNOWNS == stdUnknowns.Length
      modifies this`freeList, this`readyQueue, ruu, lsq, stdUnknowns
      ensures Shape(old(View())) && m <= MAX_STD_UNKNOWNS
      ensures fault.Some? ==> Refresh(old(View()), i, old(stdUnknowns[..n])) == Stop(fault.value)
      ensures fault.None? ==> Valid() && Shape(View())
      ensures fault.None? && stop ==> Refresh(old(View()), i, old(stdUnknowns[..n])) == Ok(View())
      ensures fault.None? && !stop ==>
                Refresh(old(View()), i, old(stdUnknowns[..n])) == Refresh(View(), i + 1, stdUnknowns[..m])
    {
      hide Refresh, Enqueue, Shape, Refreshing.Seen, Hide, At, LoadWaits;
      ShapeHere();
      RefreshIs(View(), i, stdUnknowns[..n]);
      var rs := Rs(ruuSize + index);
      stop, fault, m := false, None, n;
      if rs.kind == Store && !rs.ready.b {
        stop := true;
        return;
      }
      if rs.kind == Store && !rs.AllReady() && n == MAX_STD_UNKNOWNS {
        fault := Some(StdUnknownOverflow);
        return;
      }
      m := NoteStore(stdUnknowns, n, rs);
      fault := RefreshLoad(ruuSize + index, stdUnknowns, m);
      if fault.None? {
        ShapeHere();
      }
    }

    method LsqRefresh() returns (fault: Option<Fault>)
      requires Valid()
      modifies this`freeList, this`readyQueue, ruu, lsq
      ensures Shape(old(View())) && Reports(Refresh(old(View()), 0, []), fault, View())
      ensures fault.None? ==> Valid()
    {
      hide Refresh, Shape;
      var stdUnknowns := new nat[MAX_STD_UNKNOWNS];
      fault := ScanLsq(stdUnknowns);
    }

    /** The scan from the oldest entry on, with room for the addresses of unknown store values. */
    method ScanLsq(stdUnknowns: array<nat>) returns (fault: Option<Fault>)
      requires Valid() && stdUnknowns.Length == MAX_STD_UNKNOWNS
      modifies this`freeList, this`readyQueue, ruu, lsq, stdUnknowns
      ensures Shape(old(View())) && Reports(Refresh(old(View()), 0, []), fault, View())
      ensures fault.None? ==> Valid()
    {
      ghost var c := View();
      ShapeHere();
      ValidCounts();
      hide Refresh, Shape, At, Next, View, InShape, Separate, Valid;
      var i, index, n: nat := 0, lsqHead, 0;
      AtStart(lsqHead, lsqSize);
      assert stdUnknowns[..n] == [];
      while i < lsqNum
        invariant Valid() && Shape(c) && Shape(View()) && 0 <= i <= lsqNum <= lsqSize && 0 <= n <= MAX_STD_UNKNOWNS
        invariant lsqHead < lsqSize && index == At(lsqHead, lsqSize, i) && 0 <= index < lsqSize
        invariant Refresh(c, 0, []) == Refresh(View(), i, stdUnknowns[..n])
      {
        AtNext(lsqHead, lsqSize, i);
        var stop;
        stop, fault, n := RefreshEntry(i, index, stdUnknowns, n);
        if fault.Some? || stop {
          return;
        }
        i := i + 1;
        index := StepOn(index, lsqSize);
      }
      ShapeAndCounts();
      RefreshIs(View(), i, stdUnknowns[..n]);
      fault := None;
    }

    lemma ValidCounts()
      requires Valid()
      ensures InShape() && lsqNum <= lsqSize
    {
    }

    lemma ShapeAndCounts()
      requires Valid()
      ensures Shape(View()) && View().ln == lsqNum
    {
    }

    // ----- issue -----

    /** Walks the LSQ from a load towards the head for a store to its address. */
    method ForwardStore(from: nat, addr: nat) returns (hit: bool)
      requires Valid() && from < lsqSize
      ensures Shape(View()) && from < View().L && hit == ForwardFrom(View(), from, addr).Some?
    {
      hide Shape;
      ShapeHere();
      var i := from;
      ForwardIs(View(), i, addr);
      while i != lsqHead
        invariant 0 <= i < lsqSize && Shape(View()) && ForwardFrom(View(), from, addr) == ForwardFrom(View(), i, addr)
        decreases Pos(lsqHead, lsqSize, i)
      {
        ForwardIs(View(), i, addr);
        i := StepBack(i, lsqSize);
        assert View().st[ruuSize + i] == lsq[i];
        if lsq[i].kind == Store && lsq[i].addr == addr {
          return true;
        }
      }
      ForwardIs(View(), i, addr);
      hit := false;
    }

    method AccessLatency(x: nat, env: IssueEnv) returns (lat: nat)
      requires Valid() && x < ruuSize + lsqSize
      ensures Shape(View()) && lat == LoadLatency(View(), x, env)
    {
      var rs := Rs(x);
      var hit := ForwardStore(if x >= ruuSize then x - ruuSize else 0, rs.addr);
      lat := if hit then 1 else env.memLat(rs.num);
      var tlbLat := env.tlbLat(rs.num);
      if lat < tlbLat {
        lat := tlbLat;
      }
    }

    method IssueStation(x: nat, env: IssueEnv) returns (fault: Option<Fault>)
      requires Valid() && x < ruuSize + lsqSize
      modifies this`freeList, this`readyQueue, this`eventQueue, ruu, lsq
      ensures Shape(old(View())) && Reports(IssueOne(old(View()), x, env), fault, View())
      ensures fault.None? ==> Valid()
    {
      hide Enqueue, QueueEvent, LoadLatency, Shape;
      ShapeHere();
      var rs := Rs(x);
      if !rs.AllReady() || !rs.queued || rs.issued || rs.completed {
        return Some(BadIssue);
      }
      if rs.inLsq && rs.kind == Store {
        if rs.onames.a != NA || rs.onames.b != NA {
          return Some(StoreCreatesResult);
        }
        if rs.recoverInst {
          return Some(MispredictedStore);
        }
        Write(x, rs.(queued := false, issued := true, completed := true));
        return None;
      }
      fault := StartStation(x, env);
    }

    /** Sends an operation that is no store to a unit, or queues it again. */
    method StartStation(x: nat, env: IssueEnv) returns (fault: Option<Fault>)
      requires Valid() && x < ruuSize + lsqSize
      modifies this`freeList, this`readyQueue, this`eventQueue, ruu, lsq
      ensures Shape(old(View())) && Reports(Start(old(View()), x, env), fault, View())
      ensures fault.None? ==> Valid()
    {
      hide Enqueue, QueueEvent, LoadLatency, Shape;
      ShapeHere();
      var rs := Rs(x);
      if rs.usesUnit {
        if env.unit(rs.num) {
          var lat;
          if rs.inLsq && rs.kind == Load {
            lat := AccessLatency(x, env);
          } else {
            lat := env.opLat(rs.num);
          }
          Write(x, rs.(queued := false, issued := true));
          fault := EventqQueueEvent(x, simCycle + lat);
        } else {
          Write(x, rs.(queued := false));
          fault := ReadyqEnqueue(x);
        }
      } else {
        Write(x, rs.(queued := false, issued := true));
        fault := EventqQueueEvent(x, simCycle + 1);
      }
    }

    method RequeueStation(x: nat) returns (fault: Option<Fault>)
      requires Valid() && x < ruuSize + lsqSize
      modifies this`freeList, this`readyQueue, ruu, lsq
      ensures Shape(old(View())) && Reports(Requeue(old(View()), x), fault, View())
      ensures fault.None? ==> Valid()
    {
      hide Enqueue;
      Write(x, Rs(x).(queued := false));
      fault := ReadyqEnqueue(x);
    }

    /** One link of the old ready list: issued while bandwidth is left, requeued after. */
    method IssueNode(node: Link, nIssued: nat, env: IssueEnv) returns (fault: Option<Fault>, n: nat)
      requires Valid()
      modifies this`freeList, this`readyQueue, this`eventQueue, ruu, lsq
      ensures Shape(old(View())) && Reports(IssueLink(old(View()), node, nIssued, env), fault, View())
      ensures fault.None? ==> Valid()
      ensures n == if nIssued < env.width && InFlight(old(View()), node) && GetsUnit(old(View()).st[node.rs], env) then nIssued + 1 else nIssued
    {
      hide IssueOne, Requeue, Shape;
      ShapeHere();
      n := nIssued;
      fault := None;
      if node.rs < ruuSize + lsqSize {
        var rs := Rs(node.rs);
        if node.tag == rs.tag {
          if nIssued < env.width {
            if GetsUnit(rs, env) {
              n := nIssued + 1;
            }
            fault := IssueStation(node.rs, env);
          } else {
            fault := RequeueStation(node.rs);
          }
          if fault.Some? {
            return;
          }
        }
      }
      freeList := [node.id] + freeList;
    }

    /** The unit for a link of the ready list, if one is asked for and free. */
    method UnitForNode(node: Link, nIssued: nat, u: UnitEnv) returns (g: Option<Template>)
      requires Valid() && Usable(u, units.busy.Length)
      ensures g == UnitFor(View(), node, nIssued, units.busy[..], u) && (g.Some? ==> g.value.unit < units.busy.Length)
    {
      ShapeHere();
      hide FirstFree, Usable, Serving, Shape;
      g := None;
      if node.rs < ruuSize + lsqSize {
        var rs := Rs(node.rs);
        if node.tag == rs.tag && nIssued < u.width && NeedsUnit(rs) {
          ServedInRange(u, rs.num, units.busy.Length);
          FoundInRange(units.busy[..], Serving(u, rs.num));
          g := units.ResGet(Serving(u, rs.num));
        }
      }
    }

    /** One link of the old ready list, with the unit it gets. */
    method IssueWithUnit(node: Link, nIssued: nat, u: UnitEnv) returns (fault: Option<Fault>, n: nat)
      requires Valid() && Usable(u, units.busy.Length)
      modifies this`freeList, this`readyQueue, this`eventQueue, ruu, lsq, units.busy
      ensures var c, busy := old(View()), old(units.busy[..]);
        var g := UnitFor(c, node, nIssued, busy, u);
        && Shape(c) && Reports(IssueLink(c, node, nIssued, StepEnv(u, g)), fault, View())
        && units.busy[..] == Reserve(busy, g) && n == Issued(c, node, nIssued, StepEnv(u, g))
      ensures fault.None? ==> Valid()
    {
      hide IssueLink, UnitFor, Reserve, InUse, Shape, Usable;
      ShapeHere();
      var g := UnitForNode(node, nIssued, u);
      UnitFree(View(), node, nIssued, units.busy[..], u);
      TakeUnit(g);
      fault, n := IssueNode(node, nIssued, StepEnv(u, g));
    }

    method RuuIssue(u: UnitEnv) returns (fault: Option<Fault>)
      requires Valid() && Usable(u, units.busy.Length)
      modifies this`freeList, this`readyQueue, this`eventQueue, ruu, lsq, units.busy
      ensures var c := old(View());
              Shape(c) && Shape(c.(readyq := []))
              && ReportsUnits(IssueUnits(c.(readyq := []), old(units.busy[..]), c.readyq, 0, u), fault, View(), units.busy[..])
      ensures fault.None? ==> Valid()
    {
      hide IssueUnits, IssueLink, UnitFor, StepEnv, Issued, Reserve, InUse, Shape, Usable;
      ghost var c, start := View(), units.busy[..];
      ShapeHere();
      var list := readyQueue;
      readyQueue := [];
      ghost var b := View();
      DetachShape(c);
      var i, nIssued: nat := 0, 0;
      assert list[0..] == list;
      while i < |list| && nIssued < u.width
        invariant 0 <= i <= |list| && Valid() && Shape(b) && Shape(View())
        invariant IssueUnits(b, start, list, 0, u) == IssueUnits(View(), units.busy[..], list[i..], nIssued, u)
      {
        IssueIs(View(), units.busy[..], list[i..], nIssued, u);
        assert list[i..][1..] == list[i + 1..];
        fault, nIssued := IssueWithUnit(list[i], nIssued, u);
        if fault.Some? {
          return;
        }
        ShapeHere();
        i := i + 1;
      }
      while i < |list|
        invariant 0 <= i <= |list| && Valid() && Shape(b) && Shape(View())
        invariant IssueUnits(b, start, list, 0, u) == IssueUnits(View(), units.busy[..], list[i..], nIssued, u)
      {
        IssueIs(View(), units.busy[..], list[i..], nIssued, u);
        assert list[i..][1..] == list[i + 1..];
        fault, nIssued := IssueWithUnit(list[i], nIssued, u);
        if fault.Some? {
          return;
        }
        ShapeHere();
        i := i + 1;
      }
      IssueIs(View(), units.busy[..], list[i..], nIssued, u);
      fault := None;
    }

    // ----- dispatch -----

    method RuuLinkIdep(x: nat, k: nat, name: Reg) returns (fault: Option<Fault>)
      requires Valid() && x < ruuSize + lsqSize
      modifies this`freeList, ruu, lsq
      ensures Shape(old(View())) && Reports(LinkIdep(old(View()), x, k, name), fault, View())
      ensures fault.None? ==> Valid()
    {
      hide LinkIdep, Shape, Head;
      ShapeHere();
      LinkIs(View(), x, k, name);
      var head := FindCreator(name);
      if head == RegFile {
        var rs := Rs(x);
        Write(x, rs.(inames := rs.inames.Set(k, name), ready := rs.ready.Set(k, true)));
        return None;
      }
      if freeList == [] {
        return Some(OutOfLinks);
      }
      WaitFor(x, k, name, head);
      fault := None;
    }

    method FindCreator(name: Reg) returns (head: Creator)
      requires Valid()
      ensures Shape(View()) && head == Head(View(), name)
    {
      head := RegFile;
      if name != NA {
        head := if name in useSpecCV then specCreateVector[name] else createVector[name];
      }
    }

    /** Puts a link to operand `k` of `x` on the consumer chain of its producer. */
    method WaitFor(x: nat, k: nat, name: Reg, head: Creator)
      requires Valid() && x < ruuSize + lsqSize && head.By? && head.slot < ruuSize + lsqSize && head.odep < 2 && freeList != []
      modifies this`freeList, ruu, lsq
      ensures Valid() && |old(View()).st| == ruuSize + lsqSize && View() == Waiting(old(View()), x, k, name, head)
    {
      var rs := Rs(x);
      Write(x, rs.(inames := rs.inames.Set(k, name), ready := rs.ready.Set(k, false), waitOn := rs.waitOn.Set(k, head)));
      var link := Link(freeList[0], x, rs.tag, k, rs.num);
      var creator := Rs(head.slot);
      Write(head.slot, creator.(odeps := creator.odeps.Set(head.odep, [link] + creator.odeps.Get(head.odep))));
      freeList := freeList[1..];
    }

    method RuuInstallOdep(x: nat, o: nat, name: Reg)
      requires Valid() && x < ruuSize + lsqSize && o < 2
      modifies this`useSpecCV, ruu, lsq, createVector, specCreateVector
      ensures Shape(old(View())) && View() == InstallOdep(old(View()), x, o, name) && Valid()
    {
      ghost var c := View();
      var rs := Rs(x);
      if name == NA {
        Write(x, rs.(onames := rs.onames.Set(o, NA)));
        return;
      }
      Write(x, rs.(onames := rs.onames.Set(o, name), odeps := rs.odeps.Set(o, [])));
      if specMode {
        useSpecCV := useSpecCV + {name};
        specCreateVector[name] := By(x, o);
        assert SpecCreated() == c.scv[name := By(x, o)];
      } else {
        createVector[name] := By(x, o);
        assert Created() == c.cv[name := By(x, o)];
      }
    }

    method LinkInputs(x: nat, n0: Reg, n1: Reg, n2: Reg) returns (fault: Option<Fault>)
      requires Valid() && x < ruuSize + lsqSize
      modifies this`freeList, ruu, lsq
      ensures Shape(old(View())) && Reports(LinkThree(old(View()), x, n0, n1, n2), fault, View())
      ensures fault.None? ==> Valid()
    {
      hide LinkIdep, Shape;
      ShapeHere();
      fault := RuuLinkIdep(x, 0, n0);
      if fault.None? {
        ShapeHere();
        fault := RuuLinkIdep(x, 1, n1);
        if fault.None? {
          ShapeHere();
          fault := RuuLinkIdep(x, 2, n2);
        }
      }
    }

    method InstallOutputs(x: nat, n0: Reg, n1: Reg)
      requires Valid() && x < ruuSize + lsqSize
      modifies this`useSpecCV, ruu, lsq, createVector, specCreateVector
      ensures Shape(old(View())) && View() == InstallTwo(old(View()), x, n0, n1) && Valid()
    {
      hide InstallOdep, Shape;
      ShapeHere();
      RuuInstallOdep(x, 0, n0);
      ShapeHere();
      RuuInstallOdep(x, 1, n1);
    }

    method QueueIfReady(x: nat) returns (fault: Option<Fault>)
      requires Valid() && x < ruuSize + lsqSize
      modifies this`freeList, this`readyQueue, ruu, lsq
      ensures Shape(old(View())) && Reports(EnqueueIfReady(old(View()), x), fault, View())
      ensures fault.None? ==> Valid()
    {
      hide Enqueue;
      fault := None;
      if Rs(x).AllReady() {
        fault := ReadyqEnqueue(x);
      }
    }

    method FillRuu(i: Inst, partner: nat)
      requires Valid() && ruuNum < ruuSize
      modifies this`ruuTail, this`ruuNum, this`instSeq, ruu
      ensures Shape(old(View())) && View() == WithRuu(old(View()), i, partner) && Valid()
    {
      ghost var c := View();
      ruu[ruuTail] := Blank(ruu[ruuTail], i, false, specMode, instSeq + 1, partner);
      assert Stations() == c.st[ruuTail := ruu[ruuTail]];
      hide Blank;
      instSeq := instSeq + 1;
      ruuTail := StepOn(ruuTail, ruuSize);
      ruuNum := ruuNum + 1;
    }

    method FillLsq(i: Inst, partner: nat)
      requires Valid() && lsqNum < lsqSize
      modifies this`lsqTail, this`lsqNum, this`instSeq, lsq
      ensures Shape(old(View())) && View() == WithLsq(old(View()), i, partner) && Valid()
    {
      ghost var c := View();
      lsq[lsqTail] := Blank(lsq[lsqTail], i, true, specMode, instSeq + 1, partner);
      assert Stations() == c.st[ruuSize + lsqTail := lsq[lsqTail]];
      hide Blank;
      instSeq := instSeq + 1;
      lsqTail := StepOn(lsqTail, lsqSize);
      lsqNum := lsqNum + 1;
    }

    /** Fills in the stations at the tails. */
    method FillStations(i: Inst)
      requires Valid() && ruuNum < ruuSize && lsqNum < lsqSize
      modifies this`ruuTail, this`ruuNum, this`lsqTail, this`lsqNum, this`instSeq, ruu, lsq
      ensures Shape(old(View())) && View() == Allocate(old(View()), i) && Valid()
    {
      hide Allocate, Shape, WithRuu, WithLsq;
      ShapeHere();
      AllocateIs(View(), i);
      var x, y := ruuTail, ruuSize + lsqTail;
      FillRuu(i, y);
      if i.kind != Alu {
        FillLsq(i, x);
      }
    }

    method DispatchOperation(i: Inst) returns (fault: Option<Fault>)
      requires Valid() && ruuNum < ruuSize && lsqNum < lsqSize && WellFormed(i)
      modifies this`ruuTail, this`ruuNum, this`lsqTail, this`lsqNum, this`instSeq, this`freeList, this`readyQueue, this`useSpecCV,
               ruu, lsq, createVector, specCreateVector
      ensures Shape(old(View())) && Reports(DispatchOp(old(View()), i), fault, View())
      ensures fault.None? ==> Valid()
    {
      hide Allocate, LinkThree, InstallTwo, EnqueueIfReady, Shape;
      ShapeHere();
      TailBounds();
      var x := ruuTail;
      FillStations(i);
      ShapeHere();
      fault := LinkInputs(x, i.in1, i.in2, i.in3);
      if fault.None? {
        ShapeHere();
        InstallOutputs(x, i.out1, i.out2);
        ShapeHere();
        fault := QueueIfReady(x);
      }
    }

    method DispatchMemory(i: Inst) returns (fault: Option<Fault>)
      requires Valid() && ruuNum < ruuSize && lsqNum < lsqSize && WellFormed(i)
      modifies this`ruuTail, this`ruuNum, this`lsqTail, this`lsqNum, this`instSeq, this`freeList, this`readyQueue, this`useSpecCV,
               ruu, lsq, createVector, specCreateVector
      ensures Shape(old(View())) && Reports(DispatchMem(old(View()), i), fault, View())
      ensures fault.None? ==> Valid()
    {
      hide Allocate, LinkThree, InstallTwo, EnqueueIfReady, Shape;
      ShapeHere();
      TailBounds();
      var x, y := ruuTail, ruuSize + lsqTail;
      FillStations(i);
      ShapeHere();
      fault := LinkInputs(x, NA, i.in2, i.in3);
      if fault.Some? {
        return;
      }
      ShapeHere();
      InstallOutputs(x, DTMP, NA);
      ShapeHere();
      fault := LinkInputs(y, i.in1, DTMP, NA);
      if fault.Some? {
        return;
      }
      ShapeHere();
      InstallOutputs(y, i.out1, i.out2);
      ShapeHere();
      fault := QueueIfReady(x);
      if fault.Some? {
        return;
      }
      ShapeHere();
      if i.kind == Store {
        fault := QueueIfReady(y);
      }
    }

    /** Decodes one instruction into the window, and enters mis-speculation if it is predicted wrongly. */
    method DispatchOne(i: Inst, env: DispatchEnv) returns (fault: Option<Fault>)
      requires Valid() && ruuNum < ruuSize && lsqNum < lsqSize && WellFormed(i)
      modifies this`ruuTail, this`ruuNum, this`lsqTail, this`lsqNum, this`instSeq, this`freeList, this`readyQueue, this`useSpecCV,
               this`specMode, ruu, lsq, createVector, specCreateVector
      ensures Shape(old(View())) && Reports(DispatchInst(old(View()), i, env), fault, View())
      ensures fault.None? ==> Valid()
    {
      hide DispatchOp, DispatchMem, Shape, Live, InRange;
      ShapeHere();
      TailBounds();
      var x, speculative := ruuTail, specMode;
      fault := None;
      if i.isNop {
        return;
      }
      if i.kind == Alu {
        fault := DispatchOperation(i);
      } else {
        fault := DispatchMemory(i);
      }
      if fault.None? && !speculative && i.predPC != i.nextPC && !Redirects(i, env) {
        EnterSpeculation(x);
      }
    }

    /** The trace generator enters mis-speculation at the entry just dispatched. */
    method EnterSpeculation(x: nat)
      requires Valid() && x < ruuSize
      modifies this`specMode, ruu, lsq
      ensures Valid() && Shape(old(View())) && |old(View()).st| == ruuSize + lsqSize && View() == EnterSpec(old(View()), x)
    {
      Write(x, Rs(x).(recoverInst := true));
      specMode := true;
    }

    method RuuDispatch(insts: seq<Inst>, env: DispatchEnv) returns (fault: Option<Fault>)
      requires Valid() && (forall j :: 0 <= j < |insts| ==> WellFormed(insts[j]))
      modifies this`ruuTail, this`ruuNum, this`lsqTail, this`lsqNum, this`instSeq, this`freeList, this`readyQueue, this`useSpecCV,
               this`specMode, ruu, lsq, createVector, specCreateVector
      ensures Shape(old(View())) && Reports(Dispatch(old(View()), insts, 0, env), fault, View())
      ensures fault.None? ==> Valid()
    {
      hide Dispatch, DispatchInst, Shape, WellFormed;
      ghost var c := View();
      ShapeHere();
      var fetchHead, nDispatched: nat := 0, 0;
      assert insts[0..] == insts;
      while nDispatched < env.width && ruuNum < ruuSize && lsqNum < lsqSize && fetchHead < |insts| && (env.includeSpec || !specMode)
        invariant 0 <= fetchHead <= |insts| && Valid() && Shape(c) && Shape(View())
        invariant Dispatch(c, insts, 0, env) == Dispatch(View(), insts[fetchHead..], nDispatched, env)
        decreases |insts| - fetchHead
      {
        ghost var d := View();
        ShapeHere();
        DispatchIs(d, insts[fetchHead..], nDispatched, env);
        assert insts[fetchHead..][1..] == insts[fetchHead + 1..];
        var i := insts[fetchHead];
        if i.isTrap {
          if ruuNum != 0 {
            return None;
          }
          if specMode {
            return Some(DrainedAndSpeculative);
          }
        }
        fault := DispatchOne(i, env);
        if fault.Some? || Redirects(i, env) {
          return;
        }
        ShapeHere();
        if !i.isNop {
          nDispatched := nDispatched + 1;
        }
        fetchHead := fetchHead + 1;
      }
      ShapeHere();
      DispatchIs(View(), insts[fetchHead..], nDispatched, env);
      fault := None;
    }

    // ----- the simulator's main loop -----

    constructor (ruuSize: nat, lsqSize: nat, maxLinks: nat, fus: nat)
      requires ruuSize > 0 && lsqSize > 0
      ensures Valid() && View() == Initial(ruuSize, lsqSize, maxLinks) && units.busy[..] == seq(fus, _ => 0)
      ensures fresh(ruu) && fresh(lsq) && fresh(createVector) && fresh(specCreateVector) && fresh(units.busy)
    {
      this.ruuSize, this.lsqSize := ruuSize, lsqSize;
      ruu := new Station[ruuSize](_ => IDLE_STATION);
      lsq := new Station[lsqSize](_ => IDLE_STATION);
      createVector := new Creator[MD_TOTAL_REGS](_ => RegFile);
      specCreateVector := new Creator[MD_TOTAL_REGS](_ => RegFile);
      units := new UnitPool(fus);
      ruuHead, ruuTail, ruuNum := 0, 0, 0;
      lsqHead, lsqTail, lsqNum := 0, 0, 0;
      freeList := seq(maxLinks, i => i);
      eventQueue, readyQueue := [], [];
      useSpecCV, specMode, instSeq, simCycle := {}, false, 0, 0;
      new;
      assert Stations() == seq(ruuSize + lsqSize, _ => IDLE_STATION);
      assert Created() == seq(MD_TOTAL_REGS, _ => RegFile);
      assert SpecCreated() == seq(MD_TOTAL_REGS, _ => RegFile);
    }

    /** The sanity checks on the two queues at the start of a cycle. */
    method CheckQueues() returns (fault: Option<Fault>)
      requires Valid()
      ensures fault == if ruuNum < lsqNum then Some(RuuSmallerThanLsq) else None
    {
      if ruuNum < lsqNum {
        return Some(RuuSmallerThanLsq);
      }
      AtIsMod(ruuHead, ruuSize, ruuNum);
      AtIsMod(lsqHead, lsqSize, lsqNum);
      if (ruuHead + ruuNum) % ruuSize != ruuTail {
        assert false;
      }
      if (lsqHead + lsqNum) % lsqSize != lsqTail {
        assert false;
      }
      fault := None;
    }

    /** The stages of one cycle, last stage of the pipeline first. */
    method SimCycle(inp: UnitInputs) returns (fault: Option<Fault>)
      requires Valid() && WellFormedUnits(inp, units.busy.Length)
      modifies this, ruu, lsq, createVector, specCreateVector, units.busy
      ensures Shape(old(View())) && ReportsUnits(CycleUnits(old(View()), old(units.busy[..]), inp), fault, View(), units.busy[..])
      ensures fault.None? ==> Valid()
    {
      hide CommitUnits, CycleUnits, RestUnits, Shape, Usable;
      ShapeHere();
      CycleUnitsParts(View(), units.busy[..], inp);
      fault := CheckQueues();
      if fault.Some? {
        return;
      }
      fault := RuuCommit(inp.commitWidth, inp.units);
      if fault.None? {
        units.ReleaseFu();
        fault := LateStages(inp);
      }
    }

    method LateStages(inp: UnitInputs) returns (fault: Option<Fault>)
      requires Valid() && WellFormedUnits(inp, units.busy.Length)
      modifies this, ruu, lsq, createVector, specCreateVector, units.busy
      ensures Shape(old(View())) && ReportsUnits(RestUnits(old(View()), old(units.busy[..]), inp), fault, View(), units.busy[..])
      ensures fault.None? ==> Valid()
    {
      ValidShape();
      hide Writeback, Refresh, IssueUnits, Dispatch, RestUnits, Shape, WellFormed, View, Valid, InShape, Separate, Usable;
      RestUnitsParts(View(), units.busy[..], inp);
      fault := RuuWriteback();
      if fault.Some? {
        return;
      }
      fault := LsqRefresh();
      if fault.Some? {
        return;
      }
      fault := RuuIssue(inp.units);
      if fault.Some? {
        return;
      }
      fault := RuuDispatch(inp.insts, inp.dispatch);
      if fault.None? {
        NextCycle();
      }
    }

    method NextCycle()
      requires Valid()
      modifies this`simCycle
      ensures Valid() && View() == Tick(old(View()))
    {
      simCycle := simCycle + 1;
    }

    /** The main loop, fed by the rest of the simulator: from power-on it never stops at a
        panic, only when the links run out, or with an LSQ larger than the table of unknown stores. */
    method SimMain(inputs: seq<UnitInputs>, ghost pool: nat, ghost w: nat, ghost m: nat) returns (fault: Option<Fault>)
      requires Valid() && WellFormedUnitRun(inputs, units.busy.Length)
      modifies this, ruu, lsq, createVector, specCreateVector, units.busy
      ensures Shape(old(View())) && ReportsUnits(RunUnits(old(View()), old(units.busy[..]), inputs), fault, View(), units.busy[..])
      ensures old(View()) == Initial(ruuSize, lsqSize, pool) ==>
                if fault.Some? then IsCapacityFault(fault.value, lsqSize) else Valid() && Inv(View(), pool)
      ensures old(View()) == Initial(ruuSize, lsqSize, pool) && lsqSize <= MAX_STD_UNKNOWNS ==>
                Units.BriskRun(inputs, w, m) && pool >= LinkBound(ruuSize, lsqSize, w, m) ==> fault.None?
    {
      hide CycleUnits, RunUnits, Shape, Inv, Initial, WellFormedUnits, WellFormedUnitRun, LinkBound;
      ghost var c, start := View(), units.busy[..];
      ShapeHere();
      if c == Initial(ruuSize, lsqSize, pool) {
        ghost var answers := Units.UnitsRefine(ruuSize, lsqSize, pool, start, inputs);
        if lsqSize <= MAX_STD_UNKNOWNS && Units.BriskRun(inputs, w, m) && pool >= LinkBound(ruuSize, lsqSize, w, m) {
          Units.UnitsNeverStop(ruuSize, lsqSize, pool, start, inputs, w, m);
        }
      }
      var t := 0;
      assert inputs[0..] == inputs;
      fault := None;
      while t < |inputs|
        invariant 0 <= t <= |inputs| && Valid() && Shape(c) && Shape(View()) && WellFormedUnitRun(inputs[t..], units.busy.Length)
        invariant RunUnits(c, start, inputs) == RunUnits(View(), units.busy[..], inputs[t..]) && fault == None
      {
        assert inputs[t..][1..] == inputs[t + 1..];
        assert inputs[t..][0] == inputs[t];
        RunUnitsNext(View(), units.busy[..], inputs[t..]);
        fault := SimCycle(inputs[t]);
        if fault.Some? {
          return;
        }
        ShapeHere();
        t := t + 1;
      }
      RunUnitsNext(View(), units.busy[..], inputs[t..]);
    }
  }
}
