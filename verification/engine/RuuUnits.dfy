/** The functional units: a pool of busy counters, and the cycle that takes its units from it. */
module RuuUnits {
  import opened Common
  import opened RuuTypes
  import opened RuuSteps

  /** A unit that serves a class, with the latencies it has for that class. */
  datatype Template = Template(unit: nat, oplat: nat, issuelat: nat)

  /** `table` lists the templates of each class; `unitClass` gives the class of an operation by its
      sequence number. */
  datatype UnitEnv = UnitEnv(
    table: seq<seq<Template>>, unitClass: nat -> nat, width: nat, memLat: nat -> nat, tlbLat: nat -> nat)

  /** The templates of the class of an operation. */
  function Serving(u: UnitEnv, num: nat): seq<Template> {
    if u.unitClass(num) < |u.table| then u.table[u.unitClass(num)] else []
  }

  ghost predicate Usable(u: UnitEnv, units: nat) {
    && (forall n :: u.unitClass(n) < |u.table| && u.memLat(n) >= 1)
    && (forall k, i :: 0 <= k < |u.table| && 0 <= i < |u.table[k]| ==> u.table[k][i].unit < units && u.table[k][i].oplat >= 1)
  }

  // ----- the pool -----

  /** The first template whose unit is not busy. */
  function FirstFree(busy: seq<nat>, list: seq<Template>, i: nat): (r: Option<Template>)
    requires i <= |list|
    ensures r.Some? ==> exists k :: i <= k < |list| && r.value == list[k] && Free(busy, list[k]) && forall j :: i <= j < k ==> !Free(busy, list[j])
    ensures r.None? ==> forall j :: i <= j < |list| ==> !Free(busy, list[j])
    decreases |list| - i
  {
    if i == |list| then None else if Free(busy, list[i]) then Some(list[i]) else FirstFree(busy, list, i + 1)
  }

  predicate Free(busy: seq<nat>, p: Template) { p.unit < |busy| && busy[p.unit] == 0 }

  function Reserve(busy: seq<nat>, g: Option<Template>): (b: seq<nat>)
    ensures |b| == |busy|
  {
    if g.Some? && g.value.unit < |busy| then busy[g.value.unit := g.value.issuelat] else busy
  }

  /** Every counter is one nearer to release. */
  function Release(busy: seq<nat>): (b: seq<nat>)
    ensures |b| == |busy|
  {
    seq(|busy|, i requires 0 <= i < |busy| => if busy[i] > 0 then busy[i] - 1 else 0)
  }

  // ----- commit and issue with the pool -----

  datatype UnitOutcome = Ran(core: Core, busy: seq<nat>) | Halt(fault: Fault)

  /** The unit asked for is busy after all. */
  predicate InUse(busy: seq<nat>, g: Option<Template>) {
    g.Some? && g.value.unit < |busy| && busy[g.value.unit] != 0
  }

  /** A completed store is about to retire, and needs a port. */
  predicate StoreAtHead(c: Core)
    requires Shape(c) && c.rn > 0
  {
    var h, y := c.st[c.rh], c.st[c.R + c.lh];
    h.completed && h.eaComp && c.ln > 0 && y.inLsq && y.completed && y.kind == Store
  }

  function Port(c: Core, busy: seq<nat>, u: UnitEnv): Option<Template>
    requires Shape(c) && c.rn > 0
  {
    if StoreAtHead(c) then FirstFree(busy, Serving(u, c.st[c.R + c.lh].num), 0) else None
  }

  /** The gate with the port that the pool gives. */
  function GateNow(c: Core, busy: seq<nat>, u: UnitEnv): Gate
    requires Shape(c) && c.rn > 0
  {
    var g := Port(c, busy, u);
    CommitGate(c, _ => g.Some?)
  }

  function CommitUnits(c: Core, busy: seq<nat>, width: nat, u: UnitEnv): (r: UnitOutcome)
    requires Shape(c)
    ensures r.Ran? ==> Shape(r.core) && SameSize(c, r.core) && |r.busy| == |busy|
    decreases width
  {
    if c.rn == 0 || width == 0 then Ran(c, busy)
    else
      var g := Port(c, busy, u);
      if InUse(busy, g) then Halt(UnitInUse)
      else match GateNow(c, busy, u)
        case Stall => Ran(c, busy)
        case Broken(f) => Halt(f)
        case Open =>
          if c.st[c.rh].odeps != Duo([], []) then Halt(RetiredHasOdeps)
          else CommitUnits(Retire(c), Reserve(busy, g), width - 1, u)
  }

  predicate NeedsUnit(s: Station) { !(s.inLsq && s.kind == Store) && s.usesUnit }

  /** The unit for a link, if one is asked for and free. */
  function UnitFor(c: Core, l: Link, n: nat, busy: seq<nat>, u: UnitEnv): Option<Template> {
    if Valid(c, l) && n < u.width && NeedsUnit(c.st[l.rs]) then FirstFree(busy, Serving(u, c.st[l.rs].num), 0) else None
  }

  /** The answers to one link. */
  function StepEnv(u: UnitEnv, g: Option<Template>): IssueEnv {
    IssueEnv(u.width, _ => g.Some?, _ => if g.Some? then g.value.oplat else 1, u.memLat, u.tlbLat)
  }

  function Issued(c: Core, l: Link, n: nat, env: IssueEnv): nat {
    if n < env.width && Valid(c, l) && GetsUnit(c.st[l.rs], env) then n + 1 else n
  }

  function IssueUnits(c: Core, busy: seq<nat>, pend: seq<Link>, n: nat, u: UnitEnv): (r: UnitOutcome)
    requires Shape(c)
    ensures r.Ran? ==> Shape(r.core) && SameSize(c, r.core) && |r.busy| == |busy|
    decreases |pend|
  {
    if pend == [] then Ran(c, busy)
    else
      var g := UnitFor(c, pend[0], n, busy, u);
      if InUse(busy, g) then Halt(UnitInUse)
      else
        var env := StepEnv(u, g);
        var d := IssueLink(c, pend[0], n, env);
        if d.Stop? then Halt(d.fault)
        else IssueUnits(d.core, Reserve(busy, g), pend[1..], Issued(c, pend[0], n, env), u)
  }

  // ----- cycles and runs -----

  datatype UnitInputs = UnitInputs(commitWidth: nat, units: UnitEnv, insts: seq<Inst>, dispatch: DispatchEnv)

  ghost predicate WellFormedUnits(inp: UnitInputs, units: nat) {
    Usable(inp.units, units) && forall j :: 0 <= j < |inp.insts| ==> WellFormed(inp.insts[j])
  }

  /** Units are released between commit and writeback. */
  function CycleUnits(c: Core, busy: seq<nat>, inp: UnitInputs): (r: UnitOutcome)
    requires Shape(c) && (forall j :: 0 <= j < |inp.insts| ==> WellFormed(inp.insts[j]))
    ensures r.Ran? ==> Shape(r.core) && |r.busy| == |busy|
  {
    if c.rn < c.ln then Halt(RuuSmallerThanLsq)
    else
      var r1 := CommitUnits(c, busy, inp.commitWidth, inp.units);
      if r1.Halt? then r1 else RestUnits(r1.core, Release(r1.busy), inp)
  }

  function RestUnits(c: Core, busy: seq<nat>, inp: UnitInputs): (r: UnitOutcome)
    requires Shape(c) && (forall j :: 0 <= j < |inp.insts| ==> WellFormed(inp.insts[j]))
    ensures r.Ran? ==> Shape(r.core) && |r.busy| == |busy|
  {
    var r2 := Writeback(c);
    if r2.Stop? then Halt(r2.fault)
    else
      var r3 := Refresh(r2.core, 0, []);
      if r3.Stop? then Halt(r3.fault)
      else
        var r4 := IssueUnits(r3.core.(readyq := []), busy, r3.core.readyq, 0, inp.units);
        if r4.Halt? then r4
        else
          var r5 := Dispatch(r4.core, inp.insts, 0, inp.dispatch);
          if r5.Stop? then Halt(r5.fault) else Ran(r5.core.(cycle := r5.core.cycle + 1), r4.busy)
  }

  ghost predicate WellFormedUnitRun(inputs: seq<UnitInputs>, units: nat) {
    forall t :: 0 <= t < |inputs| ==> WellFormedUnits(inputs[t], units)
  }

  ghost function RunUnits(c: Core, busy: seq<nat>, inputs: seq<UnitInputs>): (r: UnitOutcome)
    requires Shape(c) && WellFormedUnitRun(inputs, |busy|)
    decreases |inputs|
  {
    if inputs == [] then Ran(c, busy)
    else
      assert WellFormedUnits(inputs[0], |busy|);
      var r := CycleUnits(c, busy, inputs[0]);
      if r.Halt? then r else RunUnits(r.core, r.busy, inputs[1..])
  }

  // ----- in place -----

  /** The busy counters of the units, changed in place. */
  class UnitPool {
    const busy: array<nat>

    /** The first free template of a list, if there is one. */
    method ResGet(list: seq<Template>) returns (g: Option<Template>)
      requires forall i :: 0 <= i < |list| ==> list[i].unit < busy.Length
      ensures g == FirstFree(busy[..], list, 0)
    {
      var i := 0;
      while i < |list|
        invariant i <= |list| && FirstFree(busy[..], list, i) == FirstFree(busy[..], list, 0)
      {
        if busy[list[i].unit] == 0 {
          return Some(list[i]);
        }
        i := i + 1;
      }
      return None;
    }

    /** Takes a unit; the answer says that it was busy after all. */
    method Take(p: Template) returns (inUse: bool)
      requires p.unit < busy.Length
      modifies busy
      ensures inUse == InUse(old(busy[..]), Some(p))
      ensures busy[..] == if inUse then old(busy[..]) else Reserve(old(busy[..]), Some(p))
    {
      if busy[p.unit] != 0 {
        return true;
      }
      busy[p.unit] := p.issuelat;
      inUse := false;
    }

    method ReleaseFu()
      modifies busy
      ensures busy[..] == Release(old(busy[..]))
    {
      var i := 0;
      while i < busy.Length
        invariant i <= busy.Length
        invariant forall j :: 0 <= j < busy.Length ==> busy[j] == if j < i then Release(old(busy[..]))[j] else old(busy[j])
      {
        if busy[i] > 0 {
          busy[i] := busy[i] - 1;
        }
        i := i + 1;
      }
    }

    constructor (units: nat)
      ensures fresh(busy) && busy[..] == seq(units, _ => 0)
    {
      busy := new nat[units](_ => 0);
    }
  }
}
