/** The first cycle of a run: a long operation, two stores to one address and a load at address 0
    are dispatched. */
module RuuZeroDispatch {
  import opened RuuTypes
  import opened RuuSteps
  import opened RuuCycle
  import Mem = RuuDispatchStage

  // ----- the program -----

  /** A long operation that writes register 1. */
  const PRODUCE := Inst(Alu, false, false, false, false, true, 1, NA, NA, NA, NA, 0, 8, 16, 16, 0)

  /** A store of a register to an address that needs no register. */
  function StoreOf(source: Reg, a: nat): Inst {
    Inst(Store, false, false, false, false, true, NA, NA, source, NA, NA, a, 8, 16, 16, 0)
  }

  /** A load into register 2. */
  const LOAD := Inst(Load, false, false, false, false, true, 2, NA, NA, NA, NA, 0, 8, 16, 16, 0)

  // ----- its stations -----

  datatype Progress = Held | Queued | Running | Finished

  function In(s: Station, p: Progress): Station {
    s.(queued := p == Queued, issued := p == Running || p == Finished, completed := p == Finished)
  }

  function Fresh(kind: Kind, inLsq: bool, ea: bool, addr: nat, num: nat, out: Reg, partner: nat): Station {
    Station(kind, false, true, inLsq, ea, false, false, addr, 0, num, false, false, false, Duo(out, NA), Duo([], []),
            Tri(true, true, true), Tri(NA, NA, NA), Tri(RegFile, RegFile, RegFile), partner)
  }

  function Producer(p: Progress, chain: seq<Link>): Station {
    In(Fresh(Alu, false, false, 0, 1, 1, 4).(odeps := Duo(chain, [])), p)
  }

  /** The address half in slot `j`. */
  function Half(j: nat, p: Progress, chain: seq<Link>): Station {
    In(Fresh(Alu, false, true, 0, 2 * j, DTMP, 3 + j).(odeps := Duo(chain, [])), p)
  }

  /** The memory half of slot `j`: whether it has its data and its address. */
  function Memory(kind: Kind, j: nat, a: nat, source: Reg, out: Reg, data: bool, address: bool, p: Progress): Station {
    In(Fresh(kind, true, false, a, 2 * j + 1, out, j).(
         ready := Tri(data, address, true), inames := Tri(source, DTMP, NA),
         waitOn := Tri(if source == NA then RegFile else By(0, 0), By(j, 0), RegFile)), p)
  }

  function DataLink(): Link { Link(1, 4, 0, 0, 3) }
  /** The link of the memory half of slot `j` to its address. */
  function AddressLink(j: nat): Link { Link(2 * j, 3 + j, 0, 1, 2 * j + 1) }

  /** Creators of register 1, of the register that carries addresses, and of register 2. */
  function Vector(r1: Creator, address: Creator, r2: Creator): (v: seq<Creator>)
    ensures |v| == MD_TOTAL_REGS
  {
    seq(MD_TOTAL_REGS, n => if n == 1 then r1 else if n == DTMP then address else if n == 2 then r2 else RegFile)
  }

  function Clean(): (v: seq<Creator>)
    ensures |v| == MD_TOTAL_REGS
  {
    seq(MD_TOTAL_REGS, _ => RegFile)
  }

  /** The engine with `k` RUU entries of the program. */
  function State(k: nat, st: seq<Station>, free: seq<nat>, events: seq<Link>, readyq: seq<Link>, cv: seq<Creator>, cycle: nat): Core {
    Core(4, 3, st, 0, k, 0, if k == 0 then 0 else k - 1, free, events, readyq, cv, Clean(), {}, false,
         if k == 0 then 0 else 2 * k - 1, cycle)
  }

  // ----- the first cycle: dispatch -----

  function D1(): Core {
    State(1, [Producer(Queued, []), IDLE_STATION, IDLE_STATION, IDLE_STATION, IDLE_STATION, IDLE_STATION, IDLE_STATION], [1, 2, 3, 4, 5, 6, 7, 8], [], [Link(0, 0, 0, 1, 1)],
          Vector(By(0, 0), RegFile, RegFile), 0)
  }

  function Links(): seq<Link> { [Link(0, 0, 0, 1, 1), Link(3, 1, 0, 2, 2), Link(5, 2, 0, 4, 4), Link(7, 3, 0, 6, 6)] }

  function D2(a: nat): Core {
    State(2, [Producer(Queued, [DataLink()]), Half(1, Queued, [AddressLink(1)]), IDLE_STATION, IDLE_STATION,
              Memory(Store, 1, a, 1, NA, false, false, Held), IDLE_STATION, IDLE_STATION],
          [4, 5, 6, 7, 8], [], Links()[..2], Vector(By(0, 0), By(1, 0), RegFile), 0)
  }

  function D3(a: nat): Core {
    State(3, [Producer(Queued, [DataLink()]), Half(1, Queued, [AddressLink(1)]), Half(2, Queued, [AddressLink(2)]), IDLE_STATION,
              Memory(Store, 1, a, 1, NA, false, false, Held), Memory(Store, 2, a, NA, NA, true, false, Held), IDLE_STATION],
          [6, 7, 8], [], Links()[..3], Vector(By(0, 0), By(2, 0), RegFile), 0)
  }

  function D4(a: nat): Core {
    State(4, [Producer(Queued, [DataLink()]), Half(1, Queued, [AddressLink(1)]), Half(2, Queued, [AddressLink(2)]),
              Half(3, Queued, [AddressLink(3)]), Memory(Store, 1, a, 1, NA, false, false, Held),
              Memory(Store, 2, a, NA, NA, true, false, Held), Memory(Load, 3, 0, NA, 2, true, false, Held)],
          [8], [], Links(), Vector(By(0, 0), By(3, 0), By(6, 0)), 0)
  }

  // ----- single steps in closed form -----

  lemma LinkFree(c: Core, x: nat, k: nat)
    requires Shape(c) && x < |c.st| && k < 3 && c.st[x].ready.Get(k) && c.st[x].inames.Get(k) == NA
    ensures LinkIdep(c, x, k, NA) == Ok(c)
  {
    assert With(c, x, c.st[x]) == c;
  }

  lemma LinkFreeAll(c: Core, x: nat)
    requires Shape(c) && x < |c.st| && c.st[x].AllReady() && c.st[x].inames == Tri(NA, NA, NA)
    ensures LinkThree(c, x, NA, NA, NA) == Ok(c)
  {
    LinkFree(c, x, 0);
    LinkFree(c, x, 1);
    LinkFree(c, x, 2);
    hide LinkIdep;
  }

  lemma LinkTo(c: Core, x: nat, k: nat, name: Reg, p: nat)
    requires Shape(c) && x < |c.st| && p < |c.st| && p != x && c.free != [] && c.useSpec == {} && name != NA && c.cv[name] == By(p, 0)
    ensures var s, q := c.st[x], c.st[p];
      LinkIdep(c, x, k, name) == Ok(c.(
        st := c.st[x := s.(inames := s.inames.Set(k, name), ready := s.ready.Set(k, false), waitOn := s.waitOn.Set(k, By(p, 0)))]
                  [p := q.(odeps := Duo([Link(c.free[0], x, s.tag, k, s.num)] + q.odeps.a, q.odeps.b))],
        free := c.free[1..]))
  {
  }

  lemma InstallFirst(c: Core, x: nat, name: Reg)
    requires Shape(c) && x < |c.st| && !c.specMode && c.st[x].onames.b == NA && c.st[x].odeps.a == []
    ensures InstallTwo(c, x, name, NA) ==
      if name == NA then c.(st := c.st[x := c.st[x].(onames := Duo(NA, NA))])
      else c.(st := c.st[x := c.st[x].(onames := Duo(name, NA))], cv := c.cv[name := By(x, 0)])
  {
  }

  lemma EnqueueHalf(c: Core, x: nat)
    requires Shape(c) && x < |c.st| && c.st[x].AllReady() && !c.st[x].queued && c.free != [] && !c.st[x].inLsq && !c.st[x].atHead
    ensures EnqueueIfReady(c, x) == Ok(c.(st := c.st[x := c.st[x].(queued := true)], free := c.free[1..],
                                          readyq := InsertByX(c.readyq, Link(c.free[0], x, c.st[x].tag, c.st[x].num, c.st[x].num))))
  {
    hide InsertByX;
  }

  lemma EnqueueNot(c: Core, x: nat)
    requires Shape(c) && x < |c.st| && !c.st[x].AllReady()
    ensures EnqueueIfReady(c, x) == Ok(c)
  {
  }

  lemma VectorSet(r1: Creator, d: Creator, r2: Creator, v: Creator)
    ensures Vector(r1, d, r2)[1 := v] == Vector(v, d, r2)
    ensures Vector(r1, d, r2)[DTMP := v] == Vector(r1, v, r2)
    ensures Vector(r1, d, r2)[2 := v] == Vector(r1, d, v)
  {
  }

  lemma PowerOn()
    ensures var c := Initial(4, 3, 9);
      && Shape(c) && c.free == [0, 1, 2, 3, 4, 5, 6, 7, 8] && c.cv == Clean()
      && c.st == [IDLE_STATION, IDLE_STATION, IDLE_STATION, IDLE_STATION, IDLE_STATION, IDLE_STATION, IDLE_STATION]
      && c == State(0, c.st, c.free, [], [], Clean(), 0) && Tail(c) == 0 && LsqTail(c) == 4
  {
  }

  lemma ProducerAllocated(c: Core)
    requires Shape(c) && c == Initial(4, 3, 9) && |c.st| == 7 && c.st[0] == IDLE_STATION && Tail(c) == 0 && LsqTail(c) == 4
    ensures Allocate(c, PRODUCE) == c.(st := c.st[0 := Fresh(Alu, false, false, 0, 1, NA, 4)], rn := 1, instSeq := 1)
  {
  }

  lemma FirstDispatch()
    ensures var c := Initial(4, 3, 9); Shape(c) && DispatchInst(c, PRODUCE, DispatchEnv(4, true, false)) == Ok(D1())
  {
    var c := Initial(4, 3, 9);
    PowerOn();
    ProducerAllocated(c);
    var c0 := Allocate(c, PRODUCE);
    LinkFreeAll(c0, 0);
    InstallFirst(c0, 0, 1);
    var c1 := InstallTwo(c0, 0, 1, NA);
    EnqueueHalf(c1, 0);
    CleanSet();
    var e := EnqueueIfReady(c1, 0).core;
    hide Initial, Allocate, LinkThree, InstallTwo, EnqueueIfReady, Clean, Vector, Shape;
    assert e.st == D1().st && e.free == D1().free && e.readyq == D1().readyq;
  }

  lemma CleanSet()
    ensures Clean()[1 := By(0, 0)] == Vector(By(0, 0), RegFile, RegFile)
  {
  }

  /** The entries allocated for a load or store in slots that were never used. */
  lemma MemAllocated(c: Core, i: Inst, x: nat, y: nat)
    requires Shape(c) && c.rn < c.R && c.ln < c.L && i.kind != Alu && i.usesUnit && !c.specMode
    requires x == Tail(c) && y == LsqTail(c) && c.st[x] == c.st[y] == IDLE_STATION
    ensures Allocate(c, i) == c.(
      st := c.st[x := Fresh(Alu, false, true, 0, c.instSeq + 1, NA, y)][y := Fresh(i.kind, true, false, i.addr, c.instSeq + 2, NA, x)],
      rn := c.rn + 1, ln := c.ln + 1, instSeq := c.instSeq + 2)
  {
  }

  /** The links of the memory half: to its data, if a register holds it, and to its address. */
  lemma MemLinks(c: Core, y: nat, x: nat, source: Reg) returns (d: Core)
    requires Shape(c) && x < |c.st| && y < |c.st| && x != y && x != 0 && y != 0 && |c.free| >= 2 && c.useSpec == {}
    requires c.st[y].AllReady() && c.st[y].inames == Tri(NA, NA, NA) && c.cv[DTMP] == By(x, 0)
    requires source == NA || (source == 1 && c.cv[1] == By(0, 0))
    ensures LinkThree(c, y, source, DTMP, NA) == Ok(d) && Shape(d)
    ensures d == c.(st := d.st, free := c.free[if source == NA then 1 else 2..]) && |d.st| == |c.st|
    ensures var n := if source == NA then c.free[0] else c.free[1];
      var h := c.st[x].odeps;
      && d.st[y] == c.st[y].(inames := Tri(source, DTMP, NA), ready := Tri(source == NA, false, true),
                             waitOn := Tri(if source == NA then c.st[y].waitOn.a else By(0, 0), By(x, 0), c.st[y].waitOn.c))
      && d.st[x] == c.st[x].(odeps := Duo([Link(n, y, c.st[y].tag, 1, c.st[y].num)] + h.a, h.b))
      && (source == NA ==> d.st[0] == c.st[0])
      && (source != NA ==> d.st[0] == c.st[0].(odeps := Duo([Link(c.free[0], y, c.st[y].tag, 0, c.st[y].num)] + c.st[0].odeps.a, c.st[0].odeps.b)))
      && forall z :: 0 < z < |c.st| && z != x && z != y ==> d.st[z] == c.st[z]
  {
    hide LinkIdep, Shape;
    var c1 := c;
    if source == NA {
      LinkFree(c, y, 0);
    } else {
      LinkTo(c, y, 0, 1, 0);
      c1 := LinkIdep(c, y, 0, 1).core;
    }
    LinkTo(c1, y, 1, DTMP, x);
    d := LinkIdep(c1, y, 1, DTMP).core;
    LinkFree(d, y, 2);
  }

  /** A load or store of the program, with the `k` entries before it in place. */
  ghost predicate Follows(c: Core, k: nat, i: Inst, r1: Creator, d: Creator, r2: Creator) {
    && 1 <= k <= 3 && |c.st| == 7 && |c.free| >= 3 && c.st[k] == c.st[3 + k] == IDLE_STATION
    && c == State(k, c.st, c.free, [], c.readyq, Vector(r1, d, r2), 0) && r1 == By(0, 0) && InRange(c, d) && InRange(c, r2)
    && (i == LOAD || i == StoreOf(i.in1, i.addr)) && (i.in1 == NA || i.in1 == 1)
  }

  lemma FollowsShape(c: Core, k: nat, i: Inst, r1: Creator, d: Creator, r2: Creator)
    requires Follows(c, k, i, r1, d, r2)
    ensures Shape(c) && Tail(c) == k && LsqTail(c) == 3 + k && WellFormed(i) && c.rn < c.R && c.ln < c.L
  {
  }

  /** The first half of its dispatch: both entries allocated, the address half filled in. */
  lemma MemBegins(c: Core, k: nat, i: Inst, r1: Creator, d: Creator, r2: Creator) returns (b: Core)
    requires Follows(c, k, i, r1, d, r2) && Shape(c)
    ensures b == State(k + 1, b.st, c.free, [], c.readyq, Vector(r1, By(k, 0), r2), 0) && Shape(b)
    ensures b.st == c.st[k := Half(k, Held, [])][3 + k := Fresh(i.kind, true, false, i.addr, 2 * k + 1, NA, k)]
    ensures var c0 := Allocate(c, i);
      LinkThree(c0, k, NA, i.in2, i.in3).Ok? && InstallTwo(LinkThree(c0, k, NA, i.in2, i.in3).core, k, DTMP, NA) == b
  {
    FollowsShape(c, k, i, r1, d, r2);
    MemAllocated(c, i, k, 3 + k);
    var c0 := Allocate(c, i);
    LinkFreeAll(c0, k);
    InstallFirst(c0, k, DTMP);
    VectorSet(r1, d, r2, By(k, 0));
    hide Allocate, LinkThree, InstallTwo, Vector, Clean, Shape;
    b := InstallTwo(c0, k, DTMP, NA);
  }

  /** How many links a memory half takes, one more if a register holds its data. */
  function Taken(i: Inst): nat { if i.in1 == NA then 1 else 2 }

  /** The stations with a load or store added as entry `k`; `n` is the link of its address. */
  function Added(st: seq<Station>, k: nat, i: Inst, n: nat): (t: seq<Station>)
    requires |st| == 7 && 1 <= k <= 3
    ensures |t| == 7
  {
    st[0 := if i.in1 == NA then st[0] else st[0].(odeps := Duo([DataLink()] + st[0].odeps.a, st[0].odeps.b))]
      [k := Half(k, Queued, [Link(n, 3 + k, 0, 1, 2 * k + 1)])]
      [3 + k := Memory(i.kind, k, i.addr, i.in1, i.out1, i.in1 == NA, false, Held)]
  }

  /** The entry `k` at the tail, its address half filled in. */
  ghost predicate Begun(b: Core, k: nat, i: Inst, r1: Creator, r2: Creator) {
    && 1 <= k <= 3 && |b.st| == 7 && |b.free| >= 3 && Shape(b) && InRange(b, r2) && r1 == By(0, 0)
    && b == State(k + 1, b.st, b.free, [], b.readyq, Vector(r1, By(k, 0), r2), 0)
    && b.st[k] == Half(k, Held, []) && b.st[3 + k] == Fresh(i.kind, true, false, i.addr, 2 * k + 1, NA, k)
    && (i == LOAD || i == StoreOf(i.in1, i.addr)) && (i.in1 == NA || (i.in1 == 1 && k == 1 && b.free[0] == 1))
  }

  lemma BegunParts(b: Core, k: nat, i: Inst, r1: Creator, r2: Creator)
    requires Begun(b, k, i, r1, r2)
    ensures b.st[3 + k].AllReady() && b.st[3 + k].inames == Tri(NA, NA, NA) && b.cv[DTMP] == By(k, 0) && b.cv[1] == By(0, 0)
    ensures b.st[3 + k].onames == Duo(NA, NA) && b.st[3 + k].odeps == Duo([], []) && b.st[k].odeps == Duo([], []) && b.useSpec == {} && !b.specMode
    ensures b.st[k].AllReady() && !b.st[k].queued && !b.st[k].inLsq && !b.st[k].atHead && b.st[k].tag == 0 && b.st[k].num == 2 * k
    ensures b.st[3 + k].tag == 0 && b.st[3 + k].num == 2 * k + 1 && b.st[3 + k].waitOn == Tri(RegFile, RegFile, RegFile)
    ensures b.st[3 + k].(inames := Tri(i.in1, DTMP, NA), ready := Tri(i.in1 == NA, false, true), onames := Duo(i.out1, NA),
                         waitOn := Tri(if i.in1 == NA then RegFile else By(0, 0), By(k, 0), RegFile))
            == Memory(i.kind, k, i.addr, i.in1, i.out1, i.in1 == NA, false, Held)
    ensures forall l: Link :: b.st[k].(queued := true, odeps := Duo([l], [])) == Half(k, Queued, [l])
    ensures i.out2 == NA && (i.in1 != NA ==> DataLink() == Link(b.free[0], 3 + k, 0, 0, 2 * k + 1))
  {
  }

  /** The memory half linked and its output installed. */
  lemma MemLinked(b: Core, k: nat, i: Inst, r1: Creator, r2: Creator) returns (f: Core)
    requires Begun(b, k, i, r1, r2)
    ensures Shape(b) && Shape(f) && |f.st| == 7
    ensures var q := LinkThree(b, 3 + k, i.in1, DTMP, NA); q.Ok? && InstallTwo(q.core, 3 + k, i.out1, i.out2) == f
    ensures f == b.(st := f.st, free := b.free[Taken(i)..], cv := if i.out1 == NA then b.cv else b.cv[i.out1 := By(3 + k, 0)])
    ensures var l := Link(b.free[Taken(i) - 1], 3 + k, 0, 1, 2 * k + 1);
      && f.st[k] == b.st[k].(odeps := Duo([l], []))
      && f.st[3 + k] == Memory(i.kind, k, i.addr, i.in1, i.out1, i.in1 == NA, false, Held)
      && f.st[0] == (if i.in1 == NA then b.st[0] else b.st[0].(odeps := Duo([DataLink()] + b.st[0].odeps.a, b.st[0].odeps.b)))
      && forall z :: 0 < z < 7 && z != k && z != 3 + k ==> f.st[z] == b.st[z]
  {
    BegunParts(b, k, i, r1, r2);
    hide *;
    BegunShape(b, k, i, r1, r2);
    var c := MemLinks(b, 3 + k, k, i.in1);
    InstallFirst(c, 3 + k, i.out1);
    f := InstallTwo(c, 3 + k, i.out1, NA);
    var l := Link(b.free[Taken(i) - 1], 3 + k, 0, 1, 2 * k + 1);
    assert [l] + [] == [l];
  }

  lemma BegunShape(b: Core, k: nat, i: Inst, r1: Creator, r2: Creator)
    requires Begun(b, k, i, r1, r2)
    ensures Shape(b) && |b.st| == 7 && |b.free| >= 3 && 1 <= k <= 3 && Taken(i) == (if i.in1 == NA then 1 else 2) && (i.in1 == NA || i.in1 == 1)
  {
  }

  /** The engine after the dispatch of a load or store as entry `k`. */
  function AfterMem(c: Core, k: nat, i: Inst, r1: Creator, r2: Creator): Core
    requires |c.st| == 7 && |c.free| >= 3 && 1 <= k <= 3
  {
    State(k + 1, Added(c.st, k, i, c.free[Taken(i) - 1]), c.free[Taken(i) + 1..], [],
          InsertByX(c.readyq, Link(c.free[Taken(i)], k, 0, 2 * k, 2 * k)),
          Vector(r1, By(k, 0), if i.out1 == NA then r2 else By(3 + k, 0)), 0)
  }

  /** The address half goes on the ready queue, the memory half waits. */
  lemma MemQueued(b: Core, f: Core, k: nat, i: Inst, r1: Creator, r2: Creator)
    requires Begun(b, k, i, r1, r2) && Shape(f) && |f.st| == 7
    requires f == b.(st := f.st, free := b.free[Taken(i)..], cv := if i.out1 == NA then b.cv else b.cv[i.out1 := By(3 + k, 0)])
    requires var l := Link(b.free[Taken(i) - 1], 3 + k, 0, 1, 2 * k + 1);
      && f.st[k] == b.st[k].(odeps := Duo([l], []))
      && f.st[3 + k] == Memory(i.kind, k, i.addr, i.in1, i.out1, i.in1 == NA, false, Held)
      && f.st[0] == (if i.in1 == NA then b.st[0] else b.st[0].(odeps := Duo([DataLink()] + b.st[0].odeps.a, b.st[0].odeps.b)))
      && forall z :: 0 < z < 7 && z != k && z != 3 + k ==> f.st[z] == b.st[z]
    ensures var e := AfterMem(b, k, i, r1, r2);
      EnqueueIfReady(f, k) == Ok(e) && Shape(e) && EnqueueIfReady(e, 3 + k) == Ok(e)
  {
    BegunParts(b, k, i, r1, r2);
    VectorSet(r1, By(k, 0), r2, By(3 + k, 0));
    EnqueueHalf(f, k);
    var e := EnqueueIfReady(f, k).core;
    assert e.st == Added(b.st, k, i, b.free[Taken(i) - 1]);
    EnqueueNot(e, 3 + k);
    hide EnqueueIfReady, Shape, Vector, Clean, InsertByX, DataLink;
  }

  lemma DispatchInstMem(c: Core, i: Inst)
    requires Shape(c) && c.rn < c.R && c.ln < c.L && WellFormed(i) && i.kind != Alu && !i.isNop && i.predPC == i.nextPC
    ensures DispatchInst(c, i, DispatchEnv(4, true, false)) == DispatchMem(c, i)
  {
    hide DispatchMem, Shape;
  }

  lemma AfterMemSame(c: Core, b: Core, k: nat, i: Inst, r1: Creator, r2: Creator)
    requires |c.st| == |b.st| == 7 && |c.free| >= 3 && 1 <= k <= 3 && b.free == c.free && b.readyq == c.readyq
    requires b.st == c.st[k := b.st[k]][3 + k := b.st[3 + k]]
    ensures AfterMem(b, k, i, r1, r2) == AfterMem(c, k, i, r1, r2)
  {
    var n := c.free[Taken(i) - 1];
    assert Added(b.st, k, i, n) == Added(c.st, k, i, n);
    hide InsertByX, Vector;
  }

  lemma BeginsBegun(c: Core, k: nat, i: Inst, r1: Creator, d: Creator, r2: Creator, b: Core)
    requires Follows(c, k, i, r1, d, r2) && (i.in1 == 1 ==> k == 1 && c.free[0] == 1)
    requires b == State(k + 1, b.st, c.free, [], c.readyq, Vector(r1, By(k, 0), r2), 0) && Shape(b)
    requires b.st == c.st[k := Half(k, Held, [])][3 + k := Fresh(i.kind, true, false, i.addr, 2 * k + 1, NA, k)]
    ensures Begun(b, k, i, r1, r2) && b.st == c.st[k := b.st[k]][3 + k := b.st[3 + k]] && |c.st| == 7 && |c.free| >= 3 && 1 <= k <= 3
    ensures i.kind != Alu && !i.isNop && i.predPC == i.nextPC && i.in2 == i.in3 == NA && b.free == c.free && b.readyq == c.readyq
  {
  }

  lemma MemDispatched(c: Core, k: nat, i: Inst, r1: Creator, d: Creator, r2: Creator)
    requires Follows(c, k, i, r1, d, r2) && (i.in1 == 1 ==> k == 1 && c.free[0] == 1)
    ensures Shape(c) && Shape(AfterMem(c, k, i, r1, r2)) && c.rn < c.R && c.ln < c.L && WellFormed(i)
    ensures DispatchInst(c, i, DispatchEnv(4, true, false)) == Ok(AfterMem(c, k, i, r1, r2))
  {
    hide *;
    FollowsShape(c, k, i, r1, d, r2);
    var b := MemBegins(c, k, i, r1, d, r2);
    BeginsBegun(c, k, i, r1, d, r2, b);
    var f := MemLinked(b, k, i, r1, r2);
    MemQueued(b, f, k, i, r1, r2);
    AfterMemSame(c, b, k, i, r1, r2);
    DispatchInstMem(c, i);
    Mem.DispatchMemIs(c, i);
  }

  lemma SecondDispatch(a: nat)
    ensures Follows(D1(), 1, StoreOf(1, a), By(0, 0), RegFile, RegFile) && AfterMem(D1(), 1, StoreOf(1, a), By(0, 0), RegFile) == D2(a)
  {
    var e := AfterMem(D1(), 1, StoreOf(1, a), By(0, 0), RegFile);
    assert [DataLink()] + [] == [DataLink()];
    assert e.st[0] == D2(a).st[0] && e.st[1] == D2(a).st[1] && e.st[4] == D2(a).st[4];
    assert e.readyq == Links()[..2];
    hide Vector, Clean;
  }

  lemma ThirdDispatch(a: nat)
    ensures Follows(D2(a), 2, StoreOf(NA, a), By(0, 0), By(1, 0), RegFile)
    ensures AfterMem(D2(a), 2, StoreOf(NA, a), By(0, 0), RegFile) == D3(a)
  {
    var e := AfterMem(D2(a), 2, StoreOf(NA, a), By(0, 0), RegFile);
    assert e.st[2] == D3(a).st[2] && e.st[5] == D3(a).st[5];
    assert e.readyq == Links()[..3] by { InsertLast(Links()[..2], Links()[2]); }
    hide Vector, Clean, InsertByX;
  }

  lemma FourthDispatch(a: nat)
    ensures Follows(D3(a), 3, LOAD, By(0, 0), By(2, 0), RegFile) && AfterMem(D3(a), 3, LOAD, By(0, 0), RegFile) == D4(a)
  {
    var e := AfterMem(D3(a), 3, LOAD, By(0, 0), RegFile);
    assert e.st[3] == D4(a).st[3] && e.st[6] == D4(a).st[6];
    assert e.readyq == Links() by { InsertLast(Links()[..3], Links()[3]); }
    hide Vector, Clean, InsertByX;
  }

  lemma {:induction false} InsertLast(q: seq<Link>, n: Link)
    requires forall l :: l in q ==> l.x < n.x
    ensures InsertByX(q, n) == q + [n]
  {
    if q != [] {
      assert q[0] in q;
      InsertLast(q[1..], n);
      assert q == [q[0]] + q[1..];
    }
  }

  // ----- the cycle -----

  const ALL: DispatchEnv := DispatchEnv(4, true, false)

  function Program(a: nat): (p: seq<Inst>)
    ensures forall j :: 0 <= j < |p| ==> WellFormed(p[j])
  {
    [PRODUCE, StoreOf(1, a), StoreOf(NA, a), LOAD]
  }

  lemma DispatchNext(c: Core, insts: seq<Inst>, n: nat, d: Core)
    requires Shape(c) && (forall j :: 0 <= j < |insts| ==> WellFormed(insts[j])) && insts != [] && Shape(d)
    requires n < 4 && c.rn < c.R && c.ln < c.L && !c.specMode && !insts[0].isTrap && !Redirects(insts[0], ALL) && !insts[0].isNop
    requires DispatchInst(c, insts[0], ALL) == Ok(d)
    ensures Dispatch(c, insts, n, ALL) == Dispatch(d, insts[1..], n + 1, ALL)
  {
    hide DispatchInst, Shape;
  }

  lemma DispatchFull(c: Core, insts: seq<Inst>)
    requires Shape(c) && (forall j :: 0 <= j < |insts| ==> WellFormed(insts[j]))
    ensures Dispatch(c, insts, 4, ALL) == Ok(c)
  {
  }

  lemma StraightOn(a: nat)
    ensures var p := Program(a);
      forall j :: 0 <= j < 4 ==> !p[j].isTrap && !Redirects(p[j], ALL) && !p[j].isNop
    ensures var p := Program(a);
      && p[0] == PRODUCE && p[1..][0] == StoreOf(1, a) && p[1..][1..][0] == StoreOf(NA, a) && p[1..][1..][1..] == [LOAD]
      && |p| == 4 && p[1..][0] == p[1] && p[1..][1..][0] == p[2] && [LOAD][0] == p[3]
  {
  }

  lemma StateParts(k: nat, st: seq<Station>, free: seq<nat>, events: seq<Link>, readyq: seq<Link>, cv: seq<Creator>, cycle: nat)
    ensures var c := State(k, st, free, events, readyq, cv, cycle);
      && c.rn == k && c.ln == (if k == 0 then 0 else k - 1) && c.R == 4 && c.L == 3 && !c.specMode && c.cycle == cycle
      && c.st == st && c.readyq == readyq && c.events == events && c.free == free && c.rh == c.lh == 0
  {
  }

  lemma DispatchAll(a: nat)
    ensures var c := Initial(4, 3, 9);
      Shape(c) && Shape(D4(a)) && Dispatch(c, Program(a), 0, ALL) == Ok(D4(a))
  {
    FirstDispatch();
    SecondDispatch(a);
    ThirdDispatch(a);
    FourthDispatch(a);
    MemDispatched(D1(), 1, StoreOf(1, a), By(0, 0), RegFile, RegFile);
    MemDispatched(D2(a), 2, StoreOf(NA, a), By(0, 0), By(1, 0), RegFile);
    MemDispatched(D3(a), 3, LOAD, By(0, 0), By(2, 0), RegFile);
    StraightOn(a);
    DispatchFour(a);
  }

  lemma DispatchFour(a: nat)
    requires var c := Initial(4, 3, 9); Shape(c) && DispatchInst(c, PRODUCE, ALL) == Ok(D1()) && Shape(D1())
    requires DispatchInst(D1(), StoreOf(1, a), ALL) == Ok(D2(a)) && Shape(D2(a))
    requires DispatchInst(D2(a), StoreOf(NA, a), ALL) == Ok(D3(a)) && Shape(D3(a))
    requires DispatchInst(D3(a), LOAD, ALL) == Ok(D4(a)) && Shape(D4(a))
    ensures Dispatch(Initial(4, 3, 9), Program(a), 0, ALL) == Ok(D4(a))
  {
    var p := Program(a);
    StraightOn(a);
    hide DispatchInst, Dispatch, Shape, Clean, Vector, Program, Producer, Half, Memory, Links;
    DispatchNext(Initial(4, 3, 9), p, 0, D1());
    DispatchNext(D1(), p[1..], 1, D2(a));
    DispatchNext(D2(a), p[1..][1..], 2, D3(a));
    DispatchNext(D3(a), [LOAD], 3, D4(a));
    DispatchFull(D4(a), [LOAD][1..]);
  }
}
