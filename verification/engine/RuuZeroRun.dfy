/** A run on which the dependence scan is too careful: a load at address 0 is held back by the mark
    that a hidden store leaves. */
module RuuZeroRun {
  import opened RuuTypes
  import opened RuuSteps
  import opened RuuInvariants
  import opened RuuRefreshStage
  import opened RuuRefreshExact
  import opened RuuCycle
  import opened RuuZeroDispatch

  // ----- single steps in closed form -----

  /** A unit for every operation; the producer takes nine cycles, everything else one. */
  const UNITS: IssueEnv := IssueEnv(4, _ => true, n => if n == 1 then 9 else 1, _ => 1, _ => 0)

  lemma IssueUnit(c: Core, l: Link, n: nat)
    requires Shape(c) && Valid(c, l) && n < 4 && c.free != []
    requires var s := c.st[l.rs]; s.AllReady() && s.queued && !s.issued && !s.completed && !s.inLsq && s.usesUnit
    ensures var s := c.st[l.rs];
      IssueLink(c, l, n, UNITS) == Ok(c.(
        st := c.st[l.rs := s.(queued := false, issued := true)],
        events := InsertByX(c.events, Link(c.free[0], l.rs, s.tag, c.cycle + UNITS.opLat(s.num), s.num)),
        free := [l.id] + c.free[1..]))
  {
    hide InsertByX;
  }

  lemma IssueStore(c: Core, l: Link, n: nat)
    requires Shape(c) && Valid(c, l) && n < 4
    requires var s := c.st[l.rs]; s.AllReady() && s.queued && !s.issued && !s.completed && s.inLsq && s.kind == Store
    requires var s := c.st[l.rs]; s.onames == Duo(NA, NA) && !s.recoverInst
    ensures var s := c.st[l.rs];
      IssueLink(c, l, n, UNITS) == Ok(c.(
        st := c.st[l.rs := s.(queued := false, issued := true, completed := true)], free := [l.id] + c.free))
  {
  }

  /** The memory half after its address has come in: a store with its data is queued. */
  function Woken(s: Station): Station {
    var t := s.(ready := s.ready.Set(1, true));
    if t.AllReady() && t.kind == Store then t.(queued := true) else t
  }

  lemma EnqueueMemory(c: Core, x: nat)
    requires Shape(c) && x < |c.st| && c.st[x].inLsq && !c.st[x].queued && c.free != []
    ensures var s := c.st[x];
      Enqueue(c, x) == Ok(c.(st := c.st[x := s.(queued := true)], free := c.free[1..],
                             readyq := [Link(c.free[0], x, s.tag, s.num, s.num)] + c.readyq))
  {
  }

  lemma WakeMemory(c: Core, x: nat)
    requires Shape(c) && x < |c.st| && c.st[x].inLsq && !c.st[x].ready.b && !c.st[x].queued && c.free != []
    ensures var t := Woken(c.st[x]);
      Satisfy(c, x, 1) == Ok(c.(st := c.st[x := t],
        free := if t.queued then c.free[1..] else c.free,
        readyq := if t.queued then [Link(c.free[0], x, t.tag, t.num, t.num)] + c.readyq else c.readyq))
  {
    var s := c.st[x].(ready := c.st[x].ready.Set(1, true));
    var d := With(c, x, s);
    assert Shape(d);
    EnqueueMemory(d, x);
    hide Enqueue, Shape;
  }

  lemma WakeOnly(c: Core, r: nat, l: Link)
    requires Shape(c) && r < |c.st| && c.free != [] && Valid(c, l) && l.rs != r && l.x == 1 && c.st[r].odeps == Duo([l], [])
    requires var t := c.st[l.rs]; t.inLsq && !t.ready.b && !t.queued
    ensures var t := Woken(c.st[l.rs]);
      WakeAll(c, r, 0) == Ok(c.(
        st := c.st[r := c.st[r].(odeps := Duo([], []))][l.rs := t],
        free := [l.id] + (if t.queued then c.free[1..] else c.free),
        readyq := if t.queued then [Link(c.free[0], l.rs, t.tag, t.num, t.num)] + c.readyq else c.readyq))
  {
    WakeMemory(c, l.rs);
    var d := WakeFirst(c, r, 0).core;
    assert d.st == c.st[r := c.st[r].(odeps := Duo([], []))][l.rs := Woken(c.st[l.rs])];
    WakeNothing(d, r);
    hide Satisfy, Shape, Woken;
  }

  lemma WakeNothing(c: Core, r: nat)
    requires Shape(c) && r < |c.st| && c.st[r].odeps.a == []
    ensures WakeAll(c, r, 0) == Ok(c)
  {
  }

  /** The event of an address half: its memory half is woken, and the record of the chain freed. */
  lemma CompleteHalf(c: Core, r: nat, l: Link)
    requires Shape(c) && r < |c.st| && c.free != [] && Valid(c, l) && l.rs != r && l.x == 1
    requires var s := c.st[r];
      && s.AllReady() && !s.queued && s.issued && !s.completed && !s.recoverInst && !s.specMode
      && s.onames == Duo(DTMP, NA) && s.odeps == Duo([l], [])
    requires var t := c.st[l.rs]; t.inLsq && !t.ready.b && !t.queued
    ensures var t := Woken(c.st[l.rs]);
      Complete(c, r) == Ok(c.(
        st := c.st[r := c.st[r].(completed := true, odeps := Duo([], []))][l.rs := t],
        cv := if c.cv[DTMP] == By(r, 0) then c.cv[DTMP := RegFile] else c.cv,
        free := [l.id] + (if t.queued then c.free[1..] else c.free),
        readyq := if t.queued then [Link(c.free[0], l.rs, t.tag, t.num, t.num)] + c.readyq else c.readyq))
  {
    var c1 := With(c, r, c.st[r].(completed := true));
    var c2 := ClearCreator(c1, r, 0);
    WakeOnly(c2, r, l);
    var d := WakeAll(c2, r, 0).core;
    assert d.st[r].onames == Duo(DTMP, NA);
    hide WakeAll, Shape, Woken;
    assert d.st == c.st[r := c.st[r].(completed := true, odeps := Duo([], []))][l.rs := Woken(c.st[l.rs])];
    assert Broadcast(c1, r, 0) == Ok(d) && Broadcast(d, r, 1) == Ok(d);
  }

  lemma WritebackNext(c: Core, r: nat, d: Core)
    requires Shape(c) && c.events != [] && c.events[0].x <= c.cycle && Valid(c, c.events[0]) && c.events[0].rs == r
    requires var b := c.(events := c.events[1..], free := [c.events[0].id] + c.free);
      Shape(b) && Complete(b, r) == Ok(d) && Shape(d)
    ensures Writeback(c) == Writeback(d)
  {
    hide Complete, Shape;
  }

  // ----- the states of the run -----

  function Chain(j: nat, p: Progress): seq<Link> { if p == Finished then [] else [AddressLink(j)] }

  /** The seven stations: how far the producer, the three address halves and the second store are. */
  function Stations(a: nat, p0: Progress, p1: Progress, p2: Progress, p3: Progress, store: Progress): (st: seq<Station>)
    ensures |st| == 7
  {
    [Producer(p0, [DataLink()]), Half(1, p1, Chain(1, p1)), Half(2, p2, Chain(2, p2)), Half(3, p3, Chain(3, p3)),
     Memory(Store, 1, a, 1, NA, false, p1 == Finished, Held), Memory(Store, 2, a, NA, NA, true, p2 == Finished, store),
     Memory(Load, 3, 0, NA, 2, true, p3 == Finished, Held)]
  }

  /** The engine with the whole program in it. */
  function Full(st: seq<Station>, free: seq<nat>, events: seq<Link>, readyq: seq<Link>, address: Creator, cycle: nat): Core {
    State(4, st, free, events, readyq, Vector(By(0, 0), address, By(6, 0)), cycle)
  }

  lemma FullShape(st: seq<Station>, free: seq<nat>, events: seq<Link>, readyq: seq<Link>, address: Creator, cycle: nat)
    requires |st| == 7 && InRange(Full(st, free, events, readyq, address, cycle), address)
    ensures var c := Full(st, free, events, readyq, address, cycle);
      && Shape(c) && c.rn == 4 && c.ln == 3 && c.R == 4 && c.L == 3 && c.rh == c.lh == 0 && c.specMode == false
      && c.st == st && c.free == free && c.events == events && c.readyq == readyq && c.cycle == cycle
      && c.cv == Vector(By(0, 0), address, By(6, 0)) && c.cv[DTMP] == address
  {
  }

  /** The event of address half `j`, and that of the producer. */
  function Due(id: nat, j: nat): Link { Link(id, j, 0, 2, 2 * j) }
  const LATER: Link := Link(8, 0, 0, 10, 1)

  function J(a: nat, k: nat): Core
    requires k <= 4
  {
    var st := Stations(a, if k > 0 then Running else Queued, if k > 1 then Running else Queued,
                       if k > 2 then Running else Queued, if k > 3 then Running else Queued, Held);
    var events := if k == 0 then [] else if k == 1 then [LATER] else if k == 2 then [Due(0, 1), LATER]
                  else if k == 3 then [Due(3, 2), Due(0, 1), LATER] else [Due(5, 3), Due(3, 2), Due(0, 1), LATER];
    Full(st, [[8, 0, 3, 5, 7][k]], events, [], By(3, 0), 1)
  }

  function W(a: nat, k: nat): Core
    requires k <= 3
  {
    var st := Stations(a, Running, if k > 2 then Finished else Running, if k > 1 then Finished else Running,
                       if k > 0 then Finished else Running, if k > 1 then Queued else Held);
    var events := [Due(5, 3), Due(3, 2), Due(0, 1), LATER][k..];
    var free := if k == 0 then [7] else if k == 1 then [6, 5, 7] else if k == 2 then [4, 6, 5, 7] else [2, 0, 4, 6, 5, 7];
    Full(st, free, events, if k > 1 then [Link(3, 5, 0, 5, 5)] else [], if k == 0 then By(3, 0) else RegFile, 2)
  }

  function End(a: nat, cycle: nat): Core {
    Full(Stations(a, Running, Finished, Finished, Finished, Finished), [3, 2, 0, 4, 6, 5, 7], [LATER], [], RegFile, cycle)
  }

  // ----- the second cycle: issue -----

  lemma HalfIssues(j: nat)
    ensures var s := Half(j, Queued, Chain(j, Queued));
      && s.AllReady() && s.queued && !s.issued && !s.completed && !s.inLsq && s.usesUnit && s.tag == 0 && s.num == 2 * j
      && s.(queued := false, issued := true) == Half(j, Running, Chain(j, Running))
  {
  }

  lemma ProducerIssues()
    ensures var s := Producer(Queued, [DataLink()]);
      && s.AllReady() && s.queued && !s.issued && !s.completed && !s.inLsq && s.usesUnit && s.tag == 0 && s.num == 1
      && s.(queued := false, issued := true) == Producer(Running, [DataLink()])
  {
  }

  /** The stations on both sides of an issue. */
  lemma IssueStations(a: nat, k: nat)
    requires k < 4
    ensures |J(a, k).st| == |J(a, k + 1).st| == 7 && Links()[k].rs == k
    ensures var s := J(a, k).st[k];
      && s.AllReady() && s.queued && !s.issued && !s.completed && !s.inLsq && s.usesUnit && s.tag == 0 == Links()[k].tag
      && s.num == (if k == 0 then 1 else 2 * k)
      && J(a, k + 1).st == J(a, k).st[k := s.(queued := false, issued := true)]
  {
    ProducerIssues();
    HalfIssues(1);
    HalfIssues(2);
    HalfIssues(3);
    hide Vector, Clean, Half, Memory, Producer, Chain;
    var c, d := J(a, k), J(a, k + 1);
    if k == 0 {
      assert d.st == c.st[0 := d.st[0]];
    } else if k == 1 {
      assert d.st == c.st[1 := d.st[1]];
    } else if k == 2 {
      assert d.st == c.st[2 := d.st[2]];
    } else {
      assert d.st == c.st[3 := d.st[3]];
    }
  }

  lemma IssueLists(a: nat, k: nat)
    requires k < 4
    ensures var c, d := J(a, k), J(a, k + 1);
      && c == Full(c.st, c.free, c.events, [], By(3, 0), 1) && d == Full(d.st, d.free, d.events, [], By(3, 0), 1)
      && c.free != [] && d.free == [Links()[k].id] + c.free[1..]
      && d.events == InsertByX(c.events, Link(c.free[0], k, 0, if k == 0 then 10 else 2, if k == 0 then 1 else 2 * k))
  {
    hide Stations, Vector, Clean;
  }

  lemma IssueStep(a: nat, k: nat)
    requires k < 4
    ensures Shape(J(a, k)) && Shape(J(a, k + 1)) && Valid(J(a, k), Links()[k]) && GetsUnit(J(a, k).st[Links()[k].rs], UNITS)
    ensures IssueLink(J(a, k), Links()[k], k, UNITS) == Ok(J(a, k + 1))
  {
    IssueStations(a, k);
    IssueLists(a, k);
    hide J, Links, InsertByX;
    var c, d := J(a, k), J(a, k + 1);
    FullShape(c.st, c.free, c.events, [], By(3, 0), 1);
    FullShape(d.st, d.free, d.events, [], By(3, 0), 1);
    IssueUnit(c, Links()[k], k);
    hide IssueLink, Shape, Vector, Clean;
  }

  lemma IssueNext(c: Core, pend: seq<Link>, n: nat, d: Core)
    requires Shape(c) && Shape(d) && pend != [] && n < 4 && Valid(c, pend[0]) && GetsUnit(c.st[pend[0].rs], UNITS)
    requires IssueLink(c, pend[0], n, UNITS) == Ok(d)
    ensures Issue(c, pend, n, UNITS) == Issue(d, pend[1..], n + 1, UNITS)
  {
    hide IssueLink, Shape;
  }

  lemma {:induction false} IssueFrom(a: nat, k: nat)
    requires k <= 4
    ensures Shape(J(a, k)) && Issue(J(a, k), Links()[k..], k, UNITS) == Ok(J(a, 4))
    decreases 4 - k
  {
    if k < 4 {
      IssueStep(a, k);
      IssueFrom(a, k + 1);
      assert Links()[k..][0] == Links()[k] && Links()[k..][1..] == Links()[k + 1..];
      hide J, IssueLink, Issue, Shape, Links, GetsUnit;
      IssueNext(J(a, k), Links()[k..], k, J(a, k + 1));
    } else {
      var c := J(a, 4);
      FullShape(c.st, c.free, c.events, [], By(3, 0), 1);
    }
  }

  // ----- the third cycle: the addresses come in -----

  lemma WState(a: nat, k: nat)
    requires k <= 3
    ensures Shape(W(a, k)) && |W(a, k).st| == 7 && W(a, k).cycle == 2 && !W(a, k).specMode
    ensures W(a, k).cv[DTMP] == (if k == 0 then By(3, 0) else RegFile)
  {
    var c := W(a, k);
    FullShape(c.st, c.free, c.events, c.readyq, if k == 0 then By(3, 0) else RegFile, 2);
  }

  /** The state in which the event at the front is served. */
  function Served(c: Core): Core
    requires c.events != []
  {
    c.(events := c.events[1..], free := [c.events[0].id] + c.free)
  }

  lemma HalfRuns(j: nat)
    ensures var s := Half(j, Running, Chain(j, Running));
      && s.AllReady() && !s.queued && s.issued && !s.completed && !s.recoverInst && !s.specMode && s.tag == 0
      && s.onames == Duo(DTMP, NA) && s.odeps == Duo([AddressLink(j)], [])
      && s.(completed := true, odeps := Duo([], [])) == Half(j, Finished, Chain(j, Finished))
  {
  }

  lemma MemoryWakes(a: nat)
    ensures Woken(Memory(Store, 1, a, 1, NA, false, false, Held)) == Memory(Store, 1, a, 1, NA, false, true, Held)
    ensures Woken(Memory(Store, 2, a, NA, NA, true, false, Held)) == Memory(Store, 2, a, NA, NA, true, true, Queued)
    ensures Woken(Memory(Load, 3, 0, NA, 2, true, false, Held)) == Memory(Load, 3, 0, NA, 2, true, true, Held)
  {
  }

  lemma MemoryWaits(kind: Kind, j: nat, a: nat, source: Reg, out: Reg, data: bool)
    ensures var t := Memory(kind, j, a, source, out, data, false, Held);
      t.inLsq && !t.ready.b && !t.queued && t.tag == 0 && t.num == 2 * j + 1 && t.kind == kind
    ensures var t := Memory(kind, j, a, source, out, data, false, Held);
      (Woken(t).queued <==> data && kind == Store) && Woken(t).tag == 0 && Woken(t).num == 2 * j + 1
  {
  }

  /** The stations on both sides of a step: one address half done, its memory half woken. */
  lemma WakeStations(a: nat, k: nat)
    requires k < 3
    ensures |W(a, k).st| == |W(a, k + 1).st| == 7
    ensures var c, d, r := W(a, k), W(a, k + 1), 3 - k;
      var s, t := c.st[r], c.st[3 + r];
      && s.AllReady() && !s.queued && s.issued && !s.completed && !s.recoverInst && !s.specMode && s.tag == 0
      && s.onames == Duo(DTMP, NA) && s.odeps == Duo([AddressLink(r)], [])
      && t.inLsq && !t.ready.b && !t.queued && t.tag == 0
      && d.st == c.st[r := s.(completed := true, odeps := Duo([], []))][3 + r := Woken(t)]
      && (Woken(t).queued <==> k == 1) && Woken(t).tag == 0 && Woken(t).num == 2 * r + 1
  {
    HalfRuns(1);
    HalfRuns(2);
    HalfRuns(3);
    MemoryWakes(a);
    MemoryWaits(Store, 1, a, 1, NA, false);
    MemoryWaits(Store, 2, a, NA, NA, true);
    MemoryWaits(Load, 3, 0, NA, 2, true);
    hide Vector, Clean, Half, Memory, Producer, Woken, Chain, AddressLink;
    var c, d := W(a, k), W(a, k + 1);
    if k == 0 {
      assert d.st == c.st[3 := d.st[3]][6 := d.st[6]];
    } else if k == 1 {
      assert d.st == c.st[2 := d.st[2]][5 := d.st[5]];
    } else {
      assert d.st == c.st[1 := d.st[1]][4 := d.st[4]];
    }
  }

  lemma WakeLists(a: nat, k: nat)
    requires k < 3
    ensures var c, d, r := W(a, k), W(a, k + 1), 3 - k;
      && c.events == [Due([5, 3, 0][k], r)] + d.events && d == Full(d.st, d.free, d.events, d.readyq, RegFile, 2)
      && c == Full(c.st, c.free, c.events, c.readyq, if k == 0 then By(3, 0) else RegFile, 2)
      && c.free != []
      && var free := [[5, 3, 0][k]] + c.free;
         && d.free == [2 * r] + (if k == 1 then free[1..] else free)
         && d.readyq == if k == 1 then [Link(free[0], 3 + r, 0, 2 * r + 1, 2 * r + 1)] + c.readyq else c.readyq
  {
    hide Stations, Vector, Clean;
  }

  lemma WakeStep(a: nat, k: nat)
    requires k < 3
    ensures Shape(W(a, k)) && Shape(W(a, k + 1)) && W(a, k).events != [] && Shape(Served(W(a, k)))
    ensures W(a, k).events[0].rs == 3 - k && Valid(W(a, k), W(a, k).events[0]) && W(a, k).events[0].x == 2 == W(a, k).cycle
    ensures Complete(Served(W(a, k)), 3 - k) == Ok(W(a, k + 1))
  {
    WState(a, k);
    WState(a, k + 1);
    WakeStations(a, k);
    WakeLists(a, k);
    hide W, Stations, Complete, Woken;
    var c, d, r := W(a, k), W(a, k + 1), 3 - k;
    assert c.events[1..] == d.events;
    CompleteHalf(Served(c), r, AddressLink(r));
    VectorSet(By(0, 0), By(3, 0), By(6, 0), RegFile);
    hide Shape, Vector, Clean;
  }

  lemma WritebackEnds(c: Core)
    requires Shape(c) && (c.events == [] || c.events[0].x > c.cycle)
    ensures Writeback(c) == Ok(c)
  {
  }

  lemma {:induction false} WritebackFrom(a: nat, k: nat)
    requires k <= 3
    ensures Shape(W(a, k)) && Writeback(W(a, k)) == Ok(W(a, 3))
    decreases 3 - k
  {
    if k < 3 {
      WakeStep(a, k);
      WritebackFrom(a, k + 1);
      hide W, Complete, Writeback, Shape;
      WritebackNext(W(a, k), 3 - k, W(a, k + 1));
    } else {
      WState(a, 3);
      WritebackEnds(W(a, 3));
    }
  }

  // ----- the scan of the third cycle -----

  lemma EndStations(a: nat, q: Progress)
    ensures var st := Stations(a, Running, Finished, Finished, Finished, q);
      && st[0].AllReady() && !st[0].completed
      && st[4].kind == st[5].kind == Store && st[6].kind == Load && st[4].addr == st[5].addr == a && st[6].addr == 0
      && st[4].num == 3 && st[5].num == 5 && st[6].num == 7 && st[4].ready == Tri(false, true, true) && st[5].AllReady()
      && LoadWaits(st[6]) && !LoadWaits(st[4]) && !LoadWaits(st[5])
    ensures var s := Stations(a, Running, Finished, Finished, Finished, Queued)[5];
      && s.queued && !s.issued && !s.completed && s.inLsq && s.onames == Duo(NA, NA) && !s.recoverInst && s.tag == 0
      && Stations(a, Running, Finished, Finished, Finished, Finished)[5] == s.(queued := false, issued := true, completed := true)
  {
  }

  lemma RefreshPast(c: Core, unknown: seq<nat>)
    requires Shape(c)
    ensures Refresh(c, c.ln, unknown) == Ok(c)
  {
  }

  /** Neither store is new to the scan, and the load meets the mark of the hidden one. */
  lemma ScanHolds(a: nat)
    ensures Shape(W(a, 3)) && Refresh(W(a, 3), 0, []) == Ok(W(a, 3))
  {
    WState(a, 3);
    EndStations(a, Queued);
    var c := W(a, 3);
    assert c.ln == 3 && LsqSlot(c, 0) == 4 && LsqSlot(c, 1) == 5 && LsqSlot(c, 2) == 6;
    hide W, Stations, Refresh, Shape;
    assert [] + [a] == [a];
    assert Hide([a], a) == [0];
    RefreshUnfold(c, 0, []);
    assert Seen([], c.st[4]) == [a];
    RefreshUnfold(c, 1, [a]);
    assert Seen([a], c.st[5]) == [0];
    RefreshUnfold(c, 2, [0]);
    assert Seen([0], c.st[6]) == [0];
    RefreshPast(c, [0]);
  }

  lemma StoreIssues(a: nat)
    ensures Shape(W(a, 3).(readyq := [])) && Shape(End(a, 2))
    ensures Issue(W(a, 3).(readyq := []), W(a, 3).readyq, 0, UNITS) == Ok(End(a, 2))
  {
    WState(a, 3);
    EndStations(a, Queued);
    var c, d := W(a, 3).(readyq := []), End(a, 2);
    FullShape(d.st, d.free, d.events, [], RegFile, 2);
    assert d.st == c.st[5 := d.st[5]] by { hide Vector, Clean, Half, Memory, Producer; }
    var l := Link(3, 5, 0, 5, 5);
    assert W(a, 3).readyq == [l] && c.free == [2, 0, 4, 6, 5, 7];
    IssueStore(c, l, 0);
    hide Stations, Shape, Vector, Clean, IssueLink;
    IssueNext(c, [l], 0, d);
    assert Issue(d, [], 1, UNITS) == Ok(d);
  }

  // ----- the run -----

  const IDLE_PORT: nat -> bool := _ => false

  function ZeroInputs(a: nat): (inputs: seq<Inputs>) {
    [Inputs(4, IDLE_PORT, UNITS, Program(a), ALL), Inputs(4, IDLE_PORT, UNITS, [], ALL), Inputs(4, IDLE_PORT, UNITS, [], ALL)]
  }

  lemma CommitStalls(c: Core)
    requires Shape(c) && (c.rn > 0 ==> !c.st[c.rh].completed)
    ensures Commit(c, 4, IDLE_PORT) == Ok(c)
  {
  }

  /** A cycle in which nothing retires, from its other stages. */
  lemma CycleFrom(c: Core, inp: Inputs, c2: Core, c3: Core, c4: Core)
    requires Shape(c) && Shape(c2) && Shape(c3) && Shape(c4) && Shape(c2.(readyq := [])) && c.ln <= c.rn && WellFormedInputs(inp)
    requires inp.commitWidth == 4 && inp.port == IDLE_PORT && (c.rn > 0 ==> !c.st[c.rh].completed)
    requires Writeback(c) == Ok(c2) && Refresh(c2, 0, []) == Ok(c2)
    requires Issue(c2.(readyq := []), c2.readyq, 0, inp.issue) == Ok(c3) && Dispatch(c3, inp.insts, 0, inp.dispatch) == Ok(c4)
    ensures Cycle(c, inp) == Ok(RuuCycle.Tick(c4))
  {
    hide *;
    CommitStalls(c);
    WellFormedInsts(inp);
    CycleIs(c, inp);
    RestIs(c, inp);
  }

  lemma WellFormedInsts(inp: Inputs)
    requires WellFormedInputs(inp)
    ensures forall j :: 0 <= j < |inp.insts| ==> WellFormed(inp.insts[j])
  {
  }

  lemma DispatchNothing(c: Core)
    requires Shape(c)
    ensures Dispatch(c, [], 0, ALL) == Ok(c)
  {
  }

  lemma InputsOk(a: nat)
    ensures var z := ZeroInputs(a);
      |z| == 3 && forall t :: 0 <= t < 3 ==> WellFormedInputs(z[t]) && z[t].commitWidth == 4 && z[t].port == IDLE_PORT && z[t].issue == UNITS && z[t].dispatch == ALL
  {
  }

  lemma RefreshStops(c: Core)
    requires Shape(c) && (c.ln == 0 || (StoreAt(c, 0) && !c.st[LsqSlot(c, 0)].ready.b))
    ensures Refresh(c, 0, []) == Ok(c)
  {
  }

  lemma NothingIssues(c: Core)
    requires Shape(c)
    ensures Issue(c, [], 0, UNITS) == Ok(c)
  {
  }

  function C1(a: nat): Core { Full(Stations(a, Queued, Queued, Queued, Queued, Held), [8], [], Links(), By(3, 0), 1) }

  lemma FirstCycle(a: nat)
    ensures Shape(Initial(4, 3, 9)) && Shape(C1(a)) && WellFormedInputs(ZeroInputs(a)[0]) && Cycle(Initial(4, 3, 9), ZeroInputs(a)[0]) == Ok(C1(a))
  {
    InputsOk(a);
    DispatchAll(a);
    var c := Initial(4, 3, 9);
    var d := C1(a);
    FullShape(d.st, d.free, d.events, d.readyq, By(3, 0), 1);
    assert RuuCycle.Tick(D4(a)) == d by { hide Vector, Clean, Half, Memory, Producer; }
    assert c.rn == 0 && c.ln == 0 && c.events == [] && c.readyq == [] && c.(readyq := []) == c;
    hide Initial, D4, Shape, Dispatch, ZeroInputs;
    WritebackEnds(c);
    RefreshStops(c);
    NothingIssues(c);
    assert ZeroInputs(a)[0].insts == Program(a) by { FirstInputs(a); }
    CycleFrom(c, ZeroInputs(a)[0], c, c, D4(a));
  }

  lemma FirstInputs(a: nat)
    ensures |ZeroInputs(a)| == 3 && ZeroInputs(a)[0].insts == Program(a) && ZeroInputs(a)[1].insts == ZeroInputs(a)[2].insts == []
  {
  }

  lemma C1Facts(a: nat)
    ensures var c := C1(a);
      && Shape(c) && c.rn == 4 && c.ln == 3 && c.rh == 0 && c.events == [] && c.readyq == Links()[0..]
      && |c.st| == 7 && !c.st[0].completed && c.(readyq := []) == J(a, 0) && LsqSlot(c, 0) == 4 && StoreAt(c, 0) && !c.st[4].ready.b
  {
    var c := C1(a);
    FullShape(c.st, c.free, c.events, c.readyq, By(3, 0), 1);
    assert Links()[0..] == Links();
    hide Vector, Clean;
  }

  lemma TickIssued(a: nat)
    ensures Shape(J(a, 4)) && RuuCycle.Tick(J(a, 4)) == W(a, 0)
  {
    var d := J(a, 4);
    FullShape(d.st, d.free, d.events, [], By(3, 0), 1);
    hide Vector, Clean, Half, Memory, Producer;
  }

  lemma SecondCycle(a: nat)
    ensures Shape(C1(a)) && Shape(W(a, 0)) && WellFormedInputs(ZeroInputs(a)[1]) && Cycle(C1(a), ZeroInputs(a)[1]) == Ok(W(a, 0))
  {
    InputsOk(a);
    FirstInputs(a);
    hide *;
    C1Facts(a);
    TickIssued(a);
    IssueFrom(a, 0);
    WState(a, 0);
    WritebackEnds(C1(a));
    RefreshStops(C1(a));
    DispatchNothing(J(a, 4));
    CycleFrom(C1(a), ZeroInputs(a)[1], C1(a), J(a, 4), J(a, 4));
  }

  lemma ThirdCycle(a: nat)
    ensures Shape(W(a, 0)) && Shape(End(a, 3)) && WellFormedInputs(ZeroInputs(a)[2]) && Cycle(W(a, 0), ZeroInputs(a)[2]) == Ok(End(a, 3))
  {
    InputsOk(a);
    FirstInputs(a);
    WState(a, 0);
    WState(a, 3);
    WritebackFrom(a, 0);
    ScanHolds(a);
    StoreIssues(a);
    var c, d := W(a, 0), End(a, 2);
    var e := End(a, 3);
    FullShape(c.st, c.free, c.events, c.readyq, By(3, 0), 2);
    FullShape(e.st, e.free, e.events, [], RegFile, 3);
    assert RuuCycle.Tick(d) == e by { hide Vector, Clean, Half, Memory, Producer; }
    assert !c.st[0].completed;
    hide W, End, Shape, Issue, Writeback, Refresh, ZeroInputs, Stations;
    DispatchNothing(d);
    CycleFrom(c, ZeroInputs(a)[2], W(a, 3), d, d);
  }

  lemma ZeroRun(a: nat)
    ensures WellFormedRun(ZeroInputs(a)) && Shape(Initial(4, 3, 9)) && Run(Initial(4, 3, 9), ZeroInputs(a)) == Ok(End(a, 3))
  {
    FirstCycle(a);
    SecondCycle(a);
    ThirdCycle(a);
    FirstInputs(a);
    InputsOk(a);
    var z := ZeroInputs(a);
    assert z[1..][0] == z[1] && z[1..][1..][0] == z[2] && z[1..][1..][1..] == [];
    hide Cycle, Shape, Initial, End, W, C1, ZeroInputs, WellFormedInputs;
    RunNext(Initial(4, 3, 9), z, C1(a));
    RunNext(C1(a), z[1..], W(a, 0));
    RunNext(W(a, 0), z[1..][1..], End(a, 3));
  }

  lemma RunNext(c: Core, inputs: seq<Inputs>, d: Core)
    requires Shape(c) && Shape(d) && inputs != [] && WellFormedRun(inputs) && Cycle(c, inputs[0]) == Ok(d)
    ensures WellFormedRun(inputs[1..]) && Run(c, inputs) == Run(d, inputs[1..])
    ensures inputs[1..] == [] ==> Run(c, inputs) == Ok(d)
  {
    hide Cycle, Shape, WellFormedInputs;
  }

  /** In the state the run ends in, the load waits, nothing threatens it, and the hidden store clouds it. */
  lemma EndHolds(a: nat)
    ensures var c := End(a, 3);
      && |c.st| == 7 == c.R + c.L && Shape(c) && Live(c, 6) && LoadWaits(c.st[6]) && c.st[6].addr == 0 && LoadSafe(c, 6) && Clouded(c, 6)
  {
    var c := End(a, 3);
    FullShape(c.st, c.free, c.events, [], RegFile, 3);
    EndStations(a, Finished);
    hide Stations, End, Vector, Clean;
    assert Live(c, 4) && Live(c, 5) && Live(c, 6);
    assert IsOlderStore(c, 6, 4) && IsOlderStore(c, 6, 5);
    assert HiddenBy(c, 6, 4);
    forall z: nat | IsOlderStore(c, 6, z) ensures z == 4 || z == 5 { }
    forall z: nat | YoungestOlderStore(c, 6, z) ensures c.st[z].AllReady() { }
  }

  /** The run: a store to `a` whose value a long operation produces, a store to `a` that has its
      value, and a load at address 0. It ends with the load waiting although no older store can change
      what it reads, and the next scan does not queue it either. */
  lemma ZeroHeldBack(a: nat) returns (c: Core)
    ensures WellFormedRun(ZeroInputs(a)) && Shape(Initial(4, 3, 9)) && Run(Initial(4, 3, 9), ZeroInputs(a)) == Ok(c)
    ensures Inv(c, 9) && Shape(c) && |c.st| == 7 == c.R + c.L
    ensures Live(c, 6) && LoadWaits(c.st[6]) && c.st[6].addr == 0 && LoadSafe(c, 6) && Clouded(c, 6)
    ensures forall b: Core :: Refresh(c, 0, []) == Ok(b) ==> |b.st| == 7 && !b.st[6].queued
  {
    hide *;
    c := End(a, 3);
    ZeroRun(a);
    EndHolds(a);
    RunFromPowerOn(4, 3, 9, ZeroInputs(a));
    CycleParts(Ok(c), Log(Initial(4, 3, 9), ZeroInputs(a)), 3, 0, 9);
    forall b: Core | Refresh(c, 0, []) == Ok(b) ensures |b.st| == 7 && !b.st[6].queued {
      RefreshExact(c, b, 6, 9);
    }
  }
}
