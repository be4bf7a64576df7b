/** Memory dependences: a load is queued only when no older store can still change its value. */
module RuuRefreshStage {
  import opened RuuTypes
  import opened RuuSteps
  import opened RuuInvariants
  import opened RuuFrame
  import opened RuuQueueProof
  import Events = RuuEventProof

  function LsqSlot(c: Core, i: nat): int { c.R + At(c.lh, c.L, i) }

  /** The LSQ entry at position `j` is a store. */
  ghost predicate StoreAt(c: Core, j: nat)
    requires Shape(c)
  {
    j < c.ln && c.st[LsqSlot(c, j)].kind == Store
  }

  /** What the scan knows after the first `i` entries: every store so far has its address, and
      an address whose youngest store lacks its value is on the list. */
  ghost predicate Scanned(c: Core, i: nat, unknown: seq<nat>)
    requires Shape(c)
  {
    && i <= c.ln
    && (forall j: nat :: j < i && StoreAt(c, j) ==> c.st[LsqSlot(c, j)].ready.b)
    && (forall j: nat :: j < i && StoreAt(c, j) && !c.st[LsqSlot(c, j)].AllReady()
          && (forall k: nat :: j < k < i && StoreAt(c, k) ==> c.st[LsqSlot(c, k)].addr != c.st[LsqSlot(c, j)].addr)
          ==> c.st[LsqSlot(c, j)].addr in unknown)
  }

  lemma HideFacts(u: seq<nat>, a: nat, b: nat)
    requires b in u && b != a
    ensures b in Hide(u, a)
  {
    var j :| 0 <= j < |u| && u[j] == b;
    assert Hide(u, a)[j] == b;
  }

  /** The list after the entry at position `i`. */
  function Seen(unknown: seq<nat>, s: Station): seq<nat> {
    if s.kind != Store then unknown
    else if !s.AllReady() then unknown + [s.addr] else Hide(unknown, s.addr)
  }

  lemma ScanStep(c: Core, i: nat, unknown: seq<nat>)
    requires Shape(c) && i < c.ln && Scanned(c, i, unknown)
    requires StoreAt(c, i) ==> c.st[LsqSlot(c, i)].ready.b
    ensures Scanned(c, i + 1, Seen(unknown, c.st[LsqSlot(c, i)]))
  {
    var s := c.st[LsqSlot(c, i)];
    var u := Seen(unknown, s);
    forall j: nat | j < i + 1 && StoreAt(c, j) && !c.st[LsqSlot(c, j)].AllReady()
        && (forall k: nat :: j < k < i + 1 && StoreAt(c, k) ==> c.st[LsqSlot(c, k)].addr != c.st[LsqSlot(c, j)].addr)
      ensures c.st[LsqSlot(c, j)].addr in u
    {
      if j < i {
        var a := c.st[LsqSlot(c, j)].addr;
        assert a in unknown;
        if StoreAt(c, i) {
          assert s.addr != a;
          if s.AllReady() {
            HideFacts(unknown, s.addr, a);
          }
        }
      }
    }
  }

  /** LSQ positions follow program order. */
  lemma PositionOrder(c: Core, i: nat, z: nat)
    requires Shape(c) && Order(c) && i < c.ln && Live(c, z) && z >= c.R
    requires c.st[z].num < c.st[LsqSlot(c, i)].num
    ensures var j := Pos(c.lh, c.L, z - c.R); 0 <= j < i && LsqSlot(c, j) == z
  {
    var x := LsqSlot(c, i);
    var j := Pos(c.lh, c.L, z - c.R);
    assert Live(c, x);
    assert j > i ==> LsqBefore(c, x, z);
  }

  lemma PositionOlder(c: Core, j: nat, i: nat)
    requires Shape(c) && Order(c) && j < i < c.ln
    ensures Live(c, LsqSlot(c, j)) && Live(c, LsqSlot(c, i)) && c.st[LsqSlot(c, j)].num < c.st[LsqSlot(c, i)].num
  {
    assert LsqBefore(c, LsqSlot(c, j), LsqSlot(c, i));
  }

  lemma NoneYounger(c: Core, x: nat, z: nat, w: nat)
    requires |c.st| == c.R + c.L && YoungestOlderStore(c, x, z) && IsOlderStore(c, x, w) && c.st[w].num > c.st[z].num
    ensures c.st[w].addr != c.st[z].addr
  {
  }

  /** A load whose address is not on the list has nothing older left to wait for. */
  lemma ScannedSafe(c: Core, i: nat, unknown: seq<nat>)
    requires Shape(c) && Order(c) && i < c.ln && Scanned(c, i, unknown) && c.st[LsqSlot(c, i)].kind == Load
    requires c.st[LsqSlot(c, i)].addr !in unknown
    ensures LoadSafe(c, LsqSlot(c, i))
  {
    var x := LsqSlot(c, i);
    forall z: nat | IsOlderStore(c, x, z) ensures c.st[z].ready.b {
      PositionOrder(c, i, z);
      assert StoreAt(c, Pos(c.lh, c.L, z - c.R));
    }
    forall z: nat | YoungestOlderStore(c, x, z) ensures c.st[z].AllReady() {
      PositionOrder(c, i, z);
      var j := Pos(c.lh, c.L, z - c.R);
      assert StoreAt(c, j);
      forall k: nat | j < k < i && StoreAt(c, k) ensures c.st[LsqSlot(c, k)].addr != c.st[z].addr {
        PositionOlder(c, j, k);
        PositionOlder(c, k, i);
        NoneYounger(c, x, z, LsqSlot(c, k));
      }
    }
  }

  lemma EnqueueScanned(c: Core, y: nat, i: nat, unknown: seq<nat>, b: Core)
    requires Shape(c) && Shape(b) && y < |c.st| && Enqueued(c, y, b) && Scanned(c, i, unknown)
    ensures Scanned(b, i, unknown)
  {
    hide Keys, Ids;
    assert forall j: nat :: j < c.ln ==> LsqSlot(b, j) == LsqSlot(c, j);
    assert forall j: nat :: StoreAt(b, j) <==> StoreAt(c, j);
    assert forall z: nat :: z < |c.st| ==> b.st[z].ready == c.st[z].ready && b.st[z].addr == c.st[z].addr;
  }

  ghost predicate RefreshGood(o: Outcome, events: seq<Link>, cycle: nat, pool: nat) {
    match o
    case Ok(b) => Inv(b, pool) && b.events == events && b.cycle == cycle
    case Stop(why) => why == OutOfLinks || why == StdUnknownOverflow
  }

  /** A waiting load found safe may be queued. */
  lemma LoadMayQueue(c: Core, i: nat, unknown: seq<nat>, pool: nat)
    requires Inv(c, pool) && Shape(c) && i < c.ln && Scanned(c, i, unknown)
    requires LoadWaits(c.st[LsqSlot(c, i)]) && c.st[LsqSlot(c, i)].addr !in unknown
    ensures Sound(c, IDLE, pool) && SpecVector(c, -1) && MayQueue(c, LsqSlot(c, i)) && !c.st[LsqSlot(c, i)].queued
  {
    Events.IdleSplit(c, pool);
    hide Inv, Sound, SpecVector;
    ScannedSafe(c, i, unknown);
    assert Live(c, LsqSlot(c, i));
    assert StatusOk(c, c.st[LsqSlot(c, i)], LsqSlot(c, i), {});
  }

  lemma QueueLoad(c: Core, i: nat, unknown: seq<nat>, next: seq<nat>, pool: nat)
    requires Inv(c, pool) && Shape(c) && i < c.ln && Scanned(c, i, unknown) && Scanned(c, i + 1, next)
    requires LoadWaits(c.st[LsqSlot(c, i)]) && c.st[LsqSlot(c, i)].addr !in unknown
    ensures match Enqueue(c, LsqSlot(c, i))
            case Ok(b) => Inv(b, pool) && Shape(b) && b.ln == c.ln && Scanned(b, i + 1, next)
                          && b.events == c.events && b.cycle == c.cycle
            case Stop(why) => why == OutOfLinks
  {
    SlotInRange(c, i);
    hide *;
    var y := LsqSlot(c, i);
    LoadMayQueue(c, i, unknown, pool);
    IdleFlight(y);
    EnqueueKeeps(c, y, IDLE, pool);
    if Enqueue(c, y).Ok? {
      LoadQueued(c, y, i + 1, next, Enqueue(c, y).core);
      IdleInv(Enqueue(c, y).core, pool);
    }
  }

  lemma SlotInRange(c: Core, i: nat)
    requires Shape(c) && i < c.ln
    ensures c.R <= LsqSlot(c, i) < |c.st|
  {
  }

  lemma LoadQueued(c: Core, y: nat, i: nat, next: seq<nat>, b: Core)
    requires Shape(c) && y < |c.st| && !c.st[y].queued && Enqueue(c, y) == Ok(b) && Scanned(c, i, next)
    ensures Shape(b) && b.ln == c.ln && b.events == c.events && b.cycle == c.cycle && Scanned(b, i, next)
  {
    EnqueueResult(c, y);
    EnqueueScanned(c, y, i, next, b);
    hide Scanned;
  }

  lemma IdleFlight(y: nat)
    ensures IDLE.(w := IDLE.w - {y}) == IDLE && IDLE.d == -1
  {
  }

  lemma IdleInv(c: Core, pool: nat)
    requires Sound(c, IDLE, pool) && Shape(c) && |c.st| == c.R + c.L && SpecVector(c, -1)
    ensures Inv(c, pool)
  {
  }

  /** The scan goes on past position `i`. */
  predicate GoesOn(c: Core, i: nat, unknown: seq<nat>)
    requires Shape(c)
  {
    i < c.ln &&
    var s := c.st[LsqSlot(c, i)];
    s.kind == Store ==> s.ready.b && (s.AllReady() || |unknown| != MAX_STD_UNKNOWNS)
  }

  predicate QueuesLoad(c: Core, i: nat, unknown: seq<nat>)
    requires Shape(c) && i < c.ln
  {
    var s := c.st[LsqSlot(c, i)];
    LoadWaits(s) && s.addr !in Seen(unknown, s)
  }

  lemma RefreshUnfold(c: Core, i: nat, unknown: seq<nat>)
    requires Shape(c)
    ensures !GoesOn(c, i, unknown) ==> Refresh(c, i, unknown) == Ok(c) || Refresh(c, i, unknown) == Stop(StdUnknownOverflow)
    ensures GoesOn(c, i, unknown) ==>
              var y := LsqSlot(c, i);
              var u := Seen(unknown, c.st[y]);
              Refresh(c, i, unknown) ==
                if QueuesLoad(c, i, unknown) then
                  var e := Enqueue(c, y);
                  if e.Ok? then Refresh(e.core, i + 1, u) else e
                else Refresh(c, i + 1, u)
  {
  }

  lemma RefreshEnds(c: Core, i: nat, unknown: seq<nat>, pool: nat)
    requires Inv(c, pool) && Shape(c) && !GoesOn(c, i, unknown)
    ensures RefreshGood(Refresh(c, i, unknown), c.events, c.cycle, pool)
  {
    RefreshUnfold(c, i, unknown);
    hide Inv, Refresh, Shape;
  }

  /** One step of the scan: an unsafe or idle entry is passed over, a safe load is queued. */
  lemma RefreshStep(c: Core, i: nat, unknown: seq<nat>, pool: nat) returns (b: Core, u: seq<nat>)
    requires Inv(c, pool) && Shape(c) && Scanned(c, i, unknown) && GoesOn(c, i, unknown)
    ensures Inv(b, pool) && Shape(b) && Scanned(b, i + 1, u) && b.ln == c.ln && b.events == c.events && b.cycle == c.cycle
    ensures Refresh(c, i, unknown) == Stop(OutOfLinks) || Refresh(c, i, unknown) == Refresh(b, i + 1, u)
    ensures i < c.ln
  {
    RefreshUnfold(c, i, unknown);
    ScanStep(c, i, unknown);
    var y := LsqSlot(c, i);
    u := Seen(unknown, c.st[y]);
    b := c;
    if QueuesLoad(c, i, unknown) {
      assert u == unknown;
      QueueLoad(c, i, unknown, u, pool);
      var e := Enqueue(c, y);
      if e.Ok? {
        b := e.core;
      }
    }
    hide *;
  }

  lemma {:induction false} RefreshKeeps(c: Core, i: nat, unknown: seq<nat>, pool: nat)
    requires Inv(c, pool) && Shape(c) && Scanned(c, i, unknown)
    ensures RefreshGood(Refresh(c, i, unknown), c.events, c.cycle, pool)
    decreases c.ln - i
  {
    hide *;
    if GoesOn(c, i, unknown) {
      var b, u := RefreshStep(c, i, unknown, pool);
      RefreshKeeps(b, i + 1, u, pool);
      GoodStop(Refresh(c, i, unknown), c.events, c.cycle, pool);
    } else {
      RefreshEnds(c, i, unknown, pool);
    }
  }

  lemma GoodStop(e: Outcome, events: seq<Link>, cycle: nat, pool: nat)
    ensures e == Stop(OutOfLinks) ==> RefreshGood(e, events, cycle, pool)
  {
  }

  lemma FitsStep(c: Core, i: nat, unknown: seq<nat>) returns (b: Core, u: seq<nat>)
    requires Shape(c) && GoesOn(c, i, unknown)
    ensures Shape(b) && b.ln == c.ln && b.L == c.L && |u| <= |unknown| + 1 && i < c.ln
    ensures Refresh(c, i, unknown) == Stop(OutOfLinks) || Refresh(c, i, unknown) == Refresh(b, i + 1, u)
  {
    SlotInRange(c, i);
    RefreshUnfold(c, i, unknown);
    var y := LsqSlot(c, i);
    u := Seen(unknown, c.st[y]);
    if QueuesLoad(c, i, unknown) { LoadOnly(c, y); }
    hide Refresh, Shape, Enqueue;
    b := if QueuesLoad(c, i, unknown) && Enqueue(c, y).Ok? then Enqueue(c, y).core else c;
  }

  /** The table of unknown stores grows by at most one per entry scanned. */
  lemma {:induction false} RefreshFits(c: Core, i: nat, unknown: seq<nat>)
    requires Shape(c) && |unknown| <= i && c.L <= MAX_STD_UNKNOWNS
    ensures Refresh(c, i, unknown) != Stop(StdUnknownOverflow)
    decreases c.ln - i
  {
    hide *;
    FitsEnd(c, i, unknown);
    if GoesOn(c, i, unknown) {
      var b, u := FitsStep(c, i, unknown);
      RefreshFits(b, i + 1, u);
    }
  }

  lemma FitsEnd(c: Core, i: nat, unknown: seq<nat>)
    requires Shape(c) && |unknown| <= i && c.L <= MAX_STD_UNKNOWNS
    ensures !GoesOn(c, i, unknown) ==> Refresh(c, i, unknown) == Ok(c)
  {
  }

  lemma LoadOnly(c: Core, y: nat)
    requires Shape(c) && y < |c.st|
    requires !c.st[y].queued
    ensures Enqueue(c, y) == Stop(OutOfLinks) || Enqueue(c, y).Ok?
    ensures var e := Enqueue(c, y); e.Ok? ==> Shape(e.core) && e.core.ln == c.ln && e.core.L == c.L
  {
  }

  /** From the head of the LSQ, the refresh stage keeps the invariant and reaches no panic. */
  lemma RefreshStage(c: Core, pool: nat)
    requires Inv(c, pool) && Shape(c)
    ensures RefreshGood(Refresh(c, 0, []), c.events, c.cycle, pool)
    ensures c.L <= MAX_STD_UNKNOWNS ==> Refresh(c, 0, []) != Stop(StdUnknownOverflow)
  {
    hide Inv;
    assert Scanned(c, 0, []);
    RefreshKeeps(c, 0, [], pool);
    if c.L <= MAX_STD_UNKNOWNS { RefreshFits(c, 0, []); }
  }
}
