/** The refresh stage misses no load: what it queues is exactly the waiting loads that are safe. */
module RuuRefreshExact {
  import opened RuuTypes
  import opened RuuSteps
  import opened RuuInvariants
  import opened RuuFrame
  import opened RuuQueueProof
  import opened RuuRefreshStage
  import Events = RuuEventProof

  /** Position `j` holds the youngest store to address `a` among the first `i` entries. */
  ghost predicate YoungestAt(c: Core, i: nat, a: nat, j: nat)
    requires Shape(c)
  {
    && j < i && StoreAt(c, j) && c.st[LsqSlot(c, j)].addr == a
    && forall k: nat :: j < k < i && StoreAt(c, k) ==> c.st[LsqSlot(c, k)].addr != a
  }

  /** Every listed address other than 0 is that of a youngest store without its value. */
  ghost predicate Listed(c: Core, i: nat, unknown: seq<nat>)
    requires Shape(c)
  {
    i <= c.ln && forall a :: a in unknown && a != 0 ==> exists j: nat :: YoungestAt(c, i, a, j) && !c.st[LsqSlot(c, j)].AllReady()
  }

  /** The store at position `j` lacks its value. */
  ghost predicate MissingAt(c: Core, j: nat)
    requires Shape(c)
  {
    StoreAt(c, j) && !c.st[LsqSlot(c, j)].AllReady()
  }

  /** A store before position `i` with its value hides the one at `j`. */
  ghost predicate HiddenAt(c: Core, i: nat, j: nat)
    requires Shape(c) && j < c.ln
  {
    exists k: nat :: j < k < i && StoreAt(c, k) && c.st[LsqSlot(c, k)].AllReady() && c.st[LsqSlot(c, k)].addr == c.st[LsqSlot(c, j)].addr
  }

  /** Address 0 is on the list: of a store without its value, or as what is left of a hidden one. */
  ghost predicate Zeroed(c: Core, i: nat)
    requires Shape(c)
  {
    exists j: nat :: j < i && MissingAt(c, j) && (c.st[LsqSlot(c, j)].addr == 0 || HiddenAt(c, i, j))
  }

  ghost predicate ZeroListed(c: Core, i: nat, unknown: seq<nat>)
    requires Shape(c)
  {
    && i <= c.ln
    && (forall j: nat :: j < i && MissingAt(c, j) && !HiddenAt(c, i, j) ==> c.st[LsqSlot(c, j)].addr in unknown)
    && (0 in unknown <==> Zeroed(c, i))
  }

  lemma HideZero(u: seq<nat>, a: nat)
    ensures 0 in Hide(u, a) <==> 0 in u || a in u
  {
    if a in u { var j :| 0 <= j < |u| && u[j] == a; assert Hide(u, a)[j] == 0; }
    if 0 in u { var j :| 0 <= j < |u| && u[j] == 0; assert Hide(u, a)[j] == 0; }
    if 0 in Hide(u, a) { var j :| 0 <= j < |u| && Hide(u, a)[j] == 0; assert u[j] == 0 || u[j] == a; }
  }

  lemma HiddenStep(c: Core, i: nat, j: nat)
    requires Shape(c) && j < i < c.ln
    ensures var s := c.st[LsqSlot(c, i)];
      HiddenAt(c, i + 1, j) <==> HiddenAt(c, i, j) || (s.kind == Store && s.AllReady() && s.addr == c.st[LsqSlot(c, j)].addr)
  {
  }

  /** The list holds the addresses of the stores without their values that are not hidden. */
  lemma ZeroStepListed(c: Core, i: nat, unknown: seq<nat>)
    requires Shape(c) && i < c.ln && ZeroListed(c, i, unknown)
    ensures var u := Seen(unknown, c.st[LsqSlot(c, i)]);
      forall j: nat :: j < i + 1 && MissingAt(c, j) && !HiddenAt(c, i + 1, j) ==> c.st[LsqSlot(c, j)].addr in u
  {
    var s := c.st[LsqSlot(c, i)];
    var u := Seen(unknown, s);
    hide Shape, HiddenAt, Zeroed, Hide;
    forall j: nat | j < i + 1 && MissingAt(c, j) && !HiddenAt(c, i + 1, j) ensures c.st[LsqSlot(c, j)].addr in u {
      if j < i {
        HiddenStep(c, i, j);
        if s.kind == Store && s.AllReady() { HideFacts(unknown, s.addr, c.st[LsqSlot(c, j)].addr); }
      }
    }
  }

  lemma ZeroedGrows(c: Core, i: nat)
    requires Shape(c) && i < c.ln && Zeroed(c, i)
    ensures Zeroed(c, i + 1)
  {
    var j: nat :| j < i && MissingAt(c, j) && (c.st[LsqSlot(c, j)].addr == 0 || HiddenAt(c, i, j));
    HiddenStep(c, i, j);
  }

  lemma ZeroedBy(c: Core, i: nat, j: nat)
    requires Shape(c) && j < i <= c.ln && MissingAt(c, j) && (c.st[LsqSlot(c, j)].addr == 0 || HiddenAt(c, i, j))
    ensures Zeroed(c, i)
  {
  }

  lemma ZeroStep(c: Core, i: nat, unknown: seq<nat>)
    requires Shape(c) && i < c.ln && ZeroListed(c, i, unknown) && Listed(c, i, unknown)
    ensures ZeroListed(c, i + 1, Seen(unknown, c.st[LsqSlot(c, i)]))
  {
    ZeroStepListed(c, i, unknown);
    var s := c.st[LsqSlot(c, i)];
    var u := Seen(unknown, s);
    HideZero(unknown, s.addr);
    hide Shape, HiddenAt, Zeroed, Hide, StoreAt;
    if 0 in unknown { ZeroedGrows(c, i); }
    if s.kind == Store && s.AllReady() && s.addr in unknown && s.addr != 0 {
      var j: nat :| YoungestAt(c, i, s.addr, j) && !c.st[LsqSlot(c, j)].AllReady();
      HiddenStep(c, i, j);
      ZeroedBy(c, i + 1, j);
    } else if s.kind == Store && !s.AllReady() && s.addr == 0 {
      assert StoreAt(c, i) by { StoreHere(c, i); }
      ZeroedBy(c, i + 1, i);
    }
    if Zeroed(c, i + 1) { ZeroedBack(c, i, unknown); }
  }

  lemma StoreHere(c: Core, i: nat)
    requires Shape(c) && i < c.ln
    ensures StoreAt(c, i) <==> c.st[LsqSlot(c, i)].kind == Store
  {
  }

  lemma ZeroedBack(c: Core, i: nat, unknown: seq<nat>)
    requires Shape(c) && i < c.ln && ZeroListed(c, i, unknown) && Zeroed(c, i + 1)
    ensures 0 in Seen(unknown, c.st[LsqSlot(c, i)])
  {
    var s := c.st[LsqSlot(c, i)];
    var j: nat :| j < i + 1 && MissingAt(c, j) && (c.st[LsqSlot(c, j)].addr == 0 || HiddenAt(c, i + 1, j));
    HideZero(unknown, s.addr);
    hide Shape, Hide;
    if j < i {
      HiddenStep(c, i, j);
      if c.st[LsqSlot(c, j)].addr == 0 || HiddenAt(c, i, j) { ZeroedBy(c, i, j); }
    } else {
      assert !HiddenAt(c, i + 1, i);
    }
  }

  lemma HiddenFrom(u: seq<nat>, a: nat, b: nat)
    requires b in Hide(u, a) && b != 0
    ensures b in u && b != a
  {
    var j :| 0 <= j < |u| && Hide(u, a)[j] == b;
  }

  lemma SlotInRange(c: Core, j: nat)
    requires Shape(c) && j < c.ln
    ensures 0 <= LsqSlot(c, j) < |c.st|
  {
  }

  lemma ListStep(c: Core, i: nat, unknown: seq<nat>)
    requires Shape(c) && i < c.ln && Listed(c, i, unknown)
    ensures Listed(c, i + 1, Seen(unknown, c.st[LsqSlot(c, i)]))
  {
    SlotInRange(c, i);
    var s := c.st[LsqSlot(c, i)];
    var u := Seen(unknown, s);
    hide Shape, LsqSlot;
    forall a | a in u && a != 0 ensures exists j: nat :: YoungestAt(c, i + 1, a, j) && !c.st[LsqSlot(c, j)].AllReady() {
      if s.kind == Store && s.AllReady() {
        HiddenFrom(unknown, s.addr, a);
      }
      if s.kind == Store && !s.AllReady() && a == s.addr {
        assert YoungestAt(c, i + 1, a, i);
      } else {
        var j: nat :| YoungestAt(c, i, a, j) && !c.st[LsqSlot(c, j)].AllReady();
        assert YoungestAt(c, i + 1, a, j);
      }
    }
  }

  /** In LSQ positions, the youngest older store of the load at position `i`. */
  lemma YoungestIs(c: Core, i: nat, j: nat)
    requires Shape(c) && Order(c) && i < c.ln && YoungestAt(c, i, c.st[LsqSlot(c, i)].addr, j)
    ensures LsqSlot(c, i) >= 0 && LsqSlot(c, j) >= 0 && YoungestOlderStore(c, LsqSlot(c, i), LsqSlot(c, j))
  {
    var x, z := LsqSlot(c, i), LsqSlot(c, j);
    PositionOlder(c, j, i);
    forall y: nat | IsOlderStore(c, x, y) && c.st[y].addr == c.st[x].addr ensures c.st[y].num <= c.st[z].num {
      PositionOrder(c, i, y);
      var k := Pos(c.lh, c.L, y - c.R);
      assert StoreAt(c, k);
      if k < j {
        PositionOlder(c, k, j);
      }
    }
  }

  /** The load at position `i` is safe, and nothing on the list looks like its address. */
  ghost predicate Clear(c: Core, i: nat)
    requires Shape(c) && i < c.ln
  {
    LoadSafe(c, LsqSlot(c, i)) && (c.st[LsqSlot(c, i)].addr == 0 ==> !Zeroed(c, i))
  }

  /** At a load whose older stores all have their addresses, the list decides. */
  lemma ListDecides(c: Core, i: nat, unknown: seq<nat>)
    requires Shape(c) && Order(c) && i < c.ln && Scanned(c, i, unknown) && Listed(c, i, unknown)
    requires c.st[LsqSlot(c, i)].kind == Load && ZeroListed(c, i, unknown)
    ensures c.st[LsqSlot(c, i)].addr !in unknown <==> Clear(c, i)
  {
    var x := LsqSlot(c, i);
    hide Zeroed;
    if c.st[x].addr !in unknown {
      ScannedSafe(c, i, unknown);
    } else if c.st[x].addr != 0 {
      var j: nat :| YoungestAt(c, i, c.st[x].addr, j) && !c.st[LsqSlot(c, j)].AllReady();
      YoungestIs(c, i, j);
    }
  }

  /** A store without its address makes every younger load unsafe. */
  lemma UnknownStops(c: Core, i: nat, j: nat)
    requires Shape(c) && Order(c) && i < j < c.ln && StoreAt(c, i) && !c.st[LsqSlot(c, i)].ready.b
    ensures !LoadSafe(c, LsqSlot(c, j))
  {
    PositionOlder(c, i, j);
    assert IsOlderStore(c, LsqSlot(c, j), LsqSlot(c, i));
  }

  /** From position `i` on, a waiting load is queued exactly if it is clear; before, nothing changes. */
  ghost predicate QueuesSafe(c: Core, i: nat, b: Core)
    requires Shape(c)
  {
    && |b.st| == |c.st|
    && (forall j: nat :: i <= j < c.ln && LoadWaits(c.st[LsqSlot(c, j)]) ==> (b.st[LsqSlot(c, j)].queued <==> Clear(c, j)))
    && (forall j: nat :: j < i && j < c.ln ==> b.st[LsqSlot(c, j)].queued == c.st[LsqSlot(c, j)].queued)
  }

  lemma StepOver(c: Core, i: nat, b: Core)
    requires Shape(c) && i < c.ln && QueuesSafe(c, i + 1, b)
    requires LoadWaits(c.st[LsqSlot(c, i)]) ==> !Clear(c, i)
    ensures QueuesSafe(c, i, b)
  {
    hide Clear;
  }

  /** Queueing a load changes neither the other loads nor what is safe. */
  lemma EnqueuedSafe(c: Core, y: nat, d: Core, x: nat)
    requires Shape(c) && Shape(d) && y < |c.st| && Enqueued(c, y, d) && LoadSafe(c, x)
    ensures LoadSafe(d, x)
  {
    hide Keys, Ids;
    assert forall z: nat :: IsOlderStore(d, x, z) <==> IsOlderStore(c, x, z);
    assert forall z: nat :: YoungestOlderStore(d, x, z) <==> YoungestOlderStore(c, x, z);
  }

  lemma EnqueuedUnsafe(c: Core, y: nat, d: Core, x: nat)
    requires Shape(c) && Shape(d) && y < |c.st| && Enqueued(c, y, d) && LoadSafe(d, x)
    ensures LoadSafe(c, x)
  {
    hide Keys, Ids;
    assert forall z: nat :: IsOlderStore(d, x, z) <==> IsOlderStore(c, x, z);
    assert forall z: nat :: YoungestOlderStore(d, x, z) <==> YoungestOlderStore(c, x, z);
  }

  lemma EnqueuedZeroed(c: Core, y: nat, d: Core, i: nat)
    requires Shape(c) && Shape(d) && y < |c.st| && Enqueued(c, y, d) && i <= c.ln
    ensures d.ln == c.ln && (Zeroed(d, i) <==> Zeroed(c, i))
    ensures forall j: nat :: j < i ==> (MissingAt(d, j) <==> MissingAt(c, j)) && (HiddenAt(d, i, j) <==> HiddenAt(c, i, j))
  {
    hide Keys, Ids;
    assert forall j: nat :: j < c.ln ==> LsqSlot(d, j) == LsqSlot(c, j);
    assert forall j: nat :: StoreAt(d, j) <==> StoreAt(c, j);
    assert forall z: nat :: z < |c.st| ==> d.st[z].ready == c.st[z].ready && d.st[z].addr == c.st[z].addr;
    assert forall j: nat :: j < i ==> (MissingAt(d, j) <==> MissingAt(c, j));
    assert forall j: nat :: j < i ==> (HiddenAt(d, i, j) <==> HiddenAt(c, i, j));
  }

  lemma EnqueuedZeroListed(c: Core, y: nat, i: nat, unknown: seq<nat>, d: Core)
    requires Shape(c) && Shape(d) && y < |c.st| && Enqueued(c, y, d) && ZeroListed(c, i, unknown)
    ensures ZeroListed(d, i, unknown)
  {
    EnqueuedZeroed(c, y, d, i);
    assert forall j: nat :: j < c.ln ==> LsqSlot(d, j) == LsqSlot(c, j);
    assert forall z: nat :: z < |c.st| ==> d.st[z].addr == c.st[z].addr;
    hide Keys, Ids, MissingAt, HiddenAt, Zeroed, Enqueued;
  }

  lemma EnqueuedClear(c: Core, y: nat, d: Core, i: nat)
    requires Shape(c) && Shape(d) && y < |c.st| && Enqueued(c, y, d) && i < c.ln
    ensures i < d.ln && (Clear(d, i) <==> Clear(c, i))
  {
    EnqueuedZeroed(c, y, d, i);
    var x := LsqSlot(c, i);
    assert LsqSlot(d, i) == x && d.st[x].addr == c.st[x].addr by { hide Keys, Ids; }
    if LoadSafe(c, x) { EnqueuedSafe(c, y, d, x); }
    if LoadSafe(d, x) { EnqueuedUnsafe(c, y, d, x); }
    hide Keys, Ids, LoadSafe, Zeroed, Enqueued;
  }

  lemma EnqueuedSlots(c: Core, i: nat, d: Core)
    requires Shape(c) && Shape(d) && i < c.ln && 0 <= LsqSlot(c, i) < |c.st| && Enqueued(c, LsqSlot(c, i), d)
    ensures d.st[LsqSlot(c, i)].queued && d.ln == c.ln && |d.st| == |c.st|
    ensures forall j: nat :: j < c.ln ==> LsqSlot(d, j) == LsqSlot(c, j) && 0 <= LsqSlot(c, j) < |c.st|
    ensures forall j: nat :: j < c.ln && j != i ==> d.st[LsqSlot(c, j)] == c.st[LsqSlot(c, j)]
  {
    hide Keys, Ids;
    assert forall j: nat :: j < c.ln && j != i ==> LsqSlot(c, j) != LsqSlot(c, i);
  }

  lemma StepQueue(c: Core, i: nat, d: Core, b: Core)
    requires Shape(c) && Shape(d) && i < c.ln && 0 <= LsqSlot(c, i) < |c.st| && Enqueued(c, LsqSlot(c, i), d)
    requires Clear(c, i) && QueuesSafe(d, i + 1, b)
    ensures QueuesSafe(c, i, b)
  {
    var y := LsqSlot(c, i);
    assert |c.st| == c.R + c.L && |d.st| == d.R + d.L && d.ln == c.ln && |d.st| == |c.st|;
    EnqueuedSlots(c, i, d);
    hide Clear, Keys, Ids, Shape, Enqueued;
    forall j: nat | i < j < c.ln ensures j < d.ln && (Clear(c, j) <==> Clear(d, j)) { EnqueuedClear(c, y, d, j); }
    assert LsqSlot(d, i) == y;
    assert b.st[y].queued;
  }

  lemma EnqueuedListed(c: Core, y: nat, i: nat, unknown: seq<nat>, d: Core)
    requires Shape(c) && Shape(d) && y < |c.st| && Enqueued(c, y, d) && Listed(c, i, unknown)
    ensures Listed(d, i, unknown)
  {
    hide Keys, Ids;
    assert forall j: nat :: j < c.ln ==> LsqSlot(d, j) == LsqSlot(c, j);
    assert forall j: nat :: StoreAt(d, j) <==> StoreAt(c, j);
    assert forall z: nat :: z < |c.st| ==> d.st[z].ready == c.st[z].ready && d.st[z].addr == c.st[z].addr;
    forall a | a in unknown && a != 0 ensures exists j: nat :: YoungestAt(d, i, a, j) && !d.st[LsqSlot(d, j)].AllReady() {
      var j: nat :| YoungestAt(c, i, a, j) && !c.st[LsqSlot(c, j)].AllReady();
      assert YoungestAt(d, i, a, j);
    }
  }

  lemma EnqueuedOrder(c: Core, y: nat, d: Core)
    requires Shape(c) && y < |c.st| && Enqueued(c, y, d) && Order(c)
    ensures Shape(d) && Order(d)
  {
    hide Keys, Ids;
    FrameLive(c, d);
    FrameOrder(c, d);
  }

  /** The scan stops at a store without its address, or at the end. */
  lemma ScanEnds(c: Core, i: nat, unknown: seq<nat>, b: Core)
    requires Shape(c) && Order(c) && i <= c.ln && !GoesOn(c, i, unknown) && Refresh(c, i, unknown) == Ok(b)
    ensures QueuesSafe(c, i, b)
  {
    if i < c.ln {
      assert b == c && StoreAt(c, i) && !c.st[LsqSlot(c, i)].ready.b;
      forall j: nat | i < j < c.ln ensures !Clear(c, j) {
        UnknownStops(c, i, j);
      }
    }
  }

  lemma {:induction false} RefreshQueues(c: Core, i: nat, unknown: seq<nat>, b: Core)
    requires Shape(c) && Order(c) && Scanned(c, i, unknown) && Listed(c, i, unknown) && Refresh(c, i, unknown) == Ok(b)
    requires ZeroListed(c, i, unknown)
    ensures QueuesSafe(c, i, b)
    decreases c.ln - i
  {
    hide *;
    ScanBound(c, i, unknown);
    RefreshUnfold(c, i, unknown);
    if !GoesOn(c, i, unknown) {
      ScanEnds(c, i, unknown, b);
    } else {
      GoesOnStore(c, i, unknown);
      SlotInRange(c, i);
      var y := LsqSlot(c, i);
      var u := Seen(unknown, c.st[y]);
      ScanStep(c, i, unknown);
      ListStep(c, i, unknown);
      ZeroStep(c, i, unknown);
      SeenAtLoad(c, i, unknown);
      if LoadWaits(c.st[y]) {
        ListDecides(c, i, unknown);
      }
      if QueuesLoad(c, i, unknown) {
        ScannedSafe(c, i, unknown);
        var d := Enqueue(c, y).core;
        LoadEnqueued(c, y);
        EnqueueScanned(c, y, i + 1, u, d);
        EnqueuedListed(c, y, i + 1, u, d);
        EnqueuedZeroListed(c, y, i + 1, u, d);
        EnqueuedOrder(c, y, d);
        RefreshQueues(d, i + 1, u, b);
        StepQueue(c, i, d, b);
      } else {
        RefreshQueues(c, i + 1, u, b);
        StepOver(c, i, b);
      }
    }
  }

  lemma ScanBound(c: Core, i: nat, unknown: seq<nat>)
    requires Shape(c) && Scanned(c, i, unknown)
    ensures i <= c.ln
  {
  }

  lemma GoesOnStore(c: Core, i: nat, unknown: seq<nat>)
    requires Shape(c) && GoesOn(c, i, unknown)
    ensures i < c.ln && (StoreAt(c, i) ==> c.st[LsqSlot(c, i)].ready.b)
  {
  }

  lemma SeenAtLoad(c: Core, i: nat, unknown: seq<nat>)
    requires Shape(c) && i < c.ln
    ensures QueuesLoad(c, i, unknown) <==> LoadWaits(c.st[LsqSlot(c, i)]) && c.st[LsqSlot(c, i)].addr !in unknown
    ensures LoadWaits(c.st[LsqSlot(c, i)]) ==> c.st[LsqSlot(c, i)].kind == Load && !c.st[LsqSlot(c, i)].queued
  {
  }

  lemma LoadEnqueued(c: Core, y: nat)
    requires Shape(c) && y < |c.st| && !c.st[y].queued && Enqueue(c, y).Ok?
    ensures Shape(Enqueue(c, y).core) && Enqueued(c, y, Enqueue(c, y).core) && Enqueue(c, y).core.ln == c.ln
  {
    EnqueueResult(c, y);
  }

  /** Some older store without its value is at address 0, or hidden by a store between that has its own. */
  ghost predicate Clouded(c: Core, x: nat)
    requires |c.st| == c.R + c.L
  {
    exists z: nat :: IsOlderStore(c, x, z) && !c.st[z].AllReady() && (c.st[z].addr == 0 || HiddenBy(c, x, z))
  }

  ghost predicate HiddenBy(c: Core, x: nat, z: nat)
    requires |c.st| == c.R + c.L && z < |c.st|
  {
    exists y: nat :: IsOlderStore(c, x, y) && c.st[y].num > c.st[z].num && c.st[y].AllReady() && c.st[y].addr == c.st[z].addr
  }

  lemma HiddenIs(c: Core, i: nat, j: nat)
    requires Shape(c) && Order(c) && j < i < c.ln && |c.st| == c.R + c.L
    ensures 0 <= LsqSlot(c, i) < |c.st| && 0 <= LsqSlot(c, j) < |c.st|
    ensures HiddenAt(c, i, j) <==> HiddenBy(c, LsqSlot(c, i), LsqSlot(c, j))
  {
    var x, z := LsqSlot(c, i), LsqSlot(c, j);
    PositionOlder(c, j, i);
    if HiddenAt(c, i, j) {
      var k: nat :| j < k < i && StoreAt(c, k) && c.st[LsqSlot(c, k)].AllReady() && c.st[LsqSlot(c, k)].addr == c.st[z].addr;
      PositionOlder(c, j, k);
      PositionOlder(c, k, i);
      assert IsOlderStore(c, x, LsqSlot(c, k));
    }
    if HiddenBy(c, x, z) {
      var y: nat :| IsOlderStore(c, x, y) && c.st[y].num > c.st[z].num && c.st[y].AllReady() && c.st[y].addr == c.st[z].addr;
      PositionOrder(c, i, y);
      var k := Pos(c.lh, c.L, y - c.R);
      assert StoreAt(c, k);
      if k < j { PositionOlder(c, k, j); }
    }
  }

  lemma CloudedIs(c: Core, i: nat)
    requires Shape(c) && Order(c) && i < c.ln && |c.st| == c.R + c.L
    ensures 0 <= LsqSlot(c, i) < |c.st| && (Zeroed(c, i) <==> Clouded(c, LsqSlot(c, i)))
  {
    var x := LsqSlot(c, i);
    hide HiddenAt, HiddenBy;
    if Zeroed(c, i) {
      var j: nat :| j < i && MissingAt(c, j) && (c.st[LsqSlot(c, j)].addr == 0 || HiddenAt(c, i, j));
      HiddenIs(c, i, j);
      PositionOlder(c, j, i);
      assert IsOlderStore(c, x, LsqSlot(c, j));
    }
    if Clouded(c, x) {
      var z: nat :| IsOlderStore(c, x, z) && !c.st[z].AllReady() && (c.st[z].addr == 0 || HiddenBy(c, x, z));
      PositionOrder(c, i, z);
      var j := Pos(c.lh, c.L, z - c.R);
      HiddenIs(c, i, j);
      assert MissingAt(c, j);
    }
  }

  /** After the refresh stage, a load that was waiting is on the ready queue if and only if nothing
      older can still change what it reads; at address 0 the marks of hidden stores also hold it back. */
  lemma RefreshExact(c: Core, b: Core, x: nat, pool: nat)
    requires Inv(c, pool) && Shape(c) && Refresh(c, 0, []) == Ok(b)
    requires Live(c, x) && x >= c.R && LoadWaits(c.st[x])
    ensures |b.st| == |c.st| && |c.st| == c.R + c.L
    ensures b.st[x].queued <==> LoadSafe(c, x) && (c.st[x].addr == 0 ==> !Clouded(c, x))
  {
    Events.IdleSplit(c, pool);
    hide Inv, Refresh;
    assert Scanned(c, 0, []) && Listed(c, 0, []) && ZeroListed(c, 0, []);
    RefreshQueues(c, 0, [], b);
    var j := Pos(c.lh, c.L, x - c.R);
    assert LsqSlot(c, j) == x;
    CloudedIs(c, j);
  }
}
