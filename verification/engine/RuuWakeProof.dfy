/** The result broadcast: every waiting operand is woken exactly once. */
module RuuWakeProof {
  import opened RuuTypes
  import opened RuuSteps
  import opened RuuInvariants
  import opened RuuLists
  import opened RuuFrame
  import opened RuuQueueProof
  import opened RuuIssueProof

  /** The first link of chain `o` of `r` in hand, and its operand marked ready if it is valid. */
  function Popped(c: Core, r: nat, o: nat): Core
    requires r < |c.st| && o < 2 && c.st[r].odeps.Get(o) != []
  {
    With(c, r, c.st[r].(odeps := c.st[r].odeps.Set(o, c.st[r].odeps.Get(o)[1..])))
  }

  function Woken(c: Core, x: nat, k: nat): Core
    requires x < |c.st|
  {
    With(c, x, c.st[x].(ready := c.st[x].ready.Set(k, true)))
  }

  /** The broadcasting station and its current chain. */
  ghost predicate Broadcasting(c: Core, r: nat, o: nat)
  {
    r < |c.st| && Live(c, r) && c.st[r].completed && o < 2
  }

  // ----- a stale link -----

  lemma StaleFrame(c: Core, r: nat, o: nat, d: int, e: int)
    requires Shape(c) && Broadcasting(c, r, o) && c.st[r].odeps.Get(o) != [] && Timely(c)
    ensures var b := Popped(c, r, o);
            && Shape(b) && Frame(c, b) && Completes(c, b, d) && Timely(b)
            && ReadyGrows(c, b) && SafeStarts(c, b) && SameBranches(c, b, e, e)
            && SameNames(c, b) && (forall z: nat :: z < |c.st| ==> b.st[z].ready == c.st[z].ready && b.st[z].completed == c.st[z].completed)
  {
  }

  lemma PopIds(c: Core, r: nat, o: nat, pend: seq<Link>)
    requires Shape(c) && r < |c.st| && o < 2 && c.st[r].odeps.Get(o) != []
    ensures AllIds(c, pend) == AllIds(Popped(c, r, o), pend) + multiset{c.st[r].odeps.Get(o)[0].id}
  {
    var b, q := Popped(c, r, o), c.st[r].odeps.Get(o);
    PopStationIds(c.st[r], o);
    PopChainIds(c.st, r, b.st[r], q[0].id);
  }

  lemma PopChainIds(st: seq<Station>, r: nat, s: Station, id: nat)
    requires r < |st| && StationIds(st[r]) == StationIds(s) + multiset{id}
    ensures ChainIds(st) == ChainIds(st[r := s]) + multiset{id}
  {
    ChainIdsUpdate(st, r, s);
    var m := multiset{id};
    assert (ChainIds(st[r := s]) + m) + StationIds(s) == ChainIds(st) + StationIds(s);
    Cancel(ChainIds(st[r := s]) + m, ChainIds(st), StationIds(s));
  }

  lemma PopStationIds(s: Station, o: nat)
    requires o < 2 && s.odeps.Get(o) != []
    ensures StationIds(s) == StationIds(s.(odeps := s.odeps.Set(o, s.odeps.Get(o)[1..]))) + multiset{s.odeps.Get(o)[0].id}
  {
    var q := s.odeps.Get(o);
    FirstId(q);
    var m := multiset{q[0].id};
    if o == 0 {
      assert (Ids(q[1..]) + m) + Ids(s.odeps.b) == (Ids(q[1..]) + Ids(s.odeps.b)) + m;
    } else {
      assert Ids(s.odeps.a) + (Ids(q[1..]) + m) == (Ids(s.odeps.a) + Ids(q[1..])) + m;
    }
  }

  lemma FirstId(q: seq<Link>)
    requires q != []
    ensures Ids(q) == Ids(q[1..]) + multiset{q[0].id}
  {
  }

  lemma PopLists(c: Core, r: nat, o: nat, f: Flight, pool: nat)
    requires Shape(c) && r < |c.st| && o < 2 && c.st[r].odeps.Get(o) != []
    requires LinksOk(c, f.pend) && Conserved(c, f.pend, f.held, pool)
    ensures LinksOk(Popped(c, r, o), f.pend)
    ensures Conserved(Popped(c, r, o), f.pend, f.held + multiset{c.st[r].odeps.Get(o)[0].id}, pool)
    ensures LinkOk(c, c.st[r].odeps.Get(o)[0])
  {
    var b, q := Popped(c, r, o), c.st[r].odeps.Get(o);
    FrameLive(c, b);
    assert forall p: nat, u: nat, l :: InChain(b, p, u, l) ==> InChain(c, p, u, l);
    FrameLinks(c, b, f.pend, f.pend);
    PopIds(c, r, o, f.pend);
    assert InChain(c, r, o, q[0]);
  }

  /** From `c` to `b`, chain `o` of `r` lost its first link `l`, and no other chain changed. */
  ghost predicate ChainStep(c: Core, b: Core, r: nat, o: nat, l: Link) {
    && |b.st| == |c.st| && r < |c.st| && o < 2
    && OpKeys(c.st[r].odeps.Get(o)) == OpKeys(b.st[r].odeps.Get(o)) + multiset{Key(l.rs, l.tag, l.x)}
    && (forall p: nat, u: nat :: p < |c.st| && u < 2 && (p != r || u != o) ==> b.st[p].odeps.Get(u) == c.st[p].odeps.Get(u))
    && (forall m :: m in b.st[r].odeps.Get(o) ==> m in c.st[r].odeps.Get(o))
  }

  lemma PopStep(c: Core, r: nat, o: nat)
    requires r < |c.st| && o < 2 && c.st[r].odeps.Get(o) != []
    ensures ChainStep(c, Popped(c, r, o), r, o, c.st[r].odeps.Get(o)[0])
  {
    var b, q := Popped(c, r, o), c.st[r].odeps.Get(o);
    hide *;
    OpKeysHead(q);
    ChainStepJoin(c, b, r, o, q);
  }

  lemma ChainStepJoin(c: Core, b: Core, r: nat, o: nat, q: seq<Link>)
    requires r < |c.st| && o < 2 && q != [] && q == c.st[r].odeps.Get(o) && b == Popped(c, r, o)
    requires OpKeys(q) == OpKeys(q[1..]) + multiset{Key(q[0].rs, q[0].tag, q[0].x)}
    ensures ChainStep(c, b, r, o, q[0])
  {
    hide OpKeys;
    assert b.st[r].odeps.Get(o) == q[1..];
    assert b.st[r].odeps.Get(1 - o) == c.st[r].odeps.Get(1 - o);
  }

  lemma StaleOperands(c: Core, b: Core, r: nat, o: nat, l: Link, d: int)
    requires Shape(c) && Frame(c, b) && SameNames(c, b) && ChainStep(c, b, r, o, l) && !Valid(c, l) && Operands(c, d)
    requires forall z: nat :: z < |c.st| ==> b.st[z].ready == c.st[z].ready && b.st[z].completed == c.st[z].completed
    ensures Operands(b, d)
  {
    FrameLive(c, b);
    FrameLatest(c, b);
    forall x: nat, k: nat | Live(b, x) && k < 3 ensures OperandOk(b, d, x, k) {
      assert Live(c, x) && OperandOk(c, d, x, k);
      if !c.st[x].ready.Get(k) {
        assert WaitsOn(b, d, x, k, c.st[x].waitOn.Get(k).slot, c.st[x].waitOn.Get(k).odep);
      }
    }
  }

  lemma StaleChains(c: Core, r: nat, o: nat, d: int)
    requires Shape(c) && Broadcasting(c, r, o) && c.st[r].odeps.Get(o) != [] && Chains(c, d)
    ensures Chains(Popped(c, r, o), d)
  {
    var b := Popped(c, r, o);
    FrameLive(c, b);
    forall p: nat, u: nat, l | InChain(b, p, u, l) ensures ChainLinkOk(b, p, u, l) {
      assert InChain(c, p, u, l) && ChainLinkOk(c, p, u, l);
    }
    forall p: nat, u: nat | p < |b.st| && u < 2 && b.st[p].odeps.Get(u) != []
      ensures Pending(b, d, p) && b.st[p].onames.Get(u) != NA
    {
      assert c.st[p].odeps.Get(u) != [];
    }
  }

  /** Sameness of everything the queues and the status look at. */
  lemma FrameStatus(c: Core, b: Core, f: Flight)
    requires Shape(c) && Frame(c, b) && SameNames(c, b) && b.events == c.events && b.readyq == c.readyq
    requires forall z: nat :: z < |c.st| ==>
               && b.st[z].ready == c.st[z].ready && b.st[z].queued == c.st[z].queued
               && b.st[z].issued == c.st[z].issued && b.st[z].completed == c.st[z].completed
    requires Queues(c, f.pend) && Status(c, f.w)
    ensures Queues(b, f.pend) && Status(b, f.w)
  {
    FrameLive(c, b);
    forall z: nat | Live(b, z) ensures QueueOk(b, f.pend, z) && StatusOk(b, b.st[z], z, f.w) {
      assert Live(c, z) && QueueOk(c, f.pend, z) && StatusOk(c, c.st[z], z, f.w);
    }
  }

  lemma StaleStatus(c: Core, r: nat, o: nat, f: Flight)
    requires Shape(c) && Broadcasting(c, r, o) && c.st[r].odeps.Get(o) != []
    requires Queues(c, f.pend) && Status(c, f.w)
    ensures Queues(Popped(c, r, o), f.pend) && Status(Popped(c, r, o), f.w)
  {
    FrameStatus(c, Popped(c, r, o), f);
  }

  lemma StaleKeeps(c: Core, f: Flight, r: nat, o: nat, id: nat, pool: nat)
    requires Sound(c, f, pool) && Broadcasting(c, r, o) && c.st[r].odeps.Get(o) != []
    requires !Valid(c, c.st[r].odeps.Get(o)[0]) && id == c.st[r].odeps.Get(o)[0].id
    ensures Sound(Popped(c, r, o), Holding(f, id), pool)
    ensures SpecVector(c, f.d) ==> SpecVector(Popped(c, r, o), f.d)
  {
    var b := Popped(c, r, o);
    SplitSound(c, f, pool);
    hide *;
    StaleFrame(c, r, o, f.d, f.e);
    FrameSkeleton(c, b);
    FrameSpeculation(c, b, f.e, f.e);
    FrameVectors(c, b, f.d, f.d);
    FrameMemory(c, b);
    PopLists(c, r, o, f, pool);
    PopStep(c, r, o);
    StaleOperands(c, b, r, o, c.st[r].odeps.Get(o)[0], f.d);
    StaleChains(c, r, o, f.d);
    StaleStatus(c, r, o, f);
    HoldingJoin(b, f, id, pool);
  }

  lemma HoldingJoin(c: Core, f: Flight, id: nat, pool: nat)
    requires Shape(c)
    requires Order(c) && Pairs(c) && Speculation(c, f.e) && LinksOk(c, f.pend) && Status(c, f.w) && Queues(c, f.pend)
    requires BaseVector(c, f.d) && Operands(c, f.d) && Chains(c, f.d)
    requires MemoryOrder(c) && Timely(c) && Conserved(c, f.pend, f.held + multiset{id}, pool)
    ensures Sound(c, Holding(f, id), pool)
  {
    JoinSound(c, Holding(f, id), pool);
  }

  // ----- a valid link -----

  /** What a valid link of the broadcast chain says about its operand. */
  lemma WokenOperand(c: Core, r: nat, o: nat, l: Link)
    requires Shape(c) && Broadcasting(c, r, o) && InChain(c, r, o, l) && Valid(c, l)
    requires Order(c) && LinkOk(c, l) && Operands(c, r) && Chains(c, r)
    ensures var x, k := l.rs, l.x;
            && Live(c, x) && x != r && k < 3 && !c.st[x].ready.Get(k) && c.st[x].waitOn.Get(k) == By(r, o)
            && WaitsOn(c, r, x, k, r, o)
            && (forall q: nat :: Latest(c, c.st[x].inames.Get(k), c.st[x].num, q) ==> q == r)
  {
    var x, k := l.rs, l.x;
    assert ChainLinkOk(c, r, o, l) && OperandOk(c, r, x, k);
  }

  /** Operand `k` of `x` became ready; nothing else about readiness or progress changed. */
  ghost predicate ReadyStep(c: Core, b: Core, x: nat, k: nat) {
    && |b.st| == |c.st| && x < |c.st| && k < 3
    && (forall z: nat :: z < |c.st| && z != x ==> b.st[z].ready == c.st[z].ready)
    && b.st[x].ready == c.st[x].ready.Set(k, true)
    && (forall z: nat :: z < |c.st| ==> && b.st[z].queued == c.st[z].queued && b.st[z].issued == c.st[z].issued
                                        && b.st[z].completed == c.st[z].completed)
    && b.events == c.events && b.readyq == c.readyq && b.cycle == c.cycle
  }

  lemma PopFields(c: Core, r: nat, o: nat)
    requires Shape(c) && r < |c.st| && o < 2 && c.st[r].odeps.Get(o) != []
    ensures var b := Popped(c, r, o);
            && Shape(b) && b == c.(st := b.st) && |b.st| == |c.st|
            && (forall z: nat :: z < |c.st| ==> b.st[z] == c.st[z].(odeps := b.st[z].odeps))
  {
  }

  lemma WokenFields(c: Core, x: nat, k: nat)
    requires Shape(c) && x < |c.st|
    ensures var b := Woken(c, x, k);
            && Shape(b) && b == c.(st := b.st) && |b.st| == |c.st|
            && (forall z: nat :: z < |c.st| ==> b.st[z] == c.st[z].(ready := if z == x then c.st[x].ready.Set(k, true) else c.st[z].ready))
  {
  }

  lemma ValidStep(c: Core, r: nat, o: nat, x: nat, k: nat, b: Core)
    requires Shape(c) && Broadcasting(c, r, o) && c.st[r].odeps.Get(o) != [] && x < |c.st| && k < 3
    requires b == Woken(Popped(c, r, o), x, k)
    ensures Shape(b) && Frame(c, b) && SameNames(c, b) && ReadyStep(c, b, x, k)
  {
    PopFields(c, r, o);
    WokenFields(Popped(c, r, o), x, k);
    hide Popped, Woken, Shape;
  }

  lemma ValidChainStep(c: Core, r: nat, o: nat, x: nat, k: nat, b: Core)
    requires Shape(c) && Broadcasting(c, r, o) && c.st[r].odeps.Get(o) != [] && x < |c.st|
    requires b == Woken(Popped(c, r, o), x, k)
    ensures ChainStep(c, b, r, o, c.st[r].odeps.Get(o)[0])
  {
    var a := Popped(c, r, o);
    PopStep(c, r, o);
    assert forall p: nat :: p < |a.st| ==> b.st[p].odeps == a.st[p].odeps;
    hide Popped, Woken;
  }

  lemma ValidFrame(c: Core, b: Core, x: nat, k: nat, d: int, e: int)
    requires Shape(c) && Shape(b) && Frame(c, b) && ReadyStep(c, b, x, k) && Timely(c)
    ensures Completes(c, b, d) && Timely(b) && ReadyGrows(c, b) && SafeStarts(c, b) && SameBranches(c, b, e, e)
  {
  }

  lemma ValidOperands(c: Core, b: Core, r: nat, o: nat, l: Link)
    requires Shape(c) && Broadcasting(c, r, o) && InChain(c, r, o, l) && Valid(c, l) && LinkOk(c, l)
    requires Order(c) && Operands(c, r) && Chains(c, r)
    requires l.x < 3 && Frame(c, b) && SameNames(c, b) && ReadyStep(c, b, l.rs, l.x) && ChainStep(c, b, r, o, l)
    ensures Operands(b, r)
  {
    WokenOperand(c, r, o, l);
    FrameLive(c, b);
    FrameLatest(c, b);
    forall x: nat, k: nat | Live(b, x) && k < 3 ensures OperandOk(b, r, x, k) {
      assert Live(c, x) && OperandOk(c, r, x, k);
      if !b.st[x].ready.Get(k) {
        assert WaitsOn(c, r, x, k, c.st[x].waitOn.Get(k).slot, c.st[x].waitOn.Get(k).odep);
        assert WaitsOn(b, r, x, k, c.st[x].waitOn.Get(k).slot, c.st[x].waitOn.Get(k).odep);
      }
    }
  }

  lemma ValidChains(c: Core, b: Core, r: nat, o: nat, l: Link)
    requires Shape(c) && Broadcasting(c, r, o) && InChain(c, r, o, l) && Valid(c, l) && LinkOk(c, l)
    requires Order(c) && Operands(c, r) && Chains(c, r)
    requires l.x < 3 && Frame(c, b) && SameNames(c, b) && ReadyStep(c, b, l.rs, l.x) && ChainStep(c, b, r, o, l)
    ensures Chains(b, r)
  {
    WokenOperand(c, r, o, l);
    FrameLive(c, b);
    forall p: nat, u: nat, m | InChain(b, p, u, m) ensures ChainLinkOk(b, p, u, m) {
      assert InChain(c, p, u, m) && ChainLinkOk(c, p, u, m);
      if Valid(c, m) && m.rs == l.rs && m.x == l.x {
        SomeKey(b.st[p].odeps.Get(u), m);
      }
    }
    forall p: nat, u: nat | p < |b.st| && u < 2 && b.st[p].odeps.Get(u) != []
      ensures Pending(b, r, p) && b.st[p].onames.Get(u) != NA
    {
      assert c.st[p].odeps.Get(u) != [];
    }
  }

  lemma ValidLists(c: Core, r: nat, o: nat, x: nat, k: nat, f: Flight, pool: nat)
    requires Shape(c) && r < |c.st| && o < 2 && c.st[r].odeps.Get(o) != [] && x < |c.st|
    requires LinksOk(c, f.pend) && Conserved(c, f.pend, f.held, pool)
    ensures var b := Woken(Popped(c, r, o), x, k);
            LinksOk(b, f.pend) && Conserved(b, f.pend, f.held + multiset{c.st[r].odeps.Get(o)[0].id}, pool)
  {
    var a, b := Popped(c, r, o), Woken(Popped(c, r, o), x, k);
    PopLists(c, r, o, f, pool);
    FrameLive(a, b);
    assert forall p: nat, u: nat, l :: InChain(b, p, u, l) ==> InChain(a, p, u, l);
    FrameLinks(a, b, f.pend, f.pend);
    SameChainIds(a.st, x, b.st[x]);
  }

  lemma WokenQueues(c: Core, r: nat, o: nat, x: nat, k: nat, f: Flight, b: Core)
    requires Shape(c) && r < |c.st| && o < 2 && c.st[r].odeps.Get(o) != [] && x < |c.st| && x != r
    requires b == Woken(Popped(c, r, o), x, k) && Queues(c, f.pend)
    ensures |b.st| == b.R + b.L && Queues(b, f.pend)
  {
    hide Keys;
    assert forall z: nat :: Live(b, z) <==> Live(c, z);
    forall z: nat | Live(b, z) ensures QueueOk(b, f.pend, z) {
      assert Live(c, z) && QueueOk(c, f.pend, z);
    }
  }

  lemma ValidStatus(c: Core, r: nat, o: nat, x: nat, k: nat, f: Flight, b: Core)
    requires Shape(c) && Broadcasting(c, r, o) && c.st[r].odeps.Get(o) != [] && Live(c, x) && x < |c.st| && k < 3
    requires !c.st[x].ready.Get(k) && x != r && b == Woken(Popped(c, r, o), x, k)
    requires Queues(c, f.pend) && Status(c, f.w) && x !in f.w
    ensures Status(b, f.w + {x}) && Queues(b, f.pend)
    ensures b.st[x].AllReady() && (!b.st[x].inLsq || b.st[x].kind == Store) ==> MayQueue(b, x)
    ensures !(b.st[x].AllReady() && (!b.st[x].inLsq || b.st[x].kind == Store)) ==> Status(b, f.w)
  {
    FrameLive(c, b);
    WokenQueues(c, r, o, x, k, f, b);
    WokenStatus(c, r, o, x, k, f, b);
    hide Queues;
    assert StatusOk(c, c.st[x], x, f.w);
    hide Status;
  }

  lemma WokenStatus(c: Core, r: nat, o: nat, x: nat, k: nat, f: Flight, b: Core)
    requires Shape(c) && r < |c.st| && o < 2 && c.st[r].odeps.Get(o) != [] && Live(c, x) && x < |c.st| && k < 3
    requires !c.st[x].ready.Get(k) && x != r && b == Woken(Popped(c, r, o), x, k) && Status(c, f.w) && x !in f.w
    ensures |b.st| == b.R + b.L && Status(b, f.w + {x})
    ensures !(b.st[x].AllReady() && (!b.st[x].inLsq || b.st[x].kind == Store)) ==> Status(b, f.w)
  {
    assert forall z: nat :: Live(b, z) <==> Live(c, z);
    assert StatusOk(c, c.st[x], x, f.w);
    WokenOwn(c, r, o, x, k, f.w, b);
    forall z: nat | Live(b, z) && z != x ensures StatusOk(b, b.st[z], z, f.w) {
      assert Live(c, z) && StatusOk(c, c.st[z], z, f.w);
    }
    hide Woken, Popped;
  }

  lemma WokenOwn(c: Core, r: nat, o: nat, x: nat, k: nat, w: set<nat>, b: Core)
    requires r < |c.st| && o < 2 && c.st[r].odeps.Get(o) != [] && x < |c.st| && k < 3
    requires !c.st[x].ready.Get(k) && x != r && b == Woken(Popped(c, r, o), x, k) && StatusOk(c, c.st[x], x, w)
    ensures StatusOk(b, b.st[x], x, w + {x})
    ensures !(b.st[x].AllReady() && (!b.st[x].inLsq || b.st[x].kind == Store)) ==> StatusOk(b, b.st[x], x, w)
  {
  }

  /** Whether the woken station goes on the ready queue now. */
  predicate Enqueues(s: Station) { s.AllReady() && (!s.inLsq || s.kind == Store) }

  lemma ValidKeeps(c: Core, f: Flight, r: nat, o: nat, l: Link, pool: nat)
    requires Sound(c, f, pool) && f.d == r && Broadcasting(c, r, o) && c.st[r].odeps.Get(o) != []
    requires l == c.st[r].odeps.Get(o)[0] && Valid(c, l) && l.rs !in f.w
    ensures l.rs < |c.st| && l.rs != r && l.x < 3 && !c.st[l.rs].ready.Get(l.x)
    ensures var b := Woken(Popped(c, r, o), l.rs, l.x);
            && (SpecVector(c, r) ==> SpecVector(b, r))
            && (Enqueues(b.st[l.rs]) ==> Sound(b, Holding(f.(w := f.w + {l.rs}), l.id), pool) && MayQueue(b, l.rs))
            && (!Enqueues(b.st[l.rs]) ==> Sound(b, Holding(f, l.id), pool))
  {
    SplitSound(c, f, pool);
    PopLists(c, r, o, f, pool);
    assert InChain(c, r, o, l);
    WokenOperand(c, r, o, l);
    var x, k := l.rs, l.x;
    var b := Woken(Popped(c, r, o), x, k);
    WokenStation(b, x);
    hide *;
    ValidStep(c, r, o, x, k, b);
    ValidChainStep(c, r, o, x, k, b);
    ValidFrame(c, b, x, k, r, f.e);
    FrameSkeleton(c, b);
    FrameSpeculation(c, b, f.e, f.e);
    FrameVectors(c, b, r, r);
    FrameMemory(c, b);
    ValidLists(c, r, o, x, k, f, pool);
    ValidOperands(c, b, r, o, l);
    ValidChains(c, b, r, o, l);
    ValidStatus(c, r, o, x, k, f, b);
    if Enqueues(b.st[x]) {
      WokenJoin(b, f, x, l.id, pool);
    } else {
      HoldingJoin(b, f, l.id, pool);
    }
  }

  lemma WokenStation(b: Core, x: nat)
    requires x < |b.st|
    ensures Enqueues(b.st[x]) <==> (b.st[x].AllReady() && (!b.st[x].inLsq || b.st[x].kind == Store))
  {
  }

  lemma WokenJoin(c: Core, f: Flight, x: nat, id: nat, pool: nat)
    requires Shape(c)
    requires Order(c) && Pairs(c) && Speculation(c, f.e) && LinksOk(c, f.pend) && Status(c, f.w + {x}) && Queues(c, f.pend)
    requires BaseVector(c, f.d) && Operands(c, f.d) && Chains(c, f.d)
    requires MemoryOrder(c) && Timely(c) && Conserved(c, f.pend, f.held + multiset{id}, pool)
    ensures Sound(c, Holding(f.(w := f.w + {x}), id), pool)
  {
    JoinSound(c, Holding(f.(w := f.w + {x}), id), pool);
  }
}
