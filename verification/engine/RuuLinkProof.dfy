/** Linking the operands of a new entry to their producers. */
module RuuLinkProof {
  import opened RuuTypes
  import opened RuuSteps
  import opened RuuInvariants
  import opened RuuLists
  import opened RuuFrame
  import opened RuuAllocateProof

  /** Station `x` is being filled in: it has not started, and nothing younger has names yet. */
  ghost predicate Filling(c: Core, x: nat)
    requires |c.st| == c.R + c.L
  {
    && Live(c, x) && c.st[x].specMode == c.specMode
    && !c.st[x].queued && !c.st[x].issued && !c.st[x].completed
    && (forall z: nat :: Live(c, z) && c.st[z].num > c.st[x].num ==> Untouched(c.st[z]))
  }

  ghost predicate NoOutputs(s: Station) { s.onames == Duo(NA, NA) }

  ghost predicate OperandFree(s: Station, k: nat) { s.ready.Get(k) && s.inames.Get(k) == NA }

  /** The creator dispatch reads for register `n`. */
  function CreatorOf(c: Core, n: Reg): Creator
    requires Shape(c)
  {
    if n == NA then RegFile else if n in c.useSpec then c.scv[n] else c.cv[n]
  }

  /** The create vector finds the latest older writer: it is the creator while uncompleted,
      and the register file is current once it has completed. */
  ghost predicate FindsProducer(c: Core, x: nat, n: Reg)
    requires Shape(c) && x < |c.st|
  {
    var v, m := CreatorOf(c, n), c.st[x].num;
    if v.By? then
      v.odep < 2 && Pending(c, -1, v.slot) && Latest(c, n, m, v.slot) && c.st[v.slot].onames.Get(v.odep) == n
    else forall q: nat :: Latest(c, n, m, q) ==> c.st[q].completed
  }

  /** Below a station without outputs, with only unnamed ones above, "latest so far" and
      "latest older" are the same. */
  lemma LatestBelow(c: Core, x: nat, n: nat, q: nat)
    requires Shape(c) && Order(c) && Filling(c, x) && NoOutputs(c.st[x])
    ensures Latest(c, n, c.instSeq + 1, q) <==> Latest(c, n, c.st[x].num, q)
  {
    assert forall z: nat :: Live(c, z) && Writes(c.st[z], n) ==> c.st[z].num < c.st[x].num;
    assert forall z: nat :: Live(c, z) ==> c.st[z].num < c.instSeq + 1;
  }

  lemma LatestOfBase(c: Core, n: nat, q: nat)
    requires Shape(c) && Order(c) && NoSpecWriter(c, n)
    ensures LatestBase(c, n, q) <==> Latest(c, n, c.instSeq + 1, q)
  {
    assert forall z: nat :: Live(c, z) ==> c.st[z].num < c.instSeq + 1;
  }

  lemma ProducerFound(c: Core, x: nat, n: Reg)
    requires Shape(c) && Order(c) && Filling(c, x) && NoOutputs(c.st[x])
    requires BaseVector(c, -1) && SpecVector(c, -1)
    ensures FindsProducer(c, x, n)
  {
    if n != NA {
      assert if n in c.useSpec then SpecEntry(c, -1, n, c.scv[n]) else NoSpecWriter(c, n);
      assert BaseEntry(c, -1, n, c.cv[n]);
      forall q: nat ensures Latest(c, n, c.st[x].num, q) ==>
        if n in c.useSpec then Latest(c, n, c.instSeq + 1, q) else LatestBase(c, n, q)
      {
        LatestBelow(c, x, n, q);
        if n !in c.useSpec {
          LatestOfBase(c, n, q);
        }
      }
      var v := CreatorOf(c, n);
      if v.By? {
        LatestBelow(c, x, n, v.slot);
        if n !in c.useSpec {
          LatestOfBase(c, n, v.slot);
        }
      }
    }
  }

  // ----- a named operand whose value is in the register file -----

  function Named(c: Core, x: nat, k: nat, n: Reg): Core
    requires x < |c.st|
  {
    With(c, x, c.st[x].(inames := c.st[x].inames.Set(k, n), ready := c.st[x].ready.Set(k, true)))
  }

  lemma NamedFrame(c: Core, x: nat, k: nat, n: Reg)
    requires Shape(c) && x < |c.st| && k < 3 && OperandFree(c.st[x], k) && Timely(c)
    ensures var b := Named(c, x, k, n);
            && Shape(b) && Frame(c, b) && Completes(c, b, -1) && Timely(b) && ReadyGrows(c, b) && SafeStarts(c, b)
            && SameBranches(c, b, -1, -1)
            && (forall z: nat :: z < |c.st| ==> b.st[z] == c.st[z].(inames := b.st[z].inames))
            && (forall z: nat :: z < |c.st| && z != x ==> b.st[z] == c.st[z])
            && (forall j: nat :: j < 3 && j != k ==> b.st[x].inames.Get(j) == c.st[x].inames.Get(j))
            && b.st[x].inames.Get(k) == n && b == c.(st := b.st)
  {
  }

  lemma NamedOperands(c: Core, x: nat, k: nat, n: Reg, b: Core)
    requires Shape(c) && x < |c.st| && k < 3 && OperandFree(c.st[x], k) && Operands(c, -1)
    requires CreatorOf(c, n) == RegFile && FindsProducer(c, x, n) && b == Named(c, x, k, n) && Frame(c, b)
    requires (forall z: nat :: z < |c.st| ==> b.st[z] == c.st[z].(inames := b.st[z].inames))
            && (forall z: nat :: z < |c.st| && z != x ==> b.st[z] == c.st[z])
            && (forall j: nat :: j < 3 && j != k ==> b.st[x].inames.Get(j) == c.st[x].inames.Get(j))
            && b.st[x].inames.Get(k) == n
    ensures Operands(b, -1)
  {
    hide Named;
    FrameLive(c, b);
    FrameLatest(c, b);
    forall z: nat, j: nat | Live(b, z) && j < 3 ensures OperandOk(b, -1, z, j) {
      assert Live(c, z) && OperandOk(c, -1, z, j);
    }
  }

  lemma NamedChains(c: Core, b: Core)
    requires Shape(c) && Frame(c, b) && Chains(c, -1)
    requires forall z: nat :: z < |c.st| ==> b.st[z] == c.st[z].(inames := b.st[z].inames)
    ensures Chains(b, -1)
  {
    FrameLive(c, b);
    forall p: nat, o: nat, l | InChain(b, p, o, l) ensures ChainLinkOk(b, p, o, l) {
      assert InChain(c, p, o, l) && ChainLinkOk(c, p, o, l);
    }
  }

  /** Sameness of what the queues look at, and of a status in which `w` is being filled. */
  lemma FillingQueues(c: Core, b: Core, x: nat, w: set<nat>)
    requires Shape(c) && Frame(c, b) && b.events == c.events && b.readyq == c.readyq
    requires forall z: nat :: z < |c.st| ==>
               b.st[z].queued == c.st[z].queued && b.st[z].issued == c.st[z].issued && b.st[z].completed == c.st[z].completed
    requires forall z: nat :: z < |c.st| && z != x ==> b.st[z].inames == c.st[z].inames && b.st[z].ready == c.st[z].ready
    requires x in w && x < |c.st| && !c.st[x].queued && !c.st[x].issued && !c.st[x].completed
    requires Queues(c, []) && Status(c, w)
    ensures Queues(b, []) && Status(b, w)
  {
    FrameLive(c, b);
    forall z: nat | Live(b, z) ensures QueueOk(b, [], z) && StatusOk(b, b.st[z], z, w) {
      assert Live(c, z) && QueueOk(c, [], z) && StatusOk(c, c.st[z], z, w);
    }
  }

  lemma NamedLists(c: Core, x: nat, k: nat, n: Reg, pool: nat)
    requires Shape(c) && x < |c.st| && Frame(c, Named(c, x, k, n)) && LinksOk(c, []) && Conserved(c, [], multiset{}, pool)
    ensures LinksOk(Named(c, x, k, n), []) && Conserved(Named(c, x, k, n), [], multiset{}, pool)
  {
    var b := Named(c, x, k, n);
    FrameLive(c, b);
    FrameLinks(c, b, [], []);
    SameChainIds(c.st, x, b.st[x]);
    hide ChainIds, Ids;
    assert AllIds(b, []) == AllIds(c, []);
  }

  lemma FillingParts(c: Core, x: nat)
    requires |c.st| == c.R + c.L && Filling(c, x)
    ensures x < |c.st| && Live(c, x) && !c.st[x].queued && !c.st[x].issued && !c.st[x].completed
  {
  }

  lemma NamedKeeps(c: Core, x: nat, k: nat, n: Reg, w: set<nat>, pool: nat)
    requires Sound(c, IDLE.(w := w), pool) && SpecVector(c, -1) && Shape(c) && Filling(c, x) && NoOutputs(c.st[x])
    requires k < 3 && OperandFree(c.st[x], k) && x in w && CreatorOf(c, n) == RegFile
    ensures var b := Named(c, x, k, n);
            Sound(b, IDLE.(w := w), pool) && SpecVector(b, -1) && Shape(b) && b == c.(st := b.st)
  {
    hide *;
    FillingSplit(c, w, pool);
    FillingParts(c, x);
    var b := Named(c, x, k, n);
    ProducerFound(c, x, n);
    NamedFrame(c, x, k, n);
    FrameSkeleton(c, b);
    FrameSpeculation(c, b, -1, -1);
    FrameVectors(c, b, -1, -1);
    FrameMemory(c, b);
    NamedOperands(c, x, k, n, b);
    NamedChains(c, b);
    FillingQueues(c, b, x, w);
    NamedLists(c, x, k, n, pool);
    FillingJoin(b, w, pool);
  }

  lemma FillingSplit(c: Core, w: set<nat>, pool: nat)
    requires Sound(c, IDLE.(w := w), pool)
    ensures Shape(c) && |c.st| == c.R + c.L && |c.cv| == MD_TOTAL_REGS && |c.scv| == MD_TOTAL_REGS
    ensures Order(c) && Pairs(c) && Speculation(c, -1) && LinksOk(c, []) && Status(c, w) && Queues(c, [])
    ensures BaseVector(c, -1) && Operands(c, -1) && Chains(c, -1)
    ensures MemoryOrder(c) && Timely(c) && Conserved(c, [], multiset{}, pool)
  {
    SplitSound(c, IDLE.(w := w), pool);
  }

  // ----- an operand that waits for a producer -----

  function Waiting(c: Core, x: nat, k: nat, n: Reg, p: nat, o: nat): Core
    requires x < |c.st| && p < |c.st| && c.free != []
  {
    var s := c.st[x];
    var a := With(c, x, s.(inames := s.inames.Set(k, n), ready := s.ready.Set(k, false), waitOn := s.waitOn.Set(k, By(p, o))));
    var t := a.st[p];
    With(a, p, t.(odeps := t.odeps.Set(o, [NewLink(c, x, k)] + t.odeps.Get(o)))).(free := c.free[1..])
  }

  /** What linking operand `k` of `x` to output `o` of `p` changes. */
  ghost predicate LinkStep(c: Core, b: Core, x: nat, k: nat, n: Reg, p: nat, o: nat, l: Link) {
    && |b.st| == |c.st| && x < |c.st| && p < |c.st| && x != p && o < 2 && k < 3
    && b == c.(st := b.st, free := b.free) && c.free != [] && b.free == c.free[1..] && l == NewLink(c, x, k)
    && b.st[x].inames == c.st[x].inames.Set(k, n)
    && b.st[x].ready == c.st[x].ready.Set(k, false)
    && b.st[x].waitOn == c.st[x].waitOn.Set(k, By(p, o))
    && b.st[p].odeps.Get(o) == [l] + c.st[p].odeps.Get(o)
    && (forall z: nat :: z < |c.st| && z != x ==>
          b.st[z].inames == c.st[z].inames && b.st[z].ready == c.st[z].ready && b.st[z].waitOn == c.st[z].waitOn)
    && (forall z: nat :: z < |c.st| ==>
          b.st[z].queued == c.st[z].queued && b.st[z].issued == c.st[z].issued && b.st[z].completed == c.st[z].completed)
    && (forall z: nat, u: nat :: z < |c.st| && u < 2 && (z != p || u != o) ==> b.st[z].odeps.Get(u) == c.st[z].odeps.Get(u))
  }

  lemma WaitingStep(c: Core, x: nat, k: nat, n: Reg, p: nat, o: nat)
    requires Shape(c) && x < |c.st| && p < |c.st| && c.free != [] && x != p && o < 2 && k < 3
    ensures var b := Waiting(c, x, k, n, p, o);
            Shape(b) && Frame(c, b) && LinkStep(c, b, x, k, n, p, o, NewLink(c, x, k))
  {
  }

  lemma LinkFrame(c: Core, b: Core, x: nat, k: nat, n: Reg, p: nat, o: nat, l: Link)
    requires Shape(c) && Shape(b) && Frame(c, b) && LinkStep(c, b, x, k, n, p, o, l) && Timely(c)
    ensures Completes(c, b, -1) && Timely(b) && SameBranches(c, b, -1, -1)
  {
  }

  /** No older load can depend on the station being filled in. */
  lemma StartedOlder(c: Core, x: nat, z: nat)
    requires |c.st| == c.R + c.L && Filling(c, x) && Live(c, z) && Started(c.st[z])
    ensures x < |c.st| && c.st[z].num <= c.st[x].num
  {
  }

  lemma LinkMemory(c: Core, b: Core, x: nat, k: nat, n: Reg, p: nat, o: nat, l: Link)
    requires Shape(c) && Frame(c, b) && LinkStep(c, b, x, k, n, p, o, l) && Filling(c, x) && Order(c) && MemoryOrder(c)
    ensures MemoryOrder(b)
  {
    FrameLive(c, b);
    forall z: nat | Live(b, z) && z >= b.R && b.st[z].kind == Load && Started(b.st[z]) ensures LoadSafe(b, z) {
      assert Live(c, z) && LoadSafe(c, z);
      StartedOlder(c, x, z);
      LinkLoad(c, b, x, k, n, p, o, l, z);
    }
  }

  lemma LinkLoad(c: Core, b: Core, x: nat, k: nat, n: Reg, p: nat, o: nat, l: Link, z: nat)
    requires Shape(c) && Shape(b) && Frame(c, b) && LinkStep(c, b, x, k, n, p, o, l) && LoadSafe(c, z)
    requires Live(c, z) && c.st[z].num <= c.st[x].num
    ensures LoadSafe(b, z)
  {
    assert forall y: nat :: Live(b, y) <==> Live(c, y);
    assert forall y: nat :: IsOlderStore(b, z, y) <==> IsOlderStore(c, z, y);
    assert forall y: nat :: YoungestOlderStore(b, z, y) ==> YoungestOlderStore(c, z, y);
  }

  lemma NoLinkYet(c: Core, x: nat, k: nat, p: nat, o: nat)
    requires Shape(c) && Live(c, x) && k < 3 && c.st[x].ready.Get(k) && Chains(c, -1) && p < |c.st| && o < 2
    ensures OpKeys(c.st[p].odeps.Get(o))[Key(x, c.st[x].tag, k)] == 0
  {
    var q := c.st[p].odeps.Get(o);
    forall l | l in q ensures !(l.rs == x && l.tag == c.st[x].tag && l.x == k) {
      assert InChain(c, p, o, l) && ChainLinkOk(c, p, o, l);
    }
    NoOpKey(q, x, c.st[x].tag, k);
  }

  lemma LinkOperands(c: Core, b: Core, x: nat, k: nat, n: Reg, p: nat, o: nat, l: Link)
    requires Shape(c) && Frame(c, b) && LinkStep(c, b, x, k, n, p, o, l) && Live(c, x) && OperandFree(c.st[x], k)
    requires CreatorOf(c, n) == By(p, o) && FindsProducer(c, x, n) && Operands(c, -1) && Chains(c, -1)
    ensures Operands(b, -1)
  {
    FrameLive(c, b);
    forall z: nat, j: nat | Live(b, z) && j < 3 ensures OperandOk(b, -1, z, j) {
      if z == x && j == k {
        NewOperand(c, b, x, k, n, p, o, l);
      } else {
        OldOperand(c, b, x, k, n, p, o, l, z, j);
      }
    }
  }

  /** The operand just linked waits for its producer with exactly one link. */
  lemma NewOperand(c: Core, b: Core, x: nat, k: nat, n: Reg, p: nat, o: nat, l: Link)
    requires Shape(c) && Frame(c, b) && LinkStep(c, b, x, k, n, p, o, l) && Live(c, x) && OperandFree(c.st[x], k)
    requires CreatorOf(c, n) == By(p, o) && FindsProducer(c, x, n) && Chains(c, -1)
    ensures |b.st| == b.R + b.L && OperandOk(b, -1, x, k)
  {
    FrameLive(c, b);
    OneLatest(c, b, n, c.st[x].num, p);
    NoLinkYet(c, x, k, p, o);
    PushFacts(l, c.st[p].odeps.Get(o));
    hide Latest, OpKeys, Chains, Shape;
    assert n != NA;
    assert WaitsOn(b, -1, x, k, p, o);
  }

  lemma OldOperand(c: Core, b: Core, x: nat, k: nat, n: Reg, p: nat, o: nat, l: Link, z: nat, j: nat)
    requires Shape(c) && Frame(c, b) && LinkStep(c, b, x, k, n, p, o, l)
    requires Operands(c, -1) && Live(c, z) && j < 3 && (z != x || j != k)
    ensures |b.st| == b.R + b.L && OperandOk(b, -1, z, j)
  {
    FrameLive(c, b);
    FrameLatest(c, b);
    PushFacts(l, c.st[p].odeps.Get(o));
    assert OperandOk(c, -1, z, j);
    hide Latest, OpKeys, Operands, Ids, Keys, Live, Frame;
    OldSlot(c, b, x, k, n, p, o, l, z, j);
    hide LinkStep;
    if !c.st[z].ready.Get(j) {
      OldWait(c, b, x, k, n, p, o, l, z, j);
    }
  }

  lemma OldSlot(c: Core, b: Core, x: nat, k: nat, n: Reg, p: nat, o: nat, l: Link, z: nat, j: nat)
    requires Frame(c, b) && LinkStep(c, b, x, k, n, p, o, l) && z < |c.st| && j < 3 && (z != x || j != k)
    ensures |b.st| == |c.st| && b.st[z].num == c.st[z].num && (forall q: nat :: q < |c.st| ==> b.st[q].completed == c.st[q].completed)
    ensures b.st[z].ready.Get(j) == c.st[z].ready.Get(j) && b.st[z].inames.Get(j) == c.st[z].inames.Get(j)
    ensures b.st[p].odeps.Get(o) == [l] + c.st[p].odeps.Get(o)
  {
  }

  lemma OldWait(c: Core, b: Core, x: nat, k: nat, n: Reg, p: nat, o: nat, l: Link, z: nat, j: nat)
    requires Shape(c) && Shape(b) && Frame(c, b) && LinkStep(c, b, x, k, n, p, o, l) && Live(c, z) && j < 3 && (z != x || j != k)
    requires OpKeys(b.st[p].odeps.Get(o)) == OpKeys(c.st[p].odeps.Get(o)) + multiset{Key(l.rs, l.tag, l.x)}
    requires forall m: nat, q: nat :: Latest(b, c.st[z].inames.Get(j), m, q) <==> Latest(c, c.st[z].inames.Get(j), m, q)
    requires var v := c.st[z].waitOn.Get(j); v.By? && WaitsOn(c, -1, z, j, v.slot, v.odep)
    ensures var v := b.st[z].waitOn.Get(j); v.By? && WaitsOn(b, -1, z, j, v.slot, v.odep)
  {
    hide Latest, OpKeys, Ids, Keys;
    assert b.st[z].waitOn.Get(j) == c.st[z].waitOn.Get(j);
    var q, u := c.st[z].waitOn.Get(j).slot, c.st[z].waitOn.Get(j).odep;
    assert Key(z, c.st[z].tag, j) != Key(l.rs, l.tag, l.x);
    assert (q != p || u != o) ==> b.st[q].odeps.Get(u) == c.st[q].odeps.Get(u);
  }

  lemma LinkChains(c: Core, b: Core, x: nat, k: nat, n: Reg, p: nat, o: nat, l: Link)
    requires Shape(c) && Frame(c, b) && LinkStep(c, b, x, k, n, p, o, l) && Live(c, x) && OperandFree(c.st[x], k)
    requires CreatorOf(c, n) == By(p, o) && FindsProducer(c, x, n) && Chains(c, -1)
    ensures Chains(b, -1)
  {
    FrameLive(c, b);
    forall z: nat, u: nat, m | InChain(b, z, u, m) ensures ChainLinkOk(b, z, u, m) {
      if m != l || z != p || u != o {
        assert InChain(c, z, u, m) && ChainLinkOk(c, z, u, m);
      }
    }
    forall z: nat, u: nat | z < |b.st| && u < 2 && b.st[z].odeps.Get(u) != []
      ensures Pending(b, -1, z) && b.st[z].onames.Get(u) != NA
    {
      if z != p || u != o {
        assert c.st[z].odeps.Get(u) != [];
      }
    }
  }

  lemma LinkLinks(c: Core, b: Core, x: nat, k: nat, n: Reg, p: nat, o: nat, l: Link)
    requires Shape(c) && Frame(c, b) && LinkStep(c, b, x, k, n, p, o, l) && Live(c, x) && Order(c) && LinksOk(c, [])
    ensures LinksOk(b, [])
  {
    FrameLive(c, b);
    assert LinkOk(c, l);
    forall z: nat, u: nat, m | InChain(b, z, u, m) ensures LinkOk(b, m) {
      assert m == l || InChain(c, z, u, m);
    }
  }

  lemma WaitingIds(c: Core, x: nat, k: nat, n: Reg, p: nat, o: nat, pool: nat)
    requires Shape(c) && x < |c.st| && p < |c.st| && c.free != [] && x != p && o < 2
    requires Conserved(c, [], multiset{}, pool)
    ensures Conserved(Waiting(c, x, k, n, p, o), [], multiset{}, pool)
  {
    var s := c.st[x];
    var s1 := s.(inames := s.inames.Set(k, n), ready := s.ready.Set(k, false), waitOn := s.waitOn.Set(k, By(p, o)));
    var t := c.st[p];
    var l := NewLink(c, x, k);
    var t1 := t.(odeps := t.odeps.Set(o, [l] + t.odeps.Get(o)));
    SameChainIds(c.st, x, s1);
    PushStationIds(t, o, l);
    PushChainIds(c.st[x := s1], p, t1, l.id);
    WaitingMove(c, Waiting(c, x, k, n, p, o));
  }

  lemma PushStationIds(s: Station, o: nat, l: Link)
    requires o < 2
    ensures StationIds(s.(odeps := s.odeps.Set(o, [l] + s.odeps.Get(o)))) == StationIds(s) + multiset{l.id}
  {
    PushFacts(l, s.odeps.Get(o));
    hide Ids;
    var m := multiset{l.id};
    if o == 0 {
      Swap3(Ids(s.odeps.a), m, Ids(s.odeps.b));
    } else {
      assert Ids(s.odeps.a) + (Ids(s.odeps.b) + m) == (Ids(s.odeps.a) + Ids(s.odeps.b)) + m;
    }
  }

  lemma PushChainIds(st: seq<Station>, p: nat, t: Station, id: nat)
    requires p < |st| && StationIds(t) == StationIds(st[p]) + multiset{id}
    ensures ChainIds(st[p := t]) == ChainIds(st) + multiset{id}
  {
    ChainIdsUpdate(st, p, t);
    hide ChainIds, StationIds;
    var m := multiset{id};
    assert ChainIds(st[p := t]) + StationIds(st[p]) == (ChainIds(st) + m) + StationIds(st[p]);
    Cancel(ChainIds(st[p := t]), ChainIds(st) + m, StationIds(st[p]));
  }

  /** One record moved from the free list to a chain. */
  lemma WaitingMove(c: Core, b: Core)
    requires c.free != [] && b.free == c.free[1..] && b.events == c.events && b.readyq == c.readyq
    requires ChainIds(b.st) == ChainIds(c.st) + multiset{c.free[0]}
    ensures AllIds(b, []) == AllIds(c, [])
  {
    FreeHead(c.free);
    hide ChainIds, Ids;
  }

  lemma WaitingKeeps(c: Core, x: nat, k: nat, n: Reg, p: nat, o: nat, w: set<nat>, pool: nat)
    requires Sound(c, IDLE.(w := w), pool) && SpecVector(c, -1) && Shape(c) && Filling(c, x) && NoOutputs(c.st[x])
    requires k < 3 && OperandFree(c.st[x], k) && x in w && CreatorOf(c, n) == By(p, o) && c.free != []
    ensures p < |c.st| && x != p && o < 2
    ensures var b := Waiting(c, x, k, n, p, o);
            && Sound(b, IDLE.(w := w), pool) && SpecVector(b, -1) && Shape(b)
            && LinkStep(c, b, x, k, n, p, o, NewLink(c, x, k)) && Frame(c, b)
  {
    FillingSplit(c, w, pool);
    FillingParts(c, x);
    ProducerFound(c, x, n);
    ProducerApart(c, x, n, p, o);
    hide *;
    var b, l := Waiting(c, x, k, n, p, o), NewLink(c, x, k);
    WaitingStep(c, x, k, n, p, o);
    LinkFrame(c, b, x, k, n, p, o, l);
    FrameSkeleton(c, b);
    FrameSpeculation(c, b, -1, -1);
    FrameVectors(c, b, -1, -1);
    LinkMemory(c, b, x, k, n, p, o, l);
    LinkOperands(c, b, x, k, n, p, o, l);
    LinkChains(c, b, x, k, n, p, o, l);
    LinkQueues(c, b, x, k, n, p, o, l, w);
    LinkLinks(c, b, x, k, n, p, o, l);
    WaitingIds(c, x, k, n, p, o, pool);
    FillingJoin(b, w, pool);
  }

  lemma ProducerApart(c: Core, x: nat, n: Reg, p: nat, o: nat)
    requires Shape(c) && x < |c.st| && FindsProducer(c, x, n) && CreatorOf(c, n) == By(p, o)
    ensures p < |c.st| && x != p && o < 2
  {
  }

  lemma LinkQueues(c: Core, b: Core, x: nat, k: nat, n: Reg, p: nat, o: nat, l: Link, w: set<nat>)
    requires Shape(c) && Frame(c, b) && LinkStep(c, b, x, k, n, p, o, l) && x in w
    requires !c.st[x].queued && !c.st[x].issued && !c.st[x].completed && Queues(c, []) && Status(c, w)
    ensures Queues(b, []) && Status(b, w)
  {
    FillingQueues(c, b, x, w);
  }

  // ----- the three operands -----

  /** What filling in station `x` leaves alone: all but `x` itself, the producers' chains and
      the free list. */
  ghost predicate OnlyLinks(c: Core, b: Core, x: nat) {
    && b == c.(st := b.st, free := b.free) && |b.st| == |c.st| && x < |c.st|
    && (forall z: nat :: z < |c.st| && z != x ==> b.st[z] == c.st[z].(odeps := b.st[z].odeps))
    && b.st[x] == c.st[x].(inames := b.st[x].inames, ready := b.st[x].ready, waitOn := b.st[x].waitOn, odeps := b.st[x].odeps)
  }

  lemma OnlyLinksFilling(c: Core, b: Core, x: nat)
    requires Shape(c) && OnlyLinks(c, b, x) && Filling(c, x) && NoOutputs(c.st[x])
    ensures |b.st| == b.R + b.L && Filling(b, x) && NoOutputs(b.st[x]) && Tail(b) == Tail(c) && LsqTail(b) == LsqTail(c)
  {
    assert forall z: nat :: Live(b, z) ==> Live(c, z);
  }

  lemma LinkIdepIs(c: Core, x: nat, k: nat, n: Reg)
    requires Shape(c) && x < |c.st|
    ensures var v := CreatorOf(c, n);
            && (v == RegFile ==> LinkIdep(c, x, k, n) == Ok(Named(c, x, k, n)))
            && (v.By? && c.free == [] ==> LinkIdep(c, x, k, n) == Stop(OutOfLinks))
            && (v.By? && c.free != [] ==> v.slot < |c.st| && LinkIdep(c, x, k, n) == Ok(Waiting(c, x, k, n, v.slot, v.odep)))
  {
  }

  /** Operand `k` of `x` is linked; the others are as before. */
  ghost predicate LinkedOne(c: Core, b: Core, x: nat, k: nat, n: Reg) {
    && OnlyLinks(c, b, x) && b.st[x].inames == c.st[x].inames.Set(k, n)
    && (forall j: nat :: j < 3 && j != k ==> b.st[x].ready.Get(j) == c.st[x].ready.Get(j))
  }

  lemma NamedOnly(c: Core, x: nat, k: nat, n: Reg)
    requires Shape(c) && x < |c.st| && k < 3
    ensures LinkedOne(c, Named(c, x, k, n), x, k, n)
  {
  }

  lemma WaitingOnly(c: Core, b: Core, x: nat, k: nat, n: Reg, p: nat, o: nat, l: Link)
    requires Frame(c, b) && LinkStep(c, b, x, k, n, p, o, l)
    ensures LinkedOne(c, b, x, k, n)
  {
  }

  ghost predicate LinkGood(c: Core, r: Outcome, x: nat, k: nat, n: Reg, w: set<nat>, pool: nat) {
    match r
    case Ok(b) => Sound(b, IDLE.(w := w), pool) && SpecVector(b, -1) && LinkedOne(c, b, x, k, n)
    case Stop(why) => why == OutOfLinks
  }

  lemma LinkIdepKeeps(c: Core, x: nat, k: nat, n: Reg, w: set<nat>, pool: nat)
    requires Sound(c, IDLE.(w := w), pool) && SpecVector(c, -1) && Shape(c) && Filling(c, x) && NoOutputs(c.st[x])
    requires k < 3 && OperandFree(c.st[x], k) && x in w
    ensures LinkGood(c, LinkIdep(c, x, k, n), x, k, n, w, pool)
  {
    FillingParts(c, x);
    LinkIdepIs(c, x, k, n);
    var v := CreatorOf(c, n);
    if v == RegFile {
      NamedKeeps(c, x, k, n, w, pool);
      NamedOnly(c, x, k, n);
    } else if c.free != [] {
      WaitingKeeps(c, x, k, n, v.slot, v.odep, w, pool);
      WaitingOnly(c, Waiting(c, x, k, n, v.slot, v.odep), x, k, n, v.slot, v.odep, NewLink(c, x, k));
    }
    hide Sound, SpecVector, Filling, LinkIdep, Named, Waiting, LinkedOne, Shape, CreatorOf, LinkStep, Frame;
  }
}
