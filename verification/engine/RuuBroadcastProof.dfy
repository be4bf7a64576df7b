/** One completion: recovery if it is a mispredicted branch, then both result broadcasts. */
module RuuBroadcastProof {
  import opened RuuTypes
  import opened RuuSteps
  import opened RuuInvariants
  import opened RuuLists
  import opened RuuFrame
  import opened RuuQueueProof
  import opened RuuIssueProof
  import opened RuuWakeProof

  function Sending(r: nat): Flight { IDLE.(d := r) }

  /** Station `r` has completed and is telling its consumers. */
  ghost predicate Sends(c: Core, r: nat, pool: nat) {
    Sound(c, Sending(r), pool) && SpecVector(c, r) && r < |c.st| && Live(c, r) && c.st[r].completed
  }

  /** A wake-up leaves the create vector and the other chain of the sender alone. */
  ghost predicate SameSender(c: Core, b: Core, r: nat, o: nat) {
    && b.cv == c.cv && b.scv == c.scv && b.useSpec == c.useSpec && b.events == c.events
    && |b.st| == |c.st| && r < |c.st| && o < 2
    && b.st[r].onames == c.st[r].onames && b.st[r].odeps.Get(1 - o) == c.st[r].odeps.Get(1 - o)
  }

  /** `WakeFirst` in terms of the proof's steps. */
  lemma WakeFirstIs(c: Core, r: nat, o: nat)
    requires Shape(c) && r < |c.st| && o < 2 && c.st[r].odeps.Get(o) != []
    requires var l := c.st[r].odeps.Get(o)[0];
             Valid(c, l) ==> l.rs != r && !c.st[l.rs].ready.Get(l.x) && !c.st[l.rs].queued
    ensures var l := c.st[r].odeps.Get(o)[0];
            var a := Popped(c, r, o);
            && (!Valid(c, l) ==> WakeFirst(c, r, o) == Ok(Free(a, l.id)))
            && (Valid(c, l) ==>
                  var b := Woken(a, l.rs, l.x);
                  Shape(b) &&
                  if Enqueues(b.st[l.rs]) then
                    var e := Enqueue(b, l.rs);
                    WakeFirst(c, r, o) == if e.Ok? then Ok(Free(e.core, l.id)) else e
                  else WakeFirst(c, r, o) == Ok(Free(b, l.id)))
  {
    var l := c.st[r].odeps.Get(o)[0];
    if Valid(c, l) {
      WakeFirstValid(c, r, o, l);
    }
  }

  /** Enqueueing looks only at the station, the free list and the ready queue. */
  lemma EnqueueAlike(a: Core, b: Core, x: nat)
    requires Shape(a) && Shape(b) && x < |a.st| && x < |b.st|
    requires a.st[x] == b.st[x] && a.free == b.free && a.readyq == b.readyq
    ensures Enqueue(a, x).Ok? <==> Enqueue(b, x).Ok?
    ensures Enqueue(a, x).Ok? ==>
              && Enqueue(a, x).core == a.(st := a.st[x := b.st[x].(queued := true)], free := Enqueue(b, x).core.free, readyq := Enqueue(b, x).core.readyq)
              && Enqueue(b, x).core == b.(st := b.st[x := b.st[x].(queued := true)], free := Enqueue(b, x).core.free, readyq := Enqueue(b, x).core.readyq)
    ensures Enqueue(a, x).Stop? ==> Enqueue(a, x) == Enqueue(b, x)
  {
  }

  function PopChain(s: Station, o: nat): Station
    requires s.odeps.Get(o) != []
  {
    s.(odeps := s.odeps.Set(o, s.odeps.Get(o)[1..]))
  }

  lemma Swap(st: seq<Station>, x: nat, r: nat, s: Station, t: Station)
    requires x < |st| && r < |st| && x != r
    ensures st[x := s][r := t] == st[r := t][x := s]
  {
  }

  lemma WakeFirstValid(c: Core, r: nat, o: nat, l: Link)
    requires Shape(c) && r < |c.st| && o < 2 && c.st[r].odeps.Get(o) != [] && l == c.st[r].odeps.Get(o)[0]
    requires Valid(c, l) && l.rs != r && !c.st[l.rs].ready.Get(l.x) && !c.st[l.rs].queued
    ensures var b := Woken(Popped(c, r, o), l.rs, l.x);
            Shape(b) &&
            if Enqueues(b.st[l.rs]) then
              var e := Enqueue(b, l.rs);
              WakeFirst(c, r, o) == if e.Ok? then Ok(Free(e.core, l.id)) else e
            else WakeFirst(c, r, o) == Ok(Free(b, l.id))
  {
    var x, k := l.rs, l.x;
    var s1 := c.st[x].(ready := c.st[x].ready.Set(k, true));
    var t := PopChain(c.st[r], o);
    var a, b := With(c, x, s1), Woken(Popped(c, r, o), x, k);
    assert b == With(With(c, r, t), x, s1);
    Swap(c.st, x, r, s1, t);
    assert b == With(a, r, t);
    if Enqueues(s1) {
      assert Satisfy(c, x, k) == Enqueue(a, x);
      EnqueueAlike(a, b, x);
      Swap(a.st, x, r, s1.(queued := true), t);
      WakeQueued(c, a, b, r, o, l, t);
    } else {
      assert Satisfy(c, x, k) == Ok(a);
    }
  }

  lemma WakeQueued(c: Core, a: Core, b: Core, r: nat, o: nat, l: Link, t: Station)
    requires Shape(c) && r < |c.st| && o < 2 && c.st[r].odeps.Get(o) != [] && l == c.st[r].odeps.Get(o)[0]
    requires Valid(c, l) && l.rs != r && t == PopChain(c.st[r], o)
    requires Shape(a) && Shape(b) && SameSize(c, a) && Satisfy(c, l.rs, l.x) == Enqueue(a, l.rs)
    requires a.st[r] == c.st[r] && b == With(a, r, t)
    ensures var e := Enqueue(b, l.rs); WakeFirst(c, r, o) == if e.Ok? then Ok(Free(e.core, l.id)) else e
  {
    var x := l.rs;
    EnqueueAlike(a, b, x);
    var e := Enqueue(a, x);
    if e.Ok? {
      Swap(a.st, x, r, b.st[x].(queued := true), t);
      assert e.core.st[r] == c.st[r];
      assert With(e.core, r, t).st == Enqueue(b, x).core.st;
    }
  }

  // ----- wake-ups -----

  lemma FirstLink(c: Core, r: nat, o: nat, pool: nat)
    requires Sends(c, r, pool) && o < 2 && c.st[r].odeps.Get(o) != []
    ensures Shape(c) && Broadcasting(c, r, o)
    ensures var l := c.st[r].odeps.Get(o)[0];
            Valid(c, l) ==> l.rs != r && l.x < 3 && !c.st[l.rs].ready.Get(l.x) && !c.st[l.rs].queued
  {
    SplitSound(c, Sending(r), pool);
    FirstLinkFacts(c, r, o);
  }

  lemma FirstLinkFacts(c: Core, r: nat, o: nat)
    requires Shape(c) && Live(c, r) && c.st[r].completed && o < 2 && c.st[r].odeps.Get(o) != []
    requires Order(c) && LinksOk(c, []) && Operands(c, r) && Chains(c, r) && Status(c, {})
    ensures var l := c.st[r].odeps.Get(o)[0];
            Valid(c, l) ==> l.rs != r && l.x < 3 && !c.st[l.rs].ready.Get(l.x) && !c.st[l.rs].queued
  {
    var l := c.st[r].odeps.Get(o)[0];
    assert InChain(c, r, o, l);
    if Valid(c, l) {
      WokenOperand(c, r, o, l);
      assert StatusOk(c, c.st[l.rs], l.rs, {});
    }
  }

  lemma WakeFirstKeeps(c: Core, r: nat, o: nat, pool: nat)
    requires Sends(c, r, pool) && o < 2 && Shape(c) && c.st[r].odeps.Get(o) != []
    ensures match WakeFirst(c, r, o)
            case Ok(b) => Sends(b, r, pool) && SameSender(c, b, r, o)
            case Stop(why) => why == OutOfLinks
  {
    var l, f := c.st[r].odeps.Get(o)[0], Sending(r);
    FirstLink(c, r, o, pool);
    WakeFirstIs(c, r, o);
    if !Valid(c, l) {
      WakeStale(c, r, o, l, pool);
    } else {
      WakeValid(c, r, o, l, pool);
    }
  }

  lemma WakeStale(c: Core, r: nat, o: nat, l: Link, pool: nat)
    requires Sends(c, r, pool) && o < 2 && c.st[r].odeps.Get(o) != [] && Broadcasting(c, r, o)
    requires l == c.st[r].odeps.Get(o)[0] && !Valid(c, l)
    ensures var b := Free(Popped(c, r, o), l.id); Sends(b, r, pool) && SameSender(c, b, r, o)
  {
    ChainSlot(c, r, o);
    var f, a := Sending(r), Popped(c, r, o);
    PoppedSender(c, r, o);
    hide *;
    SendsSplit(c, r, pool);
    StaleKeeps(c, f, r, o, l.id, pool);
    FreeKeeps(a, f, l.id, pool);
    PoppedLive(c, r, o);
    FreeSender(c, a, r, o, l.id);
    SoundShape(Free(a, l.id), f, pool);
    SendsJoin(Free(a, l.id), r, pool);
  }

  lemma ChainSlot(c: Core, r: nat, o: nat)
    requires Broadcasting(c, r, o)
    ensures r < |c.st|
  {
  }

  lemma PoppedSender(c: Core, r: nat, o: nat)
    requires r < |c.st| && o < 2 && c.st[r].odeps.Get(o) != []
    ensures SameSender(c, Popped(c, r, o), r, o) && r < |Popped(c, r, o).st|
  {
  }

  lemma PoppedLive(c: Core, r: nat, o: nat)
    requires r < |c.st| && o < 2 && c.st[r].odeps.Get(o) != [] && Live(c, r) && c.st[r].completed
    ensures r < |Popped(c, r, o).st| && Live(Popped(c, r, o), r) && Popped(c, r, o).st[r].completed
  {
  }

  lemma WokenSender(c: Core, r: nat, o: nat, x: nat, k: nat)
    requires Shape(c) && Live(c, r) && c.st[r].completed && o < 2 && c.st[r].odeps.Get(o) != [] && x < |c.st| && x != r
    ensures var b := Woken(Popped(c, r, o), x, k);
            Shape(b) && SameSender(c, b, r, o) && Live(b, r) && b.st[r].completed
  {
  }

  lemma FreeSender(c: Core, b: Core, r: nat, o: nat, id: nat)
    requires SameSender(c, b, r, o) && Live(b, r) && b.st[r].completed
    ensures SameSender(c, Free(b, id), r, o) && Live(Free(b, id), r) && Free(b, id).st[r].completed
  {
  }

  lemma SendsJoin(b: Core, r: nat, pool: nat)
    requires Shape(b) && Sound(b, Sending(r), pool) && SpecVector(b, r) && r < |b.st| && Live(b, r) && b.st[r].completed
    ensures Sends(b, r, pool)
  {
  }

  lemma SendsSplit(b: Core, r: nat, pool: nat)
    requires Sends(b, r, pool)
    ensures Shape(b) && Sound(b, Sending(r), pool) && SpecVector(b, r) && r < |b.st| && Live(b, r) && b.st[r].completed
    ensures Sending(r).d == r && Sending(r).w == {}
  {
  }

  lemma FlightBack(f: Flight, x: nat, id: nat)
    requires f.w == {}
    ensures var g := Holding(f.(w := f.w + {x}), id); g.(w := g.w - {x}) == Holding(f, id) && g.d == f.d
  {
    assert f.w + {x} - {x} == f.w;
  }

  lemma SoundShape(c: Core, f: Flight, pool: nat)
    requires Sound(c, f, pool)
    ensures Shape(c)
  {
  }

  lemma WakeEnqueued(b: Core, f: Flight, x: nat, id: nat, r: nat, pool: nat)
    requires f == Sending(r) && Sound(b, Holding(f.(w := f.w + {x}), id), pool) && Shape(b) && SpecVector(b, r) && MayQueue(b, x)
    requires x < |b.st| && r < |b.st| && x != r && Live(b, r) && b.st[r].completed
    ensures var e := Enqueue(b, x);
            if e.Ok? then Sends(Free(e.core, id), r, pool) else e == Stop(OutOfLinks)
  {
    hide *;
    FlightIs(r);
    FlightBack(f, x, id);
    EnqueueKeeps(b, x, Holding(f.(w := f.w + {x}), id), pool);
    var e := Enqueue(b, x);
    if e.Ok? {
      FreeKeeps(e.core, f, id, pool);
      EnqueueSender(b, x, r);
      FreeLive(e.core, id, r);
      SoundShape(Free(e.core, id), f, pool);
      SendsJoin(Free(e.core, id), r, pool);
    }
  }

  lemma FlightIs(r: nat)
    ensures Sending(r).d == r && Sending(r).w == {}
  {
  }

  lemma FreeLive(b: Core, id: nat, r: nat)
    requires r < |b.st| && Live(b, r)
    ensures Live(Free(b, id), r) && Free(b, id).st == b.st
  {
  }

  lemma WakeValid(c: Core, r: nat, o: nat, l: Link, pool: nat)
    requires Sends(c, r, pool) && o < 2 && Shape(c) && c.st[r].odeps.Get(o) != [] && Broadcasting(c, r, o)
    requires l == c.st[r].odeps.Get(o)[0] && Valid(c, l)
    requires l.rs != r && Shape(Woken(Popped(c, r, o), l.rs, l.x))
    ensures var b := Woken(Popped(c, r, o), l.rs, l.x);
            if Enqueues(b.st[l.rs]) then
              var e := Enqueue(b, l.rs);
              if e.Ok? then Sends(Free(e.core, l.id), r, pool) && SameSender(c, Free(e.core, l.id), r, o)
              else e == Stop(OutOfLinks)
            else Sends(Free(b, l.id), r, pool) && SameSender(c, Free(b, l.id), r, o)
  {
    ValidSlot(c, r, o, l);
    hide *;
    var f := Sending(r);
    var b := Woken(Popped(c, r, o), l.rs, l.x);
    SendsSplit(c, r, pool);
    WokenSender(c, r, o, l.rs, l.x);
    ValidKeeps(c, f, r, o, l, pool);
    if Enqueues(b.st[l.rs]) {
      WakeEnqueued(b, f, l.rs, l.id, r, pool);
      var e := Enqueue(b, l.rs);
      if e.Ok? {
        EnqueueSender(b, l.rs, r);
        EnqueueSameSender(c, b, e.core, r, o);
        FreeSender(c, e.core, r, o, l.id);
      }
    } else {
      FreeKeeps(b, f, l.id, pool);
      FreeSender(c, b, r, o, l.id);
      FreeLive(b, l.id, r);
      SoundShape(Free(b, l.id), f, pool);
      SendsJoin(Free(b, l.id), r, pool);
    }
  }

  lemma ValidSlot(c: Core, r: nat, o: nat, l: Link)
    requires Broadcasting(c, r, o) && c.st[r].odeps.Get(o) != [] && Valid(c, l)
    ensures r < |c.st| && l.rs < |c.st| && |Popped(c, r, o).st| == |c.st|
  {
  }

  lemma EnqueueSameSender(c: Core, b: Core, e: Core, r: nat, o: nat)
    requires SameSender(c, b, r, o) && e.cv == b.cv && e.scv == b.scv && e.useSpec == b.useSpec && e.events == b.events
    requires |e.st| == |b.st| && e.st[r] == b.st[r]
    ensures SameSender(c, e, r, o)
  {
  }

  lemma EnqueueSender(b: Core, x: nat, r: nat)
    requires Shape(b) && x < |b.st| && r < |b.st| && x != r && Enqueue(b, x).Ok?
    ensures var e := Enqueue(b, x).core;
            && e.cv == b.cv && e.scv == b.scv && e.useSpec == b.useSpec && e.events == b.events
            && |e.st| == |b.st| && e.st[r] == b.st[r] && (Live(b, r) ==> Live(e, r))
  {
  }
}
