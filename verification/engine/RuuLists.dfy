/** Facts about link lists: what insertion, removal and freeing do to keys and records. */
module RuuLists {
  import opened RuuTypes
  import opened RuuSteps
  import opened RuuInvariants

  lemma {:induction false} InsertFacts(q: seq<Link>, n: Link)
    ensures Keys(InsertByX(q, n)) == Keys(q) + multiset{Key(n.rs, n.tag, 0)}
    ensures Ids(InsertByX(q, n)) == Ids(q) + multiset{n.id}
    ensures forall l :: l in InsertByX(q, n) <==> l == n || l in q
  {
    if q != [] && q[0].x < n.x {
      InsertFacts(q[1..], n);
      assert InsertByX(q, n)[1..] == InsertByX(q[1..], n);
      assert q == [q[0]] + q[1..];
    } else {
      assert ([n] + q)[1..] == q;
    }
  }

  predicate Sorted(q: seq<Link>) {
    forall i, j :: 0 <= i < j < |q| ==> q[i].x <= q[j].x
  }

  lemma {:induction false} InsertSorted(q: seq<Link>, n: Link)
    requires Sorted(q)
    ensures Sorted(InsertByX(q, n))
  {
    if q != [] && q[0].x < n.x {
      InsertSorted(q[1..], n);
      InsertFacts(q[1..], n);
      PrependSorted(q, InsertByX(q[1..], n), n);
    }
  }

  lemma PrependSorted(q: seq<Link>, r: seq<Link>, n: Link)
    requires q != [] && Sorted(q) && Sorted(r) && q[0].x < n.x
    requires forall l :: l in r <==> l == n || l in q[1..]
    ensures Sorted([q[0]] + r)
  {
    forall j | 0 <= j < |r| ensures q[0].x <= r[j].x {
      assert r[j] in r;
    }
  }

  lemma {:induction false} PushFacts(n: Link, q: seq<Link>)
    ensures Keys([n] + q) == Keys(q) + multiset{Key(n.rs, n.tag, 0)}
    ensures OpKeys([n] + q) == OpKeys(q) + multiset{Key(n.rs, n.tag, n.x)}
    ensures Ids([n] + q) == Ids(q) + multiset{n.id}
  {
    assert ([n] + q)[1..] == q;
  }

  lemma OpKeysHead(q: seq<Link>)
    requires q != []
    ensures OpKeys(q) == OpKeys(q[1..]) + multiset{Key(q[0].rs, q[0].tag, q[0].x)}
  {
    var r := OpKeys(q[1..]);
    assert OpKeys(q) == multiset{Key(q[0].rs, q[0].tag, q[0].x)} + r;
    hide OpKeys;
  }

  lemma {:induction false} NoKey(q: seq<Link>, x: nat, t: nat)
    requires forall l :: l in q ==> !(l.rs == x && l.tag == t)
    ensures Keys(q)[Key(x, t, 0)] == 0
  {
    if q != [] {
      assert q[0] in q;
      NoKey(q[1..], x, t);
    }
  }

  lemma {:induction false} NoOpKey(q: seq<Link>, x: nat, t: nat, k: nat)
    requires forall l :: l in q ==> !(l.rs == x && l.tag == t && l.x == k)
    ensures OpKeys(q)[Key(x, t, k)] == 0
  {
    if q != [] {
      assert q[0] in q;
      NoOpKey(q[1..], x, t, k);
    }
  }

  lemma {:induction false} SomeKey(q: seq<Link>, l: Link)
    requires l in q
    ensures Keys(q)[Key(l.rs, l.tag, 0)] > 0 && OpKeys(q)[Key(l.rs, l.tag, l.x)] > 0
  {
    if q[0] != l {
      SomeKey(q[1..], l);
    }
  }

  lemma {:induction false} FreeChainFacts(free: seq<nat>, chain: seq<Link>)
    ensures multiset(FreeChain(free, chain)) == multiset(free) + Ids(chain)
    decreases |chain|
  {
    if chain != [] {
      FreeChainFacts([chain[0].id] + free, chain[1..]);
    }
  }

  lemma Swap3(a: multiset<nat>, p: multiset<nat>, q: multiset<nat>)
    ensures (a + p) + q == (a + q) + p
  {
  }

  lemma ChainIdsSnoc(st: seq<Station>, i: nat)
    requires st != []
    ensures ChainIds(st)[i] == ChainIds(st[..|st| - 1])[i] + StationIds(st[|st| - 1])[i]
  {
    hide StationIds;
  }

  /** Record by record: replacing a station exchanges the records of its chains. */
  lemma {:induction false} ChainIdsAt(st: seq<Station>, x: nat, s: Station, i: nat)
    requires x < |st|
    ensures ChainIds(st[x := s])[i] + StationIds(st[x])[i] == ChainIds(st)[i] + StationIds(s)[i]
  {
    hide ChainIds, StationIds;
    var n := |st| - 1;
    var t, pre := st[x := s], st[..n];
    ChainIdsSnoc(t, i);
    ChainIdsSnoc(st, i);
    if x == n {
      assert t[..n] == pre;
    } else {
      assert t[..n] == pre[x := s];
      ChainIdsAt(pre, x, s, i);
    }
  }

  lemma ChainIdsUpdate(st: seq<Station>, x: nat, s: Station)
    requires x < |st|
    ensures ChainIds(st[x := s]) + StationIds(st[x]) == ChainIds(st) + StationIds(s)
  {
    hide ChainIds, StationIds;
    forall i: nat ensures (ChainIds(st[x := s]) + StationIds(st[x]))[i] == (ChainIds(st) + StationIds(s))[i] {
      ChainIdsAt(st, x, s, i);
    }
  }

  lemma FreeHead(free: seq<nat>)
    requires free != []
    ensures multiset(free) == multiset(free[1..]) + multiset{free[0]}
  {
    assert free == [free[0]] + free[1..];
  }

  lemma Cancel(a: multiset<nat>, b: multiset<nat>, m: multiset<nat>)
    requires a + m == b + m
    ensures a == b
  {
    forall i: nat ensures a[i] == b[i] {
      assert (a + m)[i] == (b + m)[i];
    }
  }

  /** A station update that touches no chain moves no link record. */
  lemma SameChainIds(st: seq<Station>, x: nat, s: Station)
    requires x < |st| && s.odeps == st[x].odeps
    ensures ChainIds(st[x := s]) == ChainIds(st)
  {
    ChainIdsUpdate(st, x, s);
    Cancel(ChainIds(st[x := s]), ChainIds(st), StationIds(s));
  }

  /** One record moved from the free list to the event or the ready queue. */
  lemma MoveRecord(c: Core, b: Core, pend: seq<Link>)
    requires c.free != [] && b.free == c.free[1..] && ChainIds(b.st) == ChainIds(c.st)
    requires Ids(b.events) + Ids(b.readyq) == Ids(c.events) + Ids(c.readyq) + multiset{c.free[0]}
    ensures AllIds(b, pend) == AllIds(c, pend)
  {
    FreeHead(c.free);
    hide ChainIds, Ids;
    var m := multiset{c.free[0]};
    assert AllIds(b, pend) == multiset(b.free) + (Ids(b.events) + Ids(b.readyq)) + Ids(pend) + ChainIds(b.st);
    assert AllIds(c, pend) == (multiset(b.free) + m) + (Ids(c.events) + Ids(c.readyq)) + Ids(pend) + ChainIds(c.st);
  }

  lemma AddKey(a: multiset<Key>, b: multiset<Key>, k: Key, m: Key)
    requires b == a + multiset{k}
    ensures b[m] == a[m] + (if m == k then 1 else 0)
  {
  }
}
