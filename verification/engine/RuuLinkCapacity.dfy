/** How many link records can be in use between two cycles. */
module RuuLinkCapacity {
  import opened RuuTypes
  import opened RuuInvariants
  import opened RuuNumberSets
  import opened RuuChainCodes
  import opened RuuStill
  import opened RuuEventBound
  import opened RuuNumbers
  import opened RuuConsumers
  import Events = RuuEventProof

  // ----- the ready queue -----

  lemma {:induction false} KeysSize(q: seq<Link>)
    ensures |Keys(q)| == |q| == |Ids(q)|
  {
    if q != [] {
      KeysSize(q[1..]);
    }
  }

  lemma {:induction false} KeyIn(q: seq<Link>, k: Key) returns (l: Link)
    requires k in Keys(q)
    ensures l in q && k == Key(l.rs, l.tag, 0)
  {
    if k == Key(q[0].rs, q[0].tag, 0) {
      l := q[0];
    } else {
      l := KeyIn(q[1..], k);
    }
  }

  ghost function KeySet(q: seq<Key>): set<Key> { set k | k in q }

  lemma {:induction false} KeySetSize(q: seq<Key>)
    ensures |KeySet(q)| <= |q|
  {
    if q != [] {
      KeySetSize(q[1..]);
      var t := KeySet(q[1..]);
      assert KeySet(q) == t + {q[0]};
      assert |t + {q[0]}| <= |t| + 1;
    }
  }

  /** A bag without duplicates is no larger than a set that has all its members. */
  lemma BagInSet(b: multiset<Key>, s: set<Key>)
    requires (forall k :: b[k] <= 1) && (forall k :: k in b ==> k in s)
    ensures |b| <= |s|
  {
    var t := set k | k in b;
    assert b == multiset(t);
    assert s == t + (s - t);
  }

  /** The key of each slot's current instance. */
  function Current(c: Core): seq<Key> { seq(|c.st|, z requires 0 <= z < |c.st| => Key(z, c.st[z].tag, 0)) }

  /** An instance in flight is on the ready queue at most once. */
  lemma ReadyFits(c: Core)
    requires |c.st| == c.R + c.L && Fresh(c) && LinksOk(c, []) && Queues(c, [])
    ensures |c.readyq| <= c.R + c.L
  {
    var b := Keys(c.readyq);
    forall k ensures b[k] <= 1 && (k in b ==> k in KeySet(Current(c))) {
      if k in b {
        var l := KeyIn(c.readyq, k);
        assert Valid(c, l) && LinkOk(c, l) && QueueOk(c, [], l.rs);
        assert Current(c)[l.rs] == k;
      }
    }
    BagInSet(b, KeySet(Current(c)));
    KeySetSize(Current(c));
    KeysSize(c.readyq);
  }

  // ----- the consumer chains -----

  lemma {:induction false} Smallest(s: set<nat>) returns (lo: nat)
    requires s != {}
    ensures lo in s && forall a: nat :: a in s ==> lo <= a
    decreases |s|
  {
    var x :| x in s;
    if t: nat :| t in s && t < x {
      assert t in s - {x};
      lo := Smallest(s - {x});
      assert s == s - {x} + {x};
    } else {
      lo := x;
    }
  }

  ghost predicate Behind(s: set<nat>, k: nat) { exists a: nat :: a in s && 3 * a + 2 < k }

  /** A consumer waits for a producer in flight, and is itself given out already. */
  lemma CodeBetween(c: Core, k: nat)
    requires |c.st| == c.R + c.L && Chains(c, -1) && LinksOk(c, []) && Young(c) && k in ChainCodes(c.st)
    ensures k <= 3 * c.instSeq + 2 && Behind(Nums(c), k)
  {
    var p := ChainCodeIn(c.st, k);
    var o := if k in Codes(c.st[p].odeps.a) then 0 else 1;
    CodeIn(c.st[p].odeps.Get(o), k);
    var l: Link :| l in c.st[p].odeps.Get(o) && Code(l) == k;
    assert InChain(c, p, o, l) && ChainLinkOk(c, p, o, l) && LinkOk(c, l);
    assert Pending(c, -1, p);
    assert c.st[p].num in Nums(c);
  }

  /** Three operands for each number from the oldest entry on. */
  lemma BagSpan(b: multiset<nat>, s: set<nat>, top: nat, n: nat)
    requires n > 0 && |s| <= n && (forall a: nat :: a in s ==> a <= top) && Gaps(s, top, n - 1)
    requires (forall k: nat :: b[k] <= 1) && forall k: nat :: k in b ==> k <= 3 * top + 2 && Behind(s, k)
    ensures |b| <= 3 * (n * n)
  {
    if s == {} {
      assert b == multiset{};
    } else {
      var lo := Smallest(s);
      Span(s, lo, top, n - 1);
      BagBetween(b, 3 * lo + 2, 3 * top + 2);
      ThreeEach(|b|, lo, top, |s|, n);
    }
  }

  lemma ChainsFit(c: Core)
    requires Shape(c) && Order(c) && Chains(c, -1) && LinksOk(c, []) && Consumers(c) && Numbered(c)
    ensures |ChainIds(c.st)| <= 3 * ((c.R + c.L) * (c.R + c.L))
  {
    ChainCodesSize(c.st);
    NumsSize(c);
    NumsGiven(c);
    var b := ChainCodes(c.st);
    forall k: nat | k in b ensures k <= 3 * c.instSeq + 2 && Behind(Nums(c), k) {
      CodeBetween(c, k);
    }
    hide ChainCodes, ChainIds, Chains, LinksOk, Order, Nums, Gaps, Dense, Young, Shape, Behind;
    BagSpan(b, Nums(c), c.instSeq, c.R + c.L);
  }

  lemma NumsGiven(c: Core)
    requires Shape(c) && Order(c)
    ensures forall a: nat :: a in Nums(c) ==> a <= c.instSeq
  {
  }

  lemma ThreeEach(size: nat, lo: nat, top: nat, n: nat, k: nat)
    requires size <= 3 * (top - lo) && top + 1 - lo <= n * k && n <= k
    ensures size <= 3 * (k * k)
  {
    assert n * k <= k * k;
  }

  // ----- all lists -----

  /** Link records that can be in use between two cycles, when `w` operations issue in a cycle
      and no latency exceeds `m`. */
  function MostInUse(R: nat, L: nat, w: nat, m: nat): nat {
    w * m + (R + L) + 3 * ((R + L) * (R + L))
  }

  lemma EventsFew(c: Core, w: nat, m: nat)
    requires EventsFit(c, w, m) && Timely(c)
    ensures |c.events| <= w * m
  {
    AllDue(c.events, c.cycle);
    assert Due(c.events, c.cycle) <= Slots(w, m);
  }

  lemma FreeAre(c: Core, pool: nat)
    requires Conserved(c, [], multiset{}, pool)
    ensures |c.free| == pool - |c.events| - |c.readyq| - |ChainIds(c.st)|
  {
    KeysSize(c.events);
    KeysSize(c.readyq);
    var p := seq(pool, i => i);
    assert |multiset(p)| == pool;
    assert AllIds(c, []) == multiset(p);
    hide ChainIds, Ids;
    assert |multiset(c.free) + Ids(c.events) + Ids(c.readyq) + Ids([]) + ChainIds(c.st)| ==
           |c.free| + |Ids(c.events)| + |Ids(c.readyq)| + |Ids([])| + |ChainIds(c.st)|;
    NoIds();
  }

  lemma NoIds()
    ensures Ids([]) == multiset{}
  {
  }

  lemma EnoughFree(c: Core, w: nat, m: nat, pool: nat)
    requires Inv(c, pool) && Numbered(c) && Consumers(c) && Fresh(c) && EventsFit(c, w, m)
    ensures |c.free| >= pool - MostInUse(c.R, c.L, w, m)
  {
    Events.IdleSplit(c, pool);
    hide *;
    ReadyFits(c);
    ChainsFit(c);
    EventsFew(c, w, m);
    FreeAre(c, pool);
    InUseIs(c.R, c.L, w, m);
  }

  lemma InUseIs(R: nat, L: nat, w: nat, m: nat)
    ensures MostInUse(R, L, w, m) == w * m + (R + L) + 3 * ((R + L) * (R + L))
  {
  }
}
