/** What the cache holds: lookups agree, and cache and memory together are a flat memory. */
module CacheStore {
  import opened Common
  import opened Orders
  import opened CacheModel

  // ----- what a set guarantees -----

  /** At most one valid block per tag. */
  ghost predicate Unique(cs: CSet) {
    forall v, w ::
      0 <= v < |cs.blks| && 0 <= w < |cs.blks| && cs.blks[v].valid && Matches(cs.blks[w], cs.blks[v].tag) ==> v == w
  }

  /** Every way is in exactly one hash chain, once: the chain of its tag. */
  ghost predicate Chained(cfg: Config, cs: CSet)
    requires SetShape(cfg, cs)
  {
    && (forall h :: 0 <= h < |cs.chains| ==> Distinct(cs.chains[h]))
    && (forall h, w :: 0 <= h < |cs.chains| && 0 <= w < cfg.assoc ==>
          (w in cs.chains[h] <==> h == Hash(cs.blks[w].tag, cfg.HSize())))
  }

  ghost predicate SetOk(cfg: Config, cs: CSet) {
    SetShape(cfg, cs) && Unique(cs) && Chained(cfg, cs)
  }

  /** On a list that contains it, the one matching way is found. */
  lemma {:induction false} FindsUnique(list: seq<nat>, blks: seq<Block>, tag: nat, w: nat)
    requires InWays(list, |blks|) && w in list && w < |blks| && Matches(blks[w], tag)
    requires forall v :: 0 <= v < |blks| && Matches(blks[v], tag) ==> v == w
    ensures FindIn(list, blks, tag) == Some(w)
  {
    if list[0] != w {
      FindsUnique(list[1..], blks, tag, w);
    }
  }

  lemma FindsWay(cfg: Config, cs: CSet, tag: nat, w: nat)
    requires SetOk(cfg, cs) && w < cfg.assoc && Matches(cs.blks[w], tag)
    ensures FindIn(cs.order, cs.blks, tag) == Some(w) && Lookup(cfg, cs, tag) == Some(w)
  {
    FindsUnique(cs.order, cs.blks, tag, w);
    if cfg.HSize() > 0 {
      FindsUnique(cs.chains[Hash(tag, cfg.HSize())], cs.blks, tag, w);
    }
  }

  /** The hash chain and the scan of the way list find the same block. */
  lemma LookupsAgree(cfg: Config, cs: CSet, tag: nat)
    requires SetOk(cfg, cs)
    ensures Lookup(cfg, cs, tag) == FindIn(cs.order, cs.blks, tag)
  {
    var f := FindIn(cs.order, cs.blks, tag);
    if f.Some? {
      FindsWay(cfg, cs, tag, f.value);
    }
  }

  // ----- addresses -----

  lemma DivMod(q: nat, r: nat, n: nat)
    requires r < n
    ensures (q * n + r) / n == q && (q * n + r) % n == r
  {
    var x := q * n + r;
    assert x == x / n * n + x % n;
    DivUnique(q, r, x / n, x % n, n);
  }

  lemma Mono(a: int, b: int, n: nat)
    requires a <= b
    ensures a * n <= b * n && (a + 1) * n == a * n + n && (b + 1) * n == b * n + n
  {
  }

  lemma QuotientAtMost(q: int, r: int, p: int, s: int, n: nat)
    requires 0 <= r < n && 0 <= s < n && q * n + r == p * n + s
    ensures q <= p
  {
    if p + 1 <= q {
      Mono(p + 1, q, n);
      Mono(p, p, n);
    }
  }

  lemma DivUnique(q: int, r: int, p: int, s: int, n: nat)
    requires 0 <= r < n && 0 <= s < n && q * n + r == p * n + s
    ensures q == p && r == s
  {
    QuotientAtMost(q, r, p, s, n);
    QuotientAtMost(p, s, q, r, n);
  }

  /** Rebuilding a block address from tag and set gives the block address back. */
  lemma RebuildsAddress(cfg: Config, addr: nat)
    requires GoodConfig(cfg)
    ensures MkBaddr(cfg, Tag(cfg, addr), SetOf(cfg, addr)) == Base(cfg, addr)
  {
    var b := addr / cfg.bsize;
    assert b == b / cfg.nsets * cfg.nsets + b % cfg.nsets;
  }

  /** Tag and set of a rebuilt address are the ones it was built from. */
  lemma RebuiltParts(cfg: Config, tag: nat, s: nat)
    requires GoodConfig(cfg) && s < cfg.nsets
    ensures var a := MkBaddr(cfg, tag, s); Tag(cfg, a) == tag && SetOf(cfg, a) == s && Base(cfg, a) == a
  {
    var b := tag * cfg.nsets + s;
    DivMod(b, 0, cfg.bsize);
    DivMod(tag, s, cfg.nsets);
  }

  lemma BaseParts(cfg: Config, addr: nat)
    requires GoodConfig(cfg)
    ensures var a := Base(cfg, addr);
            Tag(cfg, a) == Tag(cfg, addr) && SetOf(cfg, a) == SetOf(cfg, addr) && Base(cfg, a) == a
    ensures addr == Base(cfg, addr) + Offset(cfg, addr)
  {
    DivMod(addr / cfg.bsize, 0, cfg.bsize);
  }

  // ----- the cache as a flat memory -----

  /** The block at block address `a`, as a processor above the cache sees it; found by the
      scan of the way list. */
  ghost function Flat(c: Cache, a: nat): (d: seq<Byte>)
    requires Shape(c)
    ensures |d| == c.cfg.bsize
  {
    var cs := c.sets[SetOf(c.cfg, a)];
    var f := FindIn(cs.order, cs.blks, Tag(c.cfg, a));
    if f.Some? then cs.blks[f.value].data else Fetch(c.mem, a, c.cfg.bsize)
  }

  /** A clean valid block equals the memory below. */
  ghost predicate CleanOk(c: Cache)
    requires Shape(c)
  {
    forall s, w :: 0 <= s < c.cfg.nsets && 0 <= w < c.cfg.assoc ==> BlockClean(c, s, w)
  }

  ghost predicate BlockClean(c: Cache, s: nat, w: nat)
    requires Shape(c) && s < c.cfg.nsets && w < c.cfg.assoc
  {
    var b := c.sets[s].blks[w];
    b.valid && !b.dirty ==> b.data == Fetch(c.mem, MkBaddr(c.cfg, b.tag, s), c.cfg.bsize)
  }

  /** A further hit on way `w` would leave the replacement state as it is. */
  ghost predicate Settled(policy: Policy, cs: CSet, w: nat)
    requires w < |cs.blks|
  {
    && (policy == LRU ==> cs.order != [] && cs.order[0] == w)
    && (policy == NRU ==> !cs.blks[w].nru)
    && (policy == DRRIP ==> cs.blks[w].rrpv == 0)
  }

  /** The remembered block is valid, where it belongs and settled. */
  ghost predicate LastOk(c: Cache)
    requires Shape(c)
  {
    if !c.lastSome then c.lastTagset == 0
    else
      && Base(c.cfg, c.lastTagset) == c.lastTagset && c.lastSet == SetOf(c.cfg, c.lastTagset)
      && Matches(c.sets[c.lastSet].blks[c.lastWay], Tag(c.cfg, c.lastTagset))
      && Settled(c.cfg.policy, c.sets[c.lastSet], c.lastWay)
  }

  ghost predicate SetsOk(c: Cache)
    requires Shape(c)
  {
    forall s :: 0 <= s < c.cfg.nsets ==> SetOk(c.cfg, c.sets[s])
  }

  ghost predicate Inv(c: Cache) {
    Shape(c) && SetsOk(c) && CleanOk(c) && LastOk(c)
  }

  lemma FlatFound(c: Cache, a: nat, w: nat)
    requires Shape(c) && SetsOk(c) && w < c.cfg.assoc && Matches(c.sets[SetOf(c.cfg, a)].blks[w], Tag(c.cfg, a))
    ensures Flat(c, a) == c.sets[SetOf(c.cfg, a)].blks[w].data
  {
    FindsWay(c.cfg, c.sets[SetOf(c.cfg, a)], Tag(c.cfg, a), w);
  }

  lemma FlatAbsent(c: Cache, a: nat)
    requires Shape(c) && forall w :: 0 <= w < c.cfg.assoc ==> !Matches(c.sets[SetOf(c.cfg, a)].blks[w], Tag(c.cfg, a))
    ensures Flat(c, a) == Fetch(c.mem, a, c.cfg.bsize)
  {
  }

  // ----- replacement state does not matter -----

  /** The same block, at a possibly different replacement state and time. */
  predicate SameData(p: Block, q: Block) { q == p.(nru := q.nru, rrpv := q.rrpv, ready := q.ready) }

  ghost predicate SameStore(cs: CSet, ct: CSet) {
    |ct.blks| == |cs.blks| && ct.chains == cs.chains && forall w :: 0 <= w < |cs.blks| ==> SameData(cs.blks[w], ct.blks[w])
  }

  lemma SameStoreOk(cfg: Config, cs: CSet, ct: CSet)
    requires SetOk(cfg, cs) && SameStore(cs, ct) && IsOrder(ct.order, cfg.assoc)
    ensures SetOk(cfg, ct)
  {
  }

  lemma ChooseStore(cfg: Config, cs: CSet, psel: nat, bipctr: nat, rnd: nat)
    requires GoodConfig(cfg) && SetOk(cfg, cs)
    ensures var r := Choose(cfg, cs, psel, bipctr, rnd);
            r.Chosen? ==> SetOk(cfg, r.cs) && SameStore(cs, r.cs) && r.cs.kind == cs.kind
  {
    hide SearchRank, FirstNru, Ranks, Hash, MoveToHead, MoveToTail;
    var r := Choose(cfg, cs, psel, bipctr, rnd);
    if r.Chosen? {
      MoveFacts(cs.order, cfg.assoc, r.way);
      hide IsOrder, Unique, Chained;
      assert SameStore(cs, r.cs);
      SameStoreOk(cfg, cs, r.cs);
    }
  }

  lemma PromoteStore(cfg: Config, cs: CSet, w: nat)
    requires GoodConfig(cfg) && SetOk(cfg, cs) && w < cfg.assoc
    ensures var r := Promote(cfg.policy, cs, w);
            SetOk(cfg, r) && SameStore(cs, r) && Settled(cfg.policy, r, w) && r.kind == cs.kind
  {
    MoveFacts(cs.order, cfg.assoc, w);
    var r := Promote(cfg.policy, cs, w);
    assert SameStore(cs, r);
    SameStoreOk(cfg, cs, r);
  }
}
