/** The cache as it is created, and the leader sets of the set duel. */
module CacheCreate {
  import opened Common
  import opened Orders
  import opened CacheModel
  import opened CacheStore

  const LEADERS: nat := BIPCTR_MAX + 1

  /** The kind of set `i`: every q-th set leads for SRRIP, the one before it for BRRIP. */
  function KindOf(nsets: nat, i: nat): SetKind
    requires nsets / LEADERS > 0
  {
    if i % (nsets / LEADERS) == 0 then SRRIP
    else if (i + 1) % (nsets / LEADERS) == 0 then BRRIP
    else FOLLOWER
  }

  function Descending(n: nat): (q: seq<nat>)
    ensures |q| == n && forall i :: 0 <= i < n ==> q[i] == n - 1 - i
  {
    seq(n, i requires 0 <= i < n => n - 1 - i)
  }

  function EmptySet(cfg: Config, kind: SetKind): CSet {
    CSet(seq(cfg.assoc, _ => Block(0, false, false, 0, true, RRPV_MAX - 1, Zeros(cfg.bsize))), Descending(cfg.assoc),
         seq(cfg.HSize(), h requires 0 <= h < cfg.HSize() => if h == Hash(0, cfg.HSize()) then Descending(cfg.assoc) else []), kind)
  }

  function InitialKind(cfg: Config, i: nat): SetKind
    requires cfg.policy == DRRIP ==> cfg.nsets / LEADERS > 0
  {
    if cfg.policy == DRRIP then KindOf(cfg.nsets, i) else FOLLOWER
  }

  function Create(cfg: Config, mem: map<nat, seq<Byte>>): Cache
    requires GoodConfig(cfg) && (cfg.policy == DRRIP ==> cfg.nsets / LEADERS > 0)
  {
    Cache(cfg, seq(cfg.nsets, i requires 0 <= i < cfg.nsets => EmptySet(cfg, InitialKind(cfg, i))), mem, 0, false, 0, 0, PSEL_INIT, 0, 0, Counters(0, 0, 0, 0, 0))
  }

  lemma DescendingOrder(n: nat)
    ensures IsOrder(Descending(n), n)
  {
    var q := Descending(n);
    forall w | 0 <= w < n ensures w in q {
      assert q[n - 1 - w] == w;
    }
  }

  lemma EmptySetOk(cfg: Config, kind: SetKind)
    requires GoodConfig(cfg)
    ensures SetOk(cfg, EmptySet(cfg, kind))
  {
    DescendingOrder(cfg.assoc);
    var cs := EmptySet(cfg, kind);
    assert Unique(cs);
    assert SetShape(cfg, cs);
    assert Chained(cfg, cs);
  }

  predicate SetEmpty(cs: CSet) { forall w :: 0 <= w < |cs.blks| ==> !cs.blks[w].valid }

  /** A new cache is in order, and shows the memory below it. */
  lemma CreateOk(cfg: Config, mem: map<nat, seq<Byte>>)
    requires GoodConfig(cfg) && (cfg.policy == DRRIP ==> cfg.nsets / LEADERS > 0)
    ensures var c := Create(cfg, mem); Inv(c) && forall a: nat :: Flat(c, a) == Fetch(mem, a, cfg.bsize)
  {
    var c := Create(cfg, mem);
    forall s | 0 <= s < cfg.nsets ensures SetOk(cfg, c.sets[s]) && SetEmpty(c.sets[s]) {
      EmptySetOk(cfg, InitialKind(cfg, s));
      assert c.sets[s] == EmptySet(cfg, InitialKind(cfg, s));
      hide InitialKind;
    }
    hide InitialKind, EmptySet;
    forall a: nat ensures Flat(c, a) == Fetch(mem, a, cfg.bsize) {
      FlatAbsent(c, a);
    }
  }

  // ----- leader sets -----

  /** How many of the first `n` sets are of a kind. */
  function CountKind(nsets: nat, kind: SetKind, n: nat): nat
    requires nsets / LEADERS > 0
  {
    if n == 0 then 0 else CountKind(nsets, kind, n - 1) + (if KindOf(nsets, n - 1) == kind then 1 else 0)
  }

  /** In a stretch of `r` sets after a multiple of q: one SRRIP leader first, one BRRIP leader last. */
  lemma {:induction false} CountStretch(nsets: nat, b: nat, r: nat)
    requires nsets / LEADERS >= 2 && r <= nsets / LEADERS
    ensures var q := nsets / LEADERS;
            && CountKind(nsets, SRRIP, b * q + r) == CountKind(nsets, SRRIP, b * q) + (if r >= 1 then 1 else 0)
            && CountKind(nsets, BRRIP, b * q + r) == CountKind(nsets, BRRIP, b * q) + (if r == q then 1 else 0)
    decreases r
  {
    var q := nsets / LEADERS;
    if r > 0 {
      CountStretch(nsets, b, r - 1);
      var i := b * q + (r - 1);
      DivMod(b, r - 1, q);
      if r == q {
        assert (b + 1) * q == b * q + q;
        DivMod(b + 1, 0, q);
      } else {
        DivMod(b, r, q);
      }
      assert i + 1 == b * q + r;
    }
  }

  lemma {:induction false} CountBlocks(nsets: nat, b: nat)
    requires nsets / LEADERS >= 2
    ensures var q := nsets / LEADERS; CountKind(nsets, SRRIP, b * q) == b && CountKind(nsets, BRRIP, b * q) == b
  {
    if b > 0 {
      var q := nsets / LEADERS;
      CountBlocks(nsets, b - 1);
      CountStretch(nsets, b - 1, q);
      assert (b - 1) * q + q == b * q;
    }
  }

  lemma {:induction false} PowerDivides(n: nat, m: nat)
    requires PowerOfTwo(n) && PowerOfTwo(m) && n >= m
    ensures n % m == 0
    decreases m
  {
    if m > 1 {
      PowerDivides(n / 2, m / 2);
      var k := n / 2 / (m / 2);
      assert n == k * (m / 2) * 2;
      assert n == k * m;
      DivMod(k, 0, m);
    }
  }

  /** With a power of two of at least 64 sets there are exactly 32 leaders of each kind. */
  lemma LeaderSets(nsets: nat)
    requires PowerOfTwo(nsets) && nsets >= 2 * LEADERS
    ensures CountKind(nsets, SRRIP, nsets) == LEADERS && CountKind(nsets, BRRIP, nsets) == LEADERS
  {
    assert PowerOfTwo(2) && PowerOfTwo(4) && PowerOfTwo(8) && PowerOfTwo(16) && PowerOfTwo(32);
    PowerDivides(nsets, LEADERS);
    CountBlocks(nsets, LEADERS);
    assert LEADERS * (nsets / LEADERS) == nsets;
  }

  /** With 32 sets every set leads for SRRIP: the duel then has one side only. */
  lemma OneSidedDuel(i: nat)
    ensures KindOf(32, i) == SRRIP
  {
    assert 32 / LEADERS == 1;
  }
}
