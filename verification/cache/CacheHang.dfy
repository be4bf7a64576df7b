/** When the DRRIP victim search never ends, and a run from a new cache that gets there. */
module CacheHang {
  import opened Common
  import opened Orders
  import opened CacheModel
  import opened CacheStore
  import opened CacheAccess
  import opened CacheRuns
  import opened CacheCreate
  import opened CacheDuel

  /** No rank is the maximum, and every rank behind the head of the way list exceeds it. */
  predicate Stuck(r: seq<int>) {
    (forall j :: 0 <= j < |r| ==> r[j] != RRPV_MAX) && (forall j :: 0 < j < |r| ==> r[j] > RRPV_MAX)
  }

  lemma StuckIff(cfg: Config, cs: CSet, psel: nat, bipctr: nat, rnd: nat)
    requires GoodConfig(cfg) && SetShape(cfg, cs)
    ensures Choose(cfg, cs, psel, bipctr, rnd) == Forever <==> cfg.policy == DRRIP && cfg.assoc >= 2 && Stuck(Ranks(cs))
  {
    if cfg.policy == DRRIP { SearchFails(Ranks(cs)); }
  }

  /** An access never ends if and only if it misses, the policy is DRRIP with at least two ways,
      and the ranks of its set are stuck. */
  lemma EndlessIff(c: Cache, cmd: Cmd, addr: nat, env: Env)
    requires Inv(c) && GoodSize(addr, cmd.Size()) && Offset(c.cfg, addr) + cmd.Size() <= c.cfg.bsize
    ensures Access(c, cmd, addr, env) == Stop(Endless) <==>
              && !Probe(c, addr) && (c.lastSome || Base(c.cfg, addr) != 0)
              && c.cfg.policy == DRRIP && c.cfg.assoc >= 2 && Stuck(Ranks(c.sets[SetOf(c.cfg, addr)]))
  {
    var s := SetOf(c.cfg, addr);
    StuckIff(c.cfg, c.sets[s], c.psel, c.bipctr, env.rnd);
    AccessCases(c, cmd, addr, env);
    if Base(c.cfg, addr) == c.lastTagset && c.lastSome { FastIsSlow(c, cmd, addr, env); }
    hide Choose, Stuck, Ranks, Access, Lookup, Hit;
  }

  lemma AccessCases(c: Cache, cmd: Cmd, addr: nat, env: Env)
    requires Inv(c) && GoodSize(addr, cmd.Size()) && Offset(c.cfg, addr) + cmd.Size() <= c.cfg.bsize
    ensures var ch := Choose(c.cfg, c.sets[SetOf(c.cfg, addr)], c.psel, c.bipctr, env.rnd);
      Access(c, cmd, addr, env) == Stop(Endless) <==> Base(c.cfg, addr) != c.lastTagset && !Probe(c, addr) && ch == Forever
  {
    hide Choose, Evict, Filled, Rehash;
  }

  // ----- getting there -----

  const ENV := Env(0, 0, (w: bool, a: nat, t: int) => 0)

  function ReadBlock(cfg: Config, t: nat): Op { Do(Read(1), MkBaddr(cfg, t, 0), ENV) }

  /** Two misses, a hit of the first block, a third miss, a flush of the second block, and a read
      of a fourth block, all in set 0. */
  function HangOps(cfg: Config): seq<Op> {
    [ReadBlock(cfg, 1), ReadBlock(cfg, 2), ReadBlock(cfg, 1), ReadBlock(cfg, 3), FlushOne(MkBaddr(cfg, 2, 0), ENV), ReadBlock(cfg, 4)]
  }

  datatype Way = Way(tag: nat, valid: bool, rank: int)

  predicate IsWay(b: Block, w: Way) { b.valid == w.valid && b.rrpv == w.rank && (w.valid ==> b.tag == w.tag) }

  /** Set 0 of a two-way cache in order: its way list, its two ways, and the block hit last. */
  ghost predicate Looks(c: Cache, order: seq<nat>, a: Way, b: Way, last: nat) {
    && Inv(c) && c.cfg.policy == DRRIP && c.cfg.assoc == 2 && c.lastTagset == last
    && c.sets[0].kind == SRRIP && c.sets[0].order == order && IsWay(c.sets[0].blks[0], a) && IsWay(c.sets[0].blks[1], b)
  }

  predicate Holds(w: Way, t: nat) { w.valid && w.tag == t }

  lemma TwoWays(c: Cache, order: seq<nat>, a: Way, b: Way, last: nat, t: nat)
    requires Looks(c, order, a, b, last) && (order == [1, 0] || order == [0, 1]) && t > 0
    ensures var s, cs := MkBaddr(c.cfg, t, 0), c.sets[0];
      && Tag(c.cfg, s) == t && SetOf(c.cfg, s) == 0 && Base(c.cfg, s) == s && Offset(c.cfg, s) == 0 && s > 0
      && Ranks(cs) == (if order == [1, 0] then [b.rank, a.rank] else [a.rank, b.rank])
      && Lookup(c.cfg, cs, t) == (
           if order == [1, 0] then (if Holds(b, t) then Some(1) else if Holds(a, t) then Some(0) else None)
           else (if Holds(a, t) then Some(0) else if Holds(b, t) then Some(1) else None))
  {
    RebuiltParts(c.cfg, t, 0);
    OffsetOf(c.cfg, t);
    var cs := c.sets[0];
    LookupsAgree(c.cfg, cs, t);
    assert order[1..][1..] == [];
    assert FindIn(order[1..], cs.blks, t) == if Matches(cs.blks[order[1]], t) then Some(order[1]) else None;
  }

  lemma OffsetOf(cfg: Config, t: nat)
    requires GoodConfig(cfg) && t > 0
    ensures Offset(cfg, MkBaddr(cfg, t, 0)) == 0 && MkBaddr(cfg, t, 0) > 0
  {
    var q := t * cfg.nsets;
    assert q > 0;
    assert MkBaddr(cfg, t, 0) == q * cfg.bsize;
    assert q * cfg.bsize > 0;
    RebuiltParts(cfg, t, 0);
    var a := MkBaddr(cfg, t, 0);
    assert a == a / cfg.bsize * cfg.bsize + a % cfg.bsize;
  }

  /** A read that misses replaces the way at position `p` after `k` increments. */
  lemma MissLooks(c: Cache, a: Way, b: Way, last: nat, t: nat, p: nat, k: nat)
    requires Looks(c, [1, 0], a, b, last) && t > 0 && MkBaddr(c.cfg, t, 0) != last && !Holds(a, t) && !Holds(b, t)
    requires SearchRank([b.rank, a.rank]) == Some((p, k)) && p < 2
    ensures var r := Step(c, ReadBlock(c.cfg, t));
      && r.Done? && r.cache.cfg == c.cfg
      && if p == 0 then Looks(r.cache, [1, 0], a.(rank := a.rank + k), Way(t, true, RRPV_MAX - 1), 0)
         else Looks(r.cache, [1, 0], Way(t, true, RRPV_MAX - 1), b.(rank := b.rank + k), 0)
  {
    TwoWays(c, [1, 0], a, b, last, t);
    var x := MkBaddr(c.cfg, t, 0);
    var cs := c.sets[0];
    MissesChoose(c, p, k);
    AccessKeepsInv(c, Read(1), x, ENV);
    assert GoodSize(x, 1);
    hide SearchRank, Ranks, Choose, Lookup, MkBaddr, Inv;
    MissGoes(c, x);
    MissPieces(c, 0, Read(1), x, ENV);
    hide Miss, Access;
    MissReplaces(c, x, p, k, t);
  }

  lemma MissesChoose(c: Cache, p: nat, k: nat)
    requires Shape(c) && c.cfg.policy == DRRIP && c.cfg.assoc == 2 && c.sets[0].kind == SRRIP && c.sets[0].order == [1, 0]
    requires SearchRank(Ranks(c.sets[0])) == Some((p, k)) && p < 2
    ensures var cs := c.sets[0];
      var ch, w := Choose(c.cfg, cs, c.psel, c.bipctr, 0), if p == 0 then 1 else 0;
      && ch.Chosen? && ch.way == w && ch.cs.order == [1, 0] && ch.cs.kind == SRRIP && |ch.cs.blks| == 2
      && ch.cs.blks[w].rrpv == RRPV_MAX - 1
      && ch.cs.blks[1 - w] == cs.blks[1 - w].(rrpv := cs.blks[1 - w].rrpv + k)
  {
    hide SearchRank, Ranks;
  }

  lemma MissGoes(c: Cache, x: nat)
    requires Shape(c) && Base(c.cfg, x) != c.lastTagset && SetOf(c.cfg, x) == 0 && Offset(c.cfg, x) == 0 && GoodSize(x, 1)
    requires Lookup(c.cfg, c.sets[0], Tag(c.cfg, x)) == None
    ensures Access(c, Read(1), x, ENV) == Miss(c, 0, Read(1), x, ENV)
    ensures Choose(c.cfg, c.sets[0], c.psel, c.bipctr, 0).Chosen? ==> Miss(c, 0, Read(1), x, ENV).Done?
  {
    hide Choose, Evict, Filled, Rehash, Lookup;
  }

  lemma MissReplaces(c: Cache, x: nat, p: nat, k: nat, t: nat)
    requires Inv(c) && Shape(c) && Offset(c.cfg, x) == 0 && Tag(c.cfg, x) == t && c.cfg.assoc == 2 && p < 2
    requires Miss(c, 0, Read(1), x, ENV).Done?
    requires var ch, w := Choose(c.cfg, c.sets[0], c.psel, c.bipctr, 0), if p == 0 then 1 else 0;
      && ch.Chosen? && ch.way == w && |ch.cs.blks| == 2 && ch.cs.blks[w].rrpv == RRPV_MAX - 1
      && ch.cs.blks[1 - w] == c.sets[0].blks[1 - w].(rrpv := c.sets[0].blks[1 - w].rrpv + k)
    ensures var d, w := Miss(c, 0, Read(1), x, ENV).cache, if p == 0 then 1 else 0;
      var ch := Choose(c.cfg, c.sets[0], c.psel, c.bipctr, 0);
      && |d.sets| == c.cfg.nsets && d.cfg == c.cfg && d.lastTagset == 0 && |d.sets[0].blks| == 2
      && d.sets[0].order == ch.cs.order && d.sets[0].kind == ch.cs.kind
      && IsWay(d.sets[0].blks[w], Way(t, true, RRPV_MAX - 1))
      && d.sets[0].blks[1 - w] == c.sets[0].blks[1 - w].(rrpv := c.sets[0].blks[1 - w].rrpv + k)
  {
    MissPieces(c, 0, Read(1), x, ENV);
    hide Miss, Choose, Rehash, Fetch, Inv, MkBaddr;
  }

  lemma HitLooks(c: Cache, a: Way, b: Way, last: nat, t: nat)
    requires Looks(c, [1, 0], a, b, last) && t > 0 && MkBaddr(c.cfg, t, 0) != last && Holds(a, t) && !Holds(b, t)
    ensures var r := Step(c, ReadBlock(c.cfg, t));
      r.Done? && r.cache.cfg == c.cfg && Looks(r.cache, [1, 0], a.(rank := 0), b, MkBaddr(c.cfg, t, 0))
  {
    TwoWays(c, [1, 0], a, b, last, t);
    var x := MkBaddr(c.cfg, t, 0);
    assert GoodSize(x, 1);
    AccessKeepsInv(c, Read(1), x, ENV);
    hide Lookup, MkBaddr, Inv, Miss;
  }

  lemma FlushLooks(c: Cache, a: Way, b: Way, last: nat, t: nat)
    requires Looks(c, [1, 0], a, b, last) && t > 0 && !Holds(a, t) && Holds(b, t)
    ensures var r := Step(c, FlushOne(MkBaddr(c.cfg, t, 0), ENV));
      r.Done? && r.cache.cfg == c.cfg && Looks(r.cache, [0, 1], a, b.(valid := false), 0)
  {
    TwoWays(c, [1, 0], a, b, last, t);
    var x := MkBaddr(c.cfg, t, 0);
    FlushAddrIsFlat(c, x, ENV);
    WithoutOne();
    hide Lookup, MkBaddr, Inv, Without;
  }

  lemma WithoutOne()
    ensures MoveToTail([1, 0], 1) == [0, 1]
  {
    assert [1, 0][1..] == [0];
    assert Without([0], 1) == [0] + Without([], 1);
  }

  lemma HangStarts(cfg: Config, mem: map<nat, seq<Byte>>)
    requires GoodConfig(cfg) && cfg.policy == DRRIP && cfg.assoc == 2 && cfg.nsets / LEADERS > 0
    ensures var c := Create(cfg, mem); c.cfg == cfg && Looks(c, [1, 0], Way(0, false, 6), Way(0, false, 6), 0)
  {
    CreateOk(cfg, mem);
    var c := Create(cfg, mem);
    assert c.sets[0] == EmptySet(cfg, InitialKind(cfg, 0));
    assert Descending(2) == [1, 0];
    hide Inv;
  }

  lemma Apart(cfg: Config, t: nat, u: nat)
    requires GoodConfig(cfg) && t != u
    ensures MkBaddr(cfg, t, 0) != MkBaddr(cfg, u, 0)
  {
    RebuiltParts(cfg, t, 0);
    RebuiltParts(cfg, u, 0);
  }

  lemma Searches()
    ensures SearchRank([6, 6]) == Some((1, 1)) && SearchRank([7, 6]) == Some((0, 0)) && SearchRank([6, 0]) == Some((1, 7))
    ensures Stuck([6, 13])
  {
    assert FirstRank([6, 6], 0, 7) == None && BestRank([6, 6], 2) == None && BestRank([6, 6], 1) == Some(6);
    assert FirstRank([6, 0], 0, 7) == None && BestRank([6, 0], 2) == None && BestRank([6, 0], 1) == Some(0);
  }

  /** Every two-way DRRIP cache, whatever its number of sets and block size, has this run: five
      operations complete, and the search for a victim of the sixth never ends. */
  lemma HangRun(cfg: Config, mem: map<nat, seq<Byte>>) returns (d: Cache, out: seq<seq<Byte>>)
    requires GoodConfig(cfg) && cfg.policy == DRRIP && cfg.assoc == 2 && cfg.nsets / LEADERS > 0
    ensures Shape(d) && Reaches(Create(cfg, mem), HangOps(cfg)[..5], d, out) && Step(d, HangOps(cfg)[5]) == Stop(Endless)
  {
    hide SearchRank, Stuck, MkBaddr, Step, Reaches, Create;
    Searches();
    OffsetOf(cfg, 1);
    Apart(cfg, 1, 3);
    HangStarts(cfg, mem);
    var c0 := Create(cfg, mem);
    MissLooks(c0, Way(0, false, 6), Way(0, false, 6), 0, 1, 1, 1);
    var r1 := Step(c0, ReadBlock(cfg, 1));
    OffsetOf(cfg, 2);
    MissLooks(r1.cache, Way(1, true, 6), Way(0, false, 7), 0, 2, 0, 0);
    var r2 := Step(r1.cache, ReadBlock(cfg, 2));
    HitLooks(r2.cache, Way(1, true, 6), Way(2, true, 6), 0, 1);
    var r3 := Step(r2.cache, ReadBlock(cfg, 1));
    OffsetOf(cfg, 3);
    MissLooks(r3.cache, Way(1, true, 0), Way(2, true, 6), MkBaddr(cfg, 1, 0), 3, 1, 7);
    var r4 := Step(r3.cache, ReadBlock(cfg, 3));
    FlushLooks(r4.cache, Way(3, true, 6), Way(2, true, 13), 0, 2);
    var r5 := Step(r4.cache, FlushOne(MkBaddr(cfg, 2, 0), ENV));
    d, out := r5.cache, [r1.bytes, r2.bytes, r3.bytes, r4.bytes, r5.bytes];
    FiveSteps(c0, HangOps(cfg)[..5], r1, r2, r3, r4, r5);
    LastHangs(d);
  }

  lemma LastHangs(d: Cache)
    requires Looks(d, [0, 1], Way(3, true, 6), Way(2, false, 13), 0)
    ensures Shape(d) && Step(d, ReadBlock(d.cfg, 4)) == Stop(Endless)
  {
    TwoWays(d, [0, 1], Way(3, true, 6), Way(2, false, 13), 0, 4);
    Searches();
    var x := MkBaddr(d.cfg, 4, 0);
    assert GoodSize(x, 1);
    EndlessIff(d, Read(1), x, ENV);
    hide Stuck, SearchRank, MkBaddr, Inv;
  }

  lemma FiveSteps(c: Cache, ops: seq<Op>, r1: Result, r2: Result, r3: Result, r4: Result, r5: Result)
    requires |ops| == 5 && r1.Done? && r2.Done? && r3.Done? && r4.Done? && r5.Done?
    requires Shape(c) && Shape(r1.cache) && Shape(r2.cache) && Shape(r3.cache) && Shape(r4.cache) && Shape(r5.cache)
    requires r1 == Step(c, ops[0]) && r2 == Step(r1.cache, ops[1]) && r3 == Step(r2.cache, ops[2])
    requires r4 == Step(r3.cache, ops[3]) && r5 == Step(r4.cache, ops[4])
    ensures Reaches(c, ops, r5.cache, [r1.bytes, r2.bytes, r3.bytes, r4.bytes, r5.bytes])
  {
    hide Step, Shape;
    var out := [r1.bytes, r2.bytes, r3.bytes, r4.bytes, r5.bytes];
    assert Reaches(r5.cache, ops[5..], r5.cache, out[5..]);
    assert ops[4..][1..] == ops[5..] && out[4..][1..] == out[5..];
    assert Reaches(r4.cache, ops[4..], r5.cache, out[4..]);
    assert ops[3..][1..] == ops[4..] && out[3..][1..] == out[4..];
    assert Reaches(r3.cache, ops[3..], r5.cache, out[3..]);
    assert ops[2..][1..] == ops[3..] && out[2..][1..] == out[3..];
    assert Reaches(r2.cache, ops[2..], r5.cache, out[2..]);
    assert ops[1..][1..] == ops[2..] && out[1..][1..] == out[2..];
    assert Reaches(r1.cache, ops[1..], r5.cache, out[1..]);
  }
}
