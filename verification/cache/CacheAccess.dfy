/** Accesses: every read returns the last bytes written, whatever was replaced in between. */
module CacheAccess {
  import opened Common
  import opened Orders
  import opened CacheModel
  import opened CacheStore

  /** How an access changes the flat memory: a write replaces its bytes, a read nothing. */
  ghost predicate Effect(c: Cache, d: Cache, cmd: Cmd, addr: nat)
    requires Shape(c) && Shape(d) && d.cfg == c.cfg && Offset(c.cfg, addr) + cmd.Size() <= c.cfg.bsize
  {
    forall a: nat :: Base(c.cfg, a) == a ==> Flat(d, a) == AfterCmd(Flat(c, a), cmd, Offset(c.cfg, addr), a == Base(c.cfg, addr))
  }

  function AfterCmd(data: seq<Byte>, cmd: Cmd, ofs: nat, here: bool): (r: seq<Byte>)
    requires ofs + cmd.Size() <= |data|
    ensures |r| == |data|
  {
    if cmd.Write? && here then Splice(data, ofs, cmd.bytes) else data
  }

  /** The bytes an access returns. */
  ghost predicate Returns(c: Cache, cmd: Cmd, addr: nat, bytes: seq<Byte>)
    requires Shape(c) && Offset(c.cfg, addr) + cmd.Size() <= c.cfg.bsize
  {
    var ofs := Offset(c.cfg, addr);
    cmd.Read? ==> bytes == Flat(c, Base(c.cfg, addr))[ofs..ofs + cmd.n]
  }

  // ----- hits -----

  /** `ct` is `cs` with the data of way `w` touched, replacement state aside. */
  ghost predicate Rewrites(cfg: Config, cs: CSet, ct: CSet, w: nat, b: Block) {
    && SetOk(cfg, cs) && SetOk(cfg, ct) && w < cfg.assoc && ct.kind == cs.kind
    && b.tag == cs.blks[w].tag && b.valid == cs.blks[w].valid
    && SameData(b, ct.blks[w])
    && forall v :: 0 <= v < cfg.assoc && v != w ==> SameData(cs.blks[v], ct.blks[v])
  }

  lemma TouchSet(cfg: Config, cs: CSet, w: nat, cmd: Cmd, ofs: nat)
    requires GoodConfig(cfg) && SetOk(cfg, cs) && w < cfg.assoc && ofs + cmd.Size() <= cfg.bsize
    ensures var b := Touched(cs.blks[w], cmd, ofs);
            var hit := cs.(blks := cs.blks[w := b]);
            && SetOk(cfg, hit) && Rewrites(cfg, cs, hit, w, b)
            && Rewrites(cfg, cs, Promote(cfg.policy, hit, w), w, b) && Settled(cfg.policy, Promote(cfg.policy, hit, w), w)
            && (forall v :: 0 <= v < cfg.assoc && Settled(cfg.policy, cs, v) ==> Settled(cfg.policy, hit, v))
  {
    var b := Touched(cs.blks[w], cmd, ofs);
    var hit := cs.(blks := cs.blks[w := b]);
    TouchOk(cfg, cs, w, cmd, ofs);
    hide SetOk;
    PromoteStore(cfg, hit, w);
  }

  lemma TouchOk(cfg: Config, cs: CSet, w: nat, cmd: Cmd, ofs: nat)
    requires GoodConfig(cfg) && SetOk(cfg, cs) && w < cfg.assoc && ofs + cmd.Size() <= cfg.bsize
    ensures var b := Touched(cs.blks[w], cmd, ofs);
            var hit := cs.(blks := cs.blks[w := b]);
            SetOk(cfg, hit) && |hit.blks| == |cs.blks| == cfg.assoc && |b.data| == cfg.bsize
  {
    var hit := cs.(blks := cs.blks[w := Touched(cs.blks[w], cmd, ofs)]);
    assert Unique(hit);
    assert Chained(cfg, hit);
  }

  /** One set rewritten in one way: what the flat memory shows. */
  lemma RewriteFlat(c: Cache, d: Cache, s: nat, ct: CSet, w: nat, b: Block, a: nat)
    requires Shape(c) && Shape(d) && SetsOk(c) && SetsOk(d) && s < c.cfg.nsets && Rewrites(c.cfg, c.sets[s], ct, w, b)
    requires d.cfg == c.cfg && d.sets == c.sets[s := ct] && d.mem == c.mem && Base(c.cfg, a) == a
    requires c.sets[s].blks[w].valid
    ensures Flat(d, a) == if a == MkBaddr(c.cfg, b.tag, s) then b.data else Flat(c, a)
    ensures a == MkBaddr(c.cfg, b.tag, s) ==> Flat(c, a) == c.sets[s].blks[w].data
  {
    var t, q := Tag(c.cfg, a), SetOf(c.cfg, a);
    RebuildsAddress(c.cfg, a);
    RebuiltParts(c.cfg, b.tag, s);
    if q == s {
      var cs := c.sets[s];
      if v :| 0 <= v < c.cfg.assoc && Matches(cs.blks[v], t) {
        FlatFound(c, a, v);
        FlatFound(d, a, v);
        if v == w {
          assert a == MkBaddr(c.cfg, b.tag, s);
        } else if a == MkBaddr(c.cfg, b.tag, s) {
          FlatFound(c, a, w);
        }
      } else {
        FlatAbsent(c, a);
        FlatAbsent(d, a);
      }
    }
  }

  /** The state after a rewrite of one set. */
  lemma RewriteInv(c: Cache, d: Cache, s: nat, ct: CSet, w: nat, b: Block)
    requires Inv(c) && s < c.cfg.nsets && Rewrites(c.cfg, c.sets[s], ct, w, b) && d.cfg == c.cfg
    requires d.sets == c.sets[s := ct] && d.mem == c.mem && (b.dirty || (b.data == c.sets[s].blks[w].data && b.dirty == c.sets[s].blks[w].dirty))
    requires !d.lastSome || (d.lastSet < c.cfg.nsets && d.lastWay < c.cfg.assoc)
    ensures Shape(d) && SetsOk(d) && CleanOk(d)
  {
    forall q, v | 0 <= q < d.cfg.nsets && 0 <= v < d.cfg.assoc ensures BlockClean(d, q, v) {
      assert BlockClean(c, q, v);
    }
  }

  lemma HitKeeps(c: Cache, s: nat, w: nat, cmd: Cmd, addr: nat, env: Env, fast: bool)
    requires Inv(c) && s == SetOf(c.cfg, addr) && w < c.cfg.assoc && Matches(c.sets[s].blks[w], Tag(c.cfg, addr))
    requires Offset(c.cfg, addr) + cmd.Size() <= c.cfg.bsize && (fast ==> Settled(c.cfg.policy, c.sets[s], w))
    ensures var r := Hit(c, s, w, cmd, addr, env, fast);
            && r.Done? && Inv(r.cache) && r.cache.cfg == c.cfg && Returns(c, cmd, addr, r.bytes) && Effect(c, r.cache, cmd, addr)
  {
    var cs, ofs := c.sets[s], Offset(c.cfg, addr);
    TouchSet(c.cfg, cs, w, cmd, ofs);
    var b := Touched(cs.blks[w], cmd, ofs);
    var hit := cs.(blks := cs.blks[w := b]);
    var ct := if fast then hit else Promote(c.cfg.policy, hit, w);
    var d := Hit(c, s, w, cmd, addr, env, fast).cache;
    RewriteInv(c, d, s, ct, w, b);
    BaseParts(c.cfg, addr);
    RebuildsAddress(c.cfg, addr);
    FlatFound(c, Base(c.cfg, addr), w);
    forall a: nat | Base(c.cfg, a) == a
      ensures Flat(d, a) == AfterCmd(Flat(c, a), cmd, ofs, a == Base(c.cfg, addr))
    {
      RewriteFlat(c, d, s, ct, w, b, a);
    }
  }

  // ----- misses -----

  lemma RehashKeeps(cfg: Config, cs: CSet, w: nat, b: Block)
    requires GoodConfig(cfg) && SetOk(cfg, cs) && w < cfg.assoc && |b.data| == cfg.bsize
    requires forall v :: 0 <= v < cfg.assoc && v != w ==> !Matches(cs.blks[v], b.tag)
    ensures SetOk(cfg, cs.(blks := cs.blks[w := b], chains := Rehash(cfg, cs.chains, w, cs.blks[w].tag, b.tag)))
  {
    hide Hash, Without, Rehash;
    var ct := cs.(blks := cs.blks[w := b], chains := Rehash(cfg, cs.chains, w, cs.blks[w].tag, b.tag));
    forall h | 0 <= h < |ct.chains| ensures RehashedOk(cfg, cs, ct, w, b, h) {
      RehashChain(cfg, cs, w, b, h);
    }
    RefillUnique(cs, ct, w, b);
    hide Matches;
    RehashJoin(cfg, cs, ct, w, b);
  }

  lemma RehashJoin(cfg: Config, cs: CSet, ct: CSet, w: nat, b: Block)
    requires SetOk(cfg, cs) && w < cfg.assoc && |b.data| == cfg.bsize && ct == cs.(blks := cs.blks[w := b], chains := ct.chains)
    requires |ct.chains| == cfg.HSize() && Unique(ct)
    requires forall h :: 0 <= h < |ct.chains| ==> RehashedOk(cfg, cs, ct, w, b, h)
    ensures SetOk(cfg, ct)
  {
    hide Hash, Unique;
    forall h, v | 0 <= h < |ct.chains| && 0 <= v < cfg.assoc ensures v in ct.chains[h] <==> h == Hash(ct.blks[v].tag, cfg.HSize()) {
      assert RehashedOk(cfg, cs, ct, w, b, h);
    }
    forall h | 0 <= h < |ct.chains| ensures InWays(ct.chains[h], cfg.assoc) && Distinct(ct.chains[h]) {
      assert RehashedOk(cfg, cs, ct, w, b, h);
    }
  }

  /** Chain `h` after way `w` got a new tag: a list of ways with exactly those whose tags hash to it. */
  ghost predicate RehashedOk(cfg: Config, cs: CSet, ct: CSet, w: nat, b: Block, h: nat)
    requires h < |ct.chains|
  {
    && InWays(ct.chains[h], cfg.assoc) && Distinct(ct.chains[h])
    && forall v :: 0 <= v < cfg.assoc && v < |ct.blks| ==> (v in ct.chains[h] <==> h == Hash(ct.blks[v].tag, |ct.chains|))
  }

  lemma RehashChain(cfg: Config, cs: CSet, w: nat, b: Block, h: nat)
    requires GoodConfig(cfg) && SetOk(cfg, cs) && w < cfg.assoc && h < cfg.HSize()
    ensures var ct := cs.(blks := cs.blks[w := b], chains := Rehash(cfg, cs.chains, w, cs.blks[w].tag, b.tag));
            RehashedOk(cfg, cs, ct, w, b, h)
  {
    hide Hash, Unique, Without;
    var x, y := Hash(cs.blks[w].tag, cfg.HSize()), Hash(b.tag, cfg.HSize());
    var ct := cs.(blks := cs.blks[w := b], chains := Rehash(cfg, cs.chains, w, cs.blks[w].tag, b.tag));
    WithoutFacts(cs.chains[x], w);
    var out := if h == x then Without(cs.chains[h], w) else cs.chains[h];
    assert ct.chains[h] == if h == y then [w] + out else out;
    assert w !in out && Distinct(out) && forall v :: v in out ==> v in cs.chains[h];
    PrependDistinct(w, out);
    forall i | 0 <= i < |ct.chains[h]| ensures ct.chains[h][i] < cfg.assoc {
      assert ct.chains[h][i] in ct.chains[h];
    }
  }

  lemma RefillUnique(cs: CSet, ct: CSet, w: nat, b: Block)
    requires Unique(cs) && w < |cs.blks| && ct.blks == cs.blks[w := b]
    requires forall v :: 0 <= v < |cs.blks| && v != w ==> !Matches(cs.blks[v], b.tag)
    ensures Unique(ct)
  {
  }

  /** `d` is `c` with way `w` of set `s` evicted and refilled with block `b` for address `base`. */
  ghost predicate Refills(c: Cache, d: Cache, s: nat, ct: CSet, w: nat, base: nat, b: Block) {
    && Shape(c) && s < c.cfg.nsets && w < c.cfg.assoc && d.cfg == c.cfg && SetOk(c.cfg, ct) && SetOk(c.cfg, c.sets[s])
    && d.sets == c.sets[s := ct]
    && Base(c.cfg, base) == base && SetOf(c.cfg, base) == s && b.tag == Tag(c.cfg, base) && b.valid
    && (forall v :: 0 <= v < c.cfg.assoc ==> !Matches(c.sets[s].blks[v], b.tag))
    && SameData(b, ct.blks[w]) && |b.data| == c.cfg.bsize
    && (forall v :: 0 <= v < c.cfg.assoc && v != w ==> SameData(c.sets[s].blks[v], ct.blks[v]))
    && d.mem == Written(c, s, w)
  }

  /** The memory below once way `w` of set `s` is out. */
  function Written(c: Cache, s: nat, w: nat): map<nat, seq<Byte>>
    requires s < |c.sets| && w < |c.sets[s].blks|
  {
    var o := c.sets[s].blks[w];
    if o.valid && o.dirty then c.mem[MkBaddr(c.cfg, o.tag, s) := o.data] else c.mem
  }

  lemma WrittenElsewhere(c: Cache, s: nat, w: nat, a: nat)
    requires Shape(c) && s < c.cfg.nsets && w < c.cfg.assoc && Base(c.cfg, a) == a
    requires SetOf(c.cfg, a) != s || !Matches(c.sets[s].blks[w], Tag(c.cfg, a))
    ensures Fetch(Written(c, s, w), a, c.cfg.bsize) == Fetch(c.mem, a, c.cfg.bsize)
  {
    RebuiltParts(c.cfg, c.sets[s].blks[w].tag, s);
  }

  lemma WrittenBack(c: Cache, s: nat, w: nat, a: nat)
    requires Shape(c) && CleanOk(c) && s < c.cfg.nsets && w < c.cfg.assoc && Base(c.cfg, a) == a
    requires SetOf(c.cfg, a) == s && Matches(c.sets[s].blks[w], Tag(c.cfg, a))
    ensures Fetch(Written(c, s, w), a, c.cfg.bsize) == c.sets[s].blks[w].data
  {
    RebuildsAddress(c.cfg, a);
    assert BlockClean(c, s, w);
  }

  lemma RefillFlat(c: Cache, d: Cache, s: nat, ct: CSet, w: nat, base: nat, b: Block, a: nat)
    requires Inv(c) && Shape(d) && SetsOk(d) && Refills(c, d, s, ct, w, base, b) && Base(c.cfg, a) == a
    ensures Flat(d, a) == if a == base then b.data else Flat(c, a)
    ensures a == base ==> Flat(c, a) == Fetch(c.mem, base, c.cfg.bsize) == Fetch(d.mem, base, c.cfg.bsize)
  {
    var t, q := Tag(c.cfg, a), SetOf(c.cfg, a);
    RebuildsAddress(c.cfg, a);
    RebuildsAddress(c.cfg, base);
    var cs := c.sets[s];
    if q != s {
      WrittenElsewhere(c, s, w, a);
    } else if t == b.tag {
      FlatFound(d, a, w);
      FlatAbsent(c, a);
      WrittenElsewhere(c, s, w, a);
    } else if Matches(cs.blks[w], t) {
      FlatFound(c, a, w);
      WrittenBack(c, s, w, a);
      assert forall v :: 0 <= v < c.cfg.assoc ==> !Matches(ct.blks[v], t);
      FlatAbsent(d, a);
    } else if v :| 0 <= v < c.cfg.assoc && Matches(cs.blks[v], t) {
      FlatFound(c, a, v);
      FlatFound(d, a, v);
    } else {
      FlatAbsent(c, a);
      assert forall v :: 0 <= v < c.cfg.assoc ==> !Matches(ct.blks[v], t);
      FlatAbsent(d, a);
      WrittenElsewhere(c, s, w, a);
    }
  }

  lemma RefillInv(c: Cache, d: Cache, s: nat, ct: CSet, w: nat, base: nat, b: Block)
    requires Inv(c) && Refills(c, d, s, ct, w, base, b) && d.lastTagset == 0 && !d.lastSome
    requires b.dirty || b.data == Fetch(d.mem, base, c.cfg.bsize)
    ensures Inv(d)
  {
    RebuildsAddress(c.cfg, base);
    forall q, v | 0 <= q < d.cfg.nsets && 0 <= v < d.cfg.assoc ensures BlockClean(d, q, v) {
      assert BlockClean(c, q, v);
      if (q != s || v != w) && c.sets[q].blks[v].valid {
        RefillClean(c, s, w, q, v);
      }
    }
  }

  /** Writing one block back leaves the memory under every other block alone. */
  lemma RefillClean(c: Cache, s: nat, w: nat, q: nat, v: nat)
    requires Shape(c) && SetsOk(c) && s < c.cfg.nsets && w < c.cfg.assoc && q < c.cfg.nsets && v < c.cfg.assoc && (q != s || v != w)
    requires c.sets[q].blks[v].valid
    ensures var a := MkBaddr(c.cfg, c.sets[q].blks[v].tag, q);
            Fetch(Written(c, s, w), a, c.cfg.bsize) == Fetch(c.mem, a, c.cfg.bsize)
  {
    var a := MkBaddr(c.cfg, c.sets[q].blks[v].tag, q);
    RebuiltParts(c.cfg, c.sets[q].blks[v].tag, q);
    assert Unique(c.sets[q]);
    WrittenElsewhere(c, s, w, a);
  }

  lemma EvictMem(c: Cache, s: nat, repl: Block, env: Env)
    ensures Evict(c, s, repl, env).0.mem == if repl.valid && repl.dirty then c.mem[MkBaddr(c.cfg, repl.tag, s) := repl.data] else c.mem
  {
  }

  /** What the block fetched for a miss looks like after the command. */
  ghost predicate Fetched(c: Cache, d: Cache, base: nat, cmd: Cmd, ofs: nat, b: Block, bytes: seq<Byte>)
    requires ofs + cmd.Size() <= c.cfg.bsize
  {
    var fetched := Fetch(d.mem, base, c.cfg.bsize);
    && b.data == AfterCmd(fetched, cmd, ofs, true) && (b.dirty <==> cmd.Write?)
    && (cmd.Read? ==> bytes == fetched[ofs..ofs + cmd.n])
  }

  /** The outcome of a miss, piece by piece. */
  lemma MissPieces(c: Cache, s: nat, cmd: Cmd, addr: nat, env: Env)
    requires Inv(c) && s < c.cfg.nsets && Offset(c.cfg, addr) + cmd.Size() <= c.cfg.bsize
    requires Miss(c, s, cmd, addr, env).Done?
    ensures var r, ch := Miss(c, s, cmd, addr, env), Choose(c.cfg, c.sets[s], c.psel, c.bipctr, env.rnd);
      && ch.Chosen? && ch.way < c.cfg.assoc && |ch.cs.blks| == c.cfg.assoc
      && var w, o := ch.way, ch.cs.blks[ch.way];
         var mem := if o.valid && o.dirty then c.mem[MkBaddr(c.cfg, o.tag, s) := o.data] else c.mem;
         exists lat0: int :: var f := Filled(c.cfg, mem, o, cmd, addr, env, lat0);
           && r.cache.cfg == c.cfg && r.cache.mem == mem && r.cache.lastTagset == 0 && !r.cache.lastSome && r.bytes == f.1
           && r.cache.sets == c.sets[s := ch.cs.(blks := ch.cs.blks[w := f.0],
                                                 chains := Rehash(c.cfg, ch.cs.chains, w, o.tag, f.0.tag))]
  {
    var ch := Choose(c.cfg, c.sets[s], c.psel, c.bipctr, env.rnd);
    var d := Selected(c, s, ch);
    EvictMem(d, s, ch.cs.blks[ch.way], env);
    hide Choose, SetOk, Filled, Rehash, Evict;
    var lat0 := Evict(d, s, ch.cs.blks[ch.way], env).1;
    assert Filled(c.cfg, Evict(d, s, ch.cs.blks[ch.way], env).0.mem, ch.cs.blks[ch.way], cmd, addr, env, lat0).0.tag >= 0;
  }

  lemma FilledIs(c: Cache, d: Cache, o: Block, cmd: Cmd, addr: nat, env: Env, lat0: int)
    requires GoodConfig(c.cfg) && Offset(c.cfg, addr) + cmd.Size() <= c.cfg.bsize
    ensures var f := Filled(c.cfg, d.mem, o, cmd, addr, env, lat0);
      && f.0.tag == Tag(c.cfg, addr) && f.0.valid && |f.0.data| == c.cfg.bsize
      && Fetched(c, d, Base(c.cfg, addr), cmd, Offset(c.cfg, addr), f.0, f.1)
      && (f.0.dirty || f.0.data == Fetch(d.mem, Base(c.cfg, addr), c.cfg.bsize))
  {
  }

  /** A miss refills the chosen way. */
  lemma MissRefills(c: Cache, s: nat, cmd: Cmd, addr: nat, env: Env) returns (ct: CSet, w: nat, b: Block)
    requires Inv(c) && s == SetOf(c.cfg, addr) && Offset(c.cfg, addr) + cmd.Size() <= c.cfg.bsize
    requires forall v :: 0 <= v < c.cfg.assoc ==> !Matches(c.sets[s].blks[v], Tag(c.cfg, addr))
    requires Miss(c, s, cmd, addr, env).Done?
    ensures var r := Miss(c, s, cmd, addr, env);
            var base, ofs := Base(c.cfg, addr), Offset(c.cfg, addr);
            && Refills(c, r.cache, s, ct, w, base, b) && r.cache.lastTagset == 0 && !r.cache.lastSome
            && Fetched(c, r.cache, base, cmd, ofs, b, r.bytes)
            && (b.dirty || b.data == Fetch(r.cache.mem, base, c.cfg.bsize))
  {
    BaseParts(c.cfg, addr);
    MissPieces(c, s, cmd, addr, env);
    var ch := Choose(c.cfg, c.sets[s], c.psel, c.bipctr, env.rnd);
    ChooseStore(c.cfg, c.sets[s], c.psel, c.bipctr, env.rnd);
    w := ch.way;
    var d, o := Miss(c, s, cmd, addr, env).cache, ch.cs.blks[w];
    hide Choose, SetOk, Miss, Splice, Hash, Filled, Rehash, Fetched, Fetch;
    var lat0: int :| var f := Filled(c.cfg, d.mem, o, cmd, addr, env, lat0);
      && Miss(c, s, cmd, addr, env).bytes == f.1
      && d.sets == c.sets[s := ch.cs.(blks := ch.cs.blks[w := f.0], chains := Rehash(c.cfg, ch.cs.chains, w, o.tag, f.0.tag))];
    FilledIs(c, d, o, cmd, addr, env, lat0);
    b := Filled(c.cfg, d.mem, o, cmd, addr, env, lat0).0;
    ct := d.sets[s];
    RehashChosen(c.cfg, c.sets[s], ch.cs, w, b);
  }

  lemma RehashChosen(cfg: Config, cs: CSet, ch: CSet, w: nat, b: Block)
    requires GoodConfig(cfg) && SetOk(cfg, cs) && SetOk(cfg, ch) && SameStore(cs, ch) && w < cfg.assoc && |b.data| == cfg.bsize
    requires forall v :: 0 <= v < cfg.assoc ==> !Matches(cs.blks[v], b.tag)
    ensures var ct := ch.(blks := ch.blks[w := b], chains := Rehash(cfg, ch.chains, w, ch.blks[w].tag, b.tag));
            SetOk(cfg, ct) && forall v :: 0 <= v < cfg.assoc && v != w ==> SameData(cs.blks[v], ct.blks[v])
  {
    RehashKeeps(cfg, ch, w, b);
  }

  lemma RefillEffect(c: Cache, d: Cache, s: nat, cmd: Cmd, addr: nat, ct: CSet, w: nat, b: Block, bytes: seq<Byte>)
    requires Inv(c) && Shape(c) && Shape(d) && SetsOk(d) && d.cfg == c.cfg && Offset(c.cfg, addr) + cmd.Size() <= c.cfg.bsize
    requires Refills(c, d, s, ct, w, Base(c.cfg, addr), b) && Base(c.cfg, Base(c.cfg, addr)) == Base(c.cfg, addr)
    requires Fetched(c, d, Base(c.cfg, addr), cmd, Offset(c.cfg, addr), b, bytes)
    ensures Returns(c, cmd, addr, bytes) && Effect(c, d, cmd, addr)
  {
    hide Inv, SetsOk, Refills, Fetch, Splice, Flat, Base, Offset;
    var base := Base(c.cfg, addr);
    RefillFlat(c, d, s, ct, w, base, b, base);
    forall a: nat | Base(c.cfg, a) == a
      ensures Flat(d, a) == AfterCmd(Flat(c, a), cmd, Offset(c.cfg, addr), a == base)
    {
      RefillFlat(c, d, s, ct, w, base, b, a);
    }
  }

  lemma RefillFacts(c: Cache, d: Cache, s: nat, ct: CSet, w: nat, base: nat, b: Block)
    requires Inv(c) && Refills(c, d, s, ct, w, base, b) && Inv(d)
    ensures Shape(c) && Shape(d) && SetsOk(d) && d.cfg == c.cfg && Base(c.cfg, base) == base
  {
  }

  lemma MissKeeps(c: Cache, s: nat, cmd: Cmd, addr: nat, env: Env)
    requires Inv(c) && s == SetOf(c.cfg, addr) && Offset(c.cfg, addr) + cmd.Size() <= c.cfg.bsize
    requires forall v :: 0 <= v < c.cfg.assoc ==> !Matches(c.sets[s].blks[v], Tag(c.cfg, addr))
    ensures var r := Miss(c, s, cmd, addr, env);
            r.Done? ==> Inv(r.cache) && r.cache.cfg == c.cfg && Returns(c, cmd, addr, r.bytes) && Effect(c, r.cache, cmd, addr)
  {
    var r, base := Miss(c, s, cmd, addr, env), Base(c.cfg, addr);
    if r.Done? {
      var ct, w, b := MissRefills(c, s, cmd, addr, env);
      var d := r.cache;
      hide Miss, Refills, Fetch, Written, Inv, Flat, Effect, Returns, SetsOk, Shape;
      RefillInv(c, d, s, ct, w, base, b);
      RefillFacts(c, d, s, ct, w, base, b);
      RefillEffect(c, d, s, cmd, addr, ct, w, b, r.bytes);
    }
  }

  // ----- every access -----

  /** Cache and memory together are a flat memory: an access that completes returns the bytes
      that memory holds, and changes exactly the bytes written. */
  lemma AccessIsFlat(c: Cache, cmd: Cmd, addr: nat, env: Env)
    requires Inv(c)
    ensures var r := Access(c, cmd, addr, env);
            r.Done? ==>
              && Inv(r.cache) && r.cache.cfg == c.cfg && Offset(c.cfg, addr) + cmd.Size() <= c.cfg.bsize
              && Returns(c, cmd, addr, r.bytes) && Effect(c, r.cache, cmd, addr)
  {
    var r := Access(c, cmd, addr, env);
    if r.Done? {
      BaseParts(c.cfg, addr);
      var s := SetOf(c.cfg, addr);
      var f := Lookup(c.cfg, c.sets[s], Tag(c.cfg, addr));
      LookupsAgree(c.cfg, c.sets[s], Tag(c.cfg, addr));
      hide Hit, Miss;
      if Base(c.cfg, addr) == c.lastTagset {
        HitKeeps(c, c.lastSet, c.lastWay, cmd, addr, env, true);
      } else if f.Some? {
        HitKeeps(c, s, f.value, cmd, addr, env, false);
      } else {
        MissKeeps(c, s, cmd, addr, env);
      }
    }
  }

  lemma AccessKeepsInv(c: Cache, cmd: Cmd, addr: nat, env: Env)
    requires Inv(c)
    ensures var r := Access(c, cmd, addr, env); r.Done? ==> Inv(r.cache) && r.cache.cfg == c.cfg
  {
    hide Inv, Access;
    AccessIsFlat(c, cmd, addr, env);
  }

  /** The fast path does exactly what the full lookup would: same data, same replacement
      state, same status, same latency. */
  lemma FastIsSlow(c: Cache, cmd: Cmd, addr: nat, env: Env)
    requires Inv(c) && Offset(c.cfg, addr) + cmd.Size() <= c.cfg.bsize && Base(c.cfg, addr) == c.lastTagset && c.lastSome
    ensures var s := SetOf(c.cfg, addr);
            && c.lastSet == s && Lookup(c.cfg, c.sets[s], Tag(c.cfg, addr)) == Some(c.lastWay)
            && Hit(c, s, c.lastWay, cmd, addr, env, true) == Hit(c, s, c.lastWay, cmd, addr, env, false)
  {
    BaseParts(c.cfg, addr);
    var s, w := c.lastSet, c.lastWay;
    FindsWay(c.cfg, c.sets[s], Tag(c.cfg, addr), w);
    var hit := c.sets[s].(blks := c.sets[s].blks[w := Touched(c.sets[s].blks[w], cmd, Offset(c.cfg, addr))]);
    PromoteSettled(c.cfg.policy, hit, w);
  }

  lemma PromoteSettled(policy: Policy, cs: CSet, w: nat)
    requires w < |cs.blks| && Settled(policy, cs, w)
    ensures Promote(policy, cs, w) == cs
  {
    assert cs.blks[w := cs.blks[w]] == cs.blks;
  }

  /** When an access stops: a bad size, a block boundary, block 0, or no victim. */
  lemma AccessStops(c: Cache, cmd: Cmd, addr: nat, env: Env)
    requires Inv(c) && GoodSize(addr, cmd.Size()) && Offset(c.cfg, addr) + cmd.Size() <= c.cfg.bsize
    ensures Access(c, cmd, addr, env) == Stop(NullBlock) <==> !c.lastSome && Base(c.cfg, addr) == 0
    ensures var r := Access(c, cmd, addr, env);
            r.Stop? && r.fault != NullBlock ==>
              && !Probe(c, addr)
              && var ch := Choose(c.cfg, c.sets[SetOf(c.cfg, addr)], c.psel, c.bipctr, env.rnd);
                 (r.fault == NoVictim && ch == NoneLeft) || (r.fault == Endless && ch == Forever)
  {
  }
}
