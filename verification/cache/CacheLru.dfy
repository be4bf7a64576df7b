/** LRU: a set holds the most recently used distinct tags, so a wider cache hits at least as often. */
module CacheLru {
  import opened Common
  import opened Orders
  import opened CacheModel
  import opened CacheStore
  import opened CacheAccess
  import opened CacheCreate

  // ----- the recency stack -----

  /** The way list carries the stack from its head on, as far as the ways go; the rest is invalid. */
  ghost predicate Carries(cs: CSet, stack: seq<nat>)
    requires InWays(cs.order, |cs.blks|)
  {
    forall i :: 0 <= i < |cs.order| ==>
      (cs.blks[cs.order[i]].valid <==> i < |stack|) && (i < |stack| ==> cs.blks[cs.order[i]].tag == stack[i])
  }

  /** The tag found in way `order[i]` is the stack entry `i`. */
  lemma FoundAt(cs: CSet, stack: seq<nat>, w: nat, n: nat) returns (i: nat)
    requires |cs.blks| == n && IsOrder(cs.order, n) && Carries(cs, stack) && w < n && cs.blks[w].valid
    ensures i < n && i < |stack| && cs.order[i] == w && stack[i] == cs.blks[w].tag
  {
    assert w in cs.order;
    i :| 0 <= i < |cs.order| && cs.order[i] == w;
  }

  lemma HitCarries(cs: CSet, stack: seq<nat>, w: nat, n: nat)
    requires |cs.blks| == n && IsOrder(cs.order, n) && Carries(cs, stack) && Distinct(stack) && w < n && cs.blks[w].valid
    ensures InWays(MoveToHead(cs.order, w), n) && Carries(cs.(order := MoveToHead(cs.order, w)), Use(stack, cs.blks[w].tag))
  {
    MoveFacts(cs.order, n, w);
    var i := FoundAt(cs, stack, w, n);
    WithoutAt(cs.order, i);
    WithoutAt(stack, i);
  }

  /** A miss fills way `order[n - 1]`, the old tail, and moves it to the head. */
  ghost predicate FillsTail(cs: CSet, ct: CSet, tag: nat, n: nat) {
    && |cs.blks| == n > 0 && IsOrder(cs.order, n) && |ct.blks| == n
    && var w := cs.order[n - 1];
       && ct.order == MoveToHead(cs.order, w) && ct.blks[w].valid && ct.blks[w].tag == tag
       && forall v :: 0 <= v < n && v != w ==> ct.blks[v].valid == cs.blks[v].valid && ct.blks[v].tag == cs.blks[v].tag
  }

  lemma FilledOrder(cs: CSet, ct: CSet, tag: nat, n: nat)
    requires FillsTail(cs, ct, tag, n)
    ensures ct.order == [cs.order[n - 1]] + cs.order[..n - 1] && InWays(ct.order, n)
    ensures cs.order[n - 1] !in cs.order[..n - 1]
  {
    WithoutAt(cs.order, n - 1);
    MoveFacts(cs.order, n, cs.order[n - 1]);
  }

  /** After a miss the victim, the old tail, heads the list with the new tag. */
  lemma MissCarries(cs: CSet, ct: CSet, stack: seq<nat>, tag: nat, n: nat)
    requires FillsTail(cs, ct, tag, n) && Carries(cs, stack) && Distinct(stack)
    requires forall v :: 0 <= v < n ==> !Matches(cs.blks[v], tag)
    ensures InWays(ct.order, n) && |ct.blks| == n && Carries(ct, Use(stack, tag))
  {
    FilledOrder(cs, ct, tag, n);
    forall j | 0 <= j < |stack| && j < n ensures stack[j] != tag {
      assert !Matches(cs.blks[cs.order[j]], tag);
    }
    UseKeepsFirst(stack, tag, n);
    hide Use, MoveToHead, Without, IsOrder, Distinct;
  }

  // ----- runs -----

  datatype Ref = Ref(cmd: Cmd, addr: nat, env: Env)

  /** The stack of set `s` after a run. */
  ghost function Stack(cfg: Config, refs: seq<Ref>, s: nat): (q: seq<nat>)
    requires cfg.nsets > 0 && cfg.bsize > 0
    ensures Distinct(q)
  {
    if refs == [] then []
    else
      var last, q := refs[|refs| - 1].addr, Stack(cfg, refs[..|refs| - 1], s);
      UseDistinct(q, Tag(cfg, last));
      if SetOf(cfg, last) == s then Use(q, Tag(cfg, last)) else q
  }

  ghost predicate LruState(c: Cache, refs: seq<Ref>) {
    && Inv(c) && c.cfg.policy == LRU
    && forall s :: 0 <= s < c.cfg.nsets ==> Carries(c.sets[s], Stack(c.cfg, refs, s))
  }

  ghost predicate Runs(c: Cache, refs: seq<Ref>, d: Cache)
    decreases |refs|
  {
    if refs == [] then d == c
    else
      var n := |refs| - 1;
      exists e: Cache :: Runs(c, refs[..n], e) && Follows(e, refs[n], d)
  }

  ghost predicate Follows(e: Cache, ref: Ref, d: Cache) {
    Shape(e) && var r := Access(e, ref.cmd, ref.addr, ref.env); r.Done? && r.cache == d
  }

  lemma HitStack(c: Cache, s: nat, w: nat, cmd: Cmd, addr: nat, env: Env, fast: bool, stack: seq<nat>)
    requires Inv(c) && c.cfg.policy == LRU && s == SetOf(c.cfg, addr) && w < c.cfg.assoc && Matches(c.sets[s].blks[w], Tag(c.cfg, addr))
    requires Offset(c.cfg, addr) + cmd.Size() <= c.cfg.bsize && (fast ==> Settled(LRU, c.sets[s], w))
    requires Carries(c.sets[s], stack) && Distinct(stack)
    ensures var d := Hit(c, s, w, cmd, addr, env, fast).cache;
            && Shape(c) && |d.sets| == c.cfg.nsets && (forall q :: 0 <= q < c.cfg.nsets && q != s ==> d.sets[q] == c.sets[q])
            && InWays(d.sets[s].order, |d.sets[s].blks|) && Carries(d.sets[s], Use(stack, Tag(c.cfg, addr)))
  {
    var cs, ofs := c.sets[s], Offset(c.cfg, addr);
    var hit := cs.(blks := cs.blks[w := Touched(cs.blks[w], cmd, ofs)]);
    TouchSet(c.cfg, cs, w, cmd, ofs);
    HitCarries(hit, stack, w, c.cfg.assoc);
    if cs.order[0] == w {
      WithoutAt(cs.order, 0);
      assert MoveToHead(cs.order, w) == cs.order;
    }
  }

  lemma MissStack(c: Cache, s: nat, cmd: Cmd, addr: nat, env: Env, stack: seq<nat>)
    requires Inv(c) && c.cfg.policy == LRU && s == SetOf(c.cfg, addr) && Offset(c.cfg, addr) + cmd.Size() <= c.cfg.bsize
    requires forall v :: 0 <= v < c.cfg.assoc ==> !Matches(c.sets[s].blks[v], Tag(c.cfg, addr))
    requires Carries(c.sets[s], stack) && Distinct(stack)
    ensures var r := Miss(c, s, cmd, addr, env);
            && r.Done? && |r.cache.sets| == c.cfg.nsets && (forall q :: 0 <= q < c.cfg.nsets && q != s ==> r.cache.sets[q] == c.sets[q])
            && InWays(r.cache.sets[s].order, |r.cache.sets[s].blks|) && Carries(r.cache.sets[s], Use(stack, Tag(c.cfg, addr)))
  {
    var cs := c.sets[s];
    var d := Miss(c, s, cmd, addr, env).cache;
    MissSet(c, s, cmd, addr, env);
    hide Miss, Carries, Without, Hash, Distinct, FillsTail, Use;
    MissCarries(cs, d.sets[s], stack, Tag(c.cfg, addr), c.cfg.assoc);
  }

  lemma MissSet(c: Cache, s: nat, cmd: Cmd, addr: nat, env: Env)
    requires Shape(c) && c.cfg.policy == LRU && s < c.cfg.nsets && Offset(c.cfg, addr) + cmd.Size() <= c.cfg.bsize
    ensures var r, cs, n := Miss(c, s, cmd, addr, env), c.sets[s], c.cfg.assoc;
            && r.Done? && |r.cache.sets| == c.cfg.nsets && (forall q :: 0 <= q < c.cfg.nsets && q != s ==> r.cache.sets[q] == c.sets[q])
            && FillsTail(cs, r.cache.sets[s], Tag(c.cfg, addr), n)
  {
    hide Hash, Without, Rehash;
  }

  lemma AccessStack(c: Cache, refs: seq<Ref>, ref: Ref)
    requires LruState(c, refs) && Access(c, ref.cmd, ref.addr, ref.env).Done?
    ensures LruState(Access(c, ref.cmd, ref.addr, ref.env).cache, refs + [ref])
  {
    var d, s, t := Access(c, ref.cmd, ref.addr, ref.env).cache, SetOf(c.cfg, ref.addr), Tag(c.cfg, ref.addr);
    var stack := Stack(c.cfg, refs, s);
    AccessKeepsInv(c, ref.cmd, ref.addr, ref.env);
    BaseParts(c.cfg, ref.addr);
    LookupsAgree(c.cfg, c.sets[s], t);
    var f := Lookup(c.cfg, c.sets[s], t);
    assert (refs + [ref])[..|refs|] == refs;
    hide Hit, Miss, Carries, Settled, Hash, Unique, Chained;
    if Base(c.cfg, ref.addr) == c.lastTagset {
      HitStack(c, s, c.lastWay, ref.cmd, ref.addr, ref.env, true, stack);
    } else if f.Some? {
      HitStack(c, s, f.value, ref.cmd, ref.addr, ref.env, false, stack);
    } else {
      MissStack(c, s, ref.cmd, ref.addr, ref.env, stack);
    }
  }

  /** In every run from a new LRU cache the valid tags of a set, in way-list order, are its
      most recently used distinct tags, as many as there are ways. */
  lemma {:induction false} LruRun(cfg: Config, mem: map<nat, seq<Byte>>, refs: seq<Ref>, d: Cache)
    requires GoodConfig(cfg) && cfg.policy == LRU && Runs(Create(cfg, mem), refs, d)
    ensures LruState(d, refs) && d.cfg == cfg
    decreases |refs|
  {
    hide *;
    RunsParts(Create(cfg, mem), refs, d);
    if refs == [] {
      NewState(cfg, mem);
    } else {
      var e, ref, before := LastStep(Create(cfg, mem), refs, d);
      LruRun(cfg, mem, before, e);
      FollowParts(e, ref, d);
      AccessStack(e, before, ref);
      KeepsConfig(e, ref, before);
    }
  }

  lemma RunsParts(c: Cache, refs: seq<Ref>, d: Cache)
    requires Runs(c, refs, d)
    ensures refs == [] ==> d == c
  {
  }

  lemma RunsLast(c: Cache, before: seq<Ref>, ref: Ref, d: Cache)
    requires Runs(c, before + [ref], d)
    ensures exists e: Cache :: Runs(c, before, e) && Follows(e, ref, d)
  {
    hide Follows;
    assert (before + [ref])[..|before|] == before;
  }

  lemma LastStep(c: Cache, refs: seq<Ref>, d: Cache) returns (e: Cache, ref: Ref, before: seq<Ref>)
    requires Runs(c, refs, d) && refs != []
    ensures refs == before + [ref] && |before| < |refs| && Runs(c, before, e) && Follows(e, ref, d)
  {
    hide Follows, Runs;
    before, ref := refs[..|refs| - 1], refs[|refs| - 1];
    assert refs == before + [ref];
    RunsLast(c, before, ref, d);
    e :| Runs(c, before, e) && Follows(e, ref, d);
  }

  lemma FollowParts(e: Cache, ref: Ref, d: Cache)
    requires Follows(e, ref, d)
    ensures Shape(e) && Access(e, ref.cmd, ref.addr, ref.env).Done? && Access(e, ref.cmd, ref.addr, ref.env).cache == d
  {
    hide Access;
  }

  lemma KeepsConfig(c: Cache, ref: Ref, refs: seq<Ref>)
    requires Shape(c) && LruState(c, refs)
    ensures var r := Access(c, ref.cmd, ref.addr, ref.env); r.Done? ==> r.cache.cfg == c.cfg
  {
    AccessIsFlat(c, ref.cmd, ref.addr, ref.env);
    hide Access;
  }

  lemma NewState(cfg: Config, mem: map<nat, seq<Byte>>)
    requires GoodConfig(cfg) && cfg.policy == LRU
    ensures LruState(Create(cfg, mem), []) && Create(cfg, mem).cfg == cfg
  {
    CreateOk(cfg, mem);
    hide Inv;
  }

  /** The tag is among the first `n` entries of the stack. */
  ghost predicate Recent(stack: seq<nat>, n: nat, tag: nat) {
    exists i :: 0 <= i < |stack| && i < n && stack[i] == tag
  }

  lemma FoundIsRecent(cs: CSet, stack: seq<nat>, n: nat, tag: nat)
    requires |cs.blks| == n && IsOrder(cs.order, n) && Carries(cs, stack) && FindIn(cs.order, cs.blks, tag).Some?
    ensures Recent(stack, n, tag)
  {
    var i := FoundAt(cs, stack, FindIn(cs.order, cs.blks, tag).value, n);
    assert stack[i] == tag;
  }

  lemma RecentIsFound(cs: CSet, stack: seq<nat>, n: nat, tag: nat)
    requires |cs.blks| == n && IsOrder(cs.order, n) && Carries(cs, stack) && Recent(stack, n, tag)
    ensures FindIn(cs.order, cs.blks, tag).Some?
  {
    var i :| 0 <= i < |stack| && i < n && stack[i] == tag;
    assert cs.order[i] in cs.order && Matches(cs.blks[cs.order[i]], tag);
  }

  /** A hit is a tag among the first `assoc` of the stack. */
  lemma HitsInStack(c: Cache, refs: seq<Ref>, addr: nat)
    requires LruState(c, refs)
    ensures Probe(c, addr) <==> Recent(Stack(c.cfg, refs, SetOf(c.cfg, addr)), c.cfg.assoc, Tag(c.cfg, addr))
  {
    var s, t := SetOf(c.cfg, addr), Tag(c.cfg, addr);
    var cs, stack := c.sets[s], Stack(c.cfg, refs, s);
    LookupsAgree(c.cfg, cs, t);
    hide FindIn, Recent, Stack;
    if FindIn(cs.order, cs.blks, t).Some? {
      FoundIsRecent(cs, stack, c.cfg.assoc, t);
    }
    if Recent(stack, c.cfg.assoc, t) {
      RecentIsFound(cs, stack, c.cfg.assoc, t);
    }
  }

  lemma RecentWider(stack: seq<nat>, n: nat, m: nat, tag: nat)
    requires n <= m && Recent(stack, n, tag)
    ensures Recent(stack, m, tag)
  {
  }

  lemma {:induction false} SameStack(a: Config, b: Config, refs: seq<Ref>, s: nat)
    requires GoodConfig(a) && GoodConfig(b) && a.nsets == b.nsets && a.bsize == b.bsize
    ensures Stack(a, refs, s) == Stack(b, refs, s)
  {
    if refs != [] {
      SameStack(a, b, refs[..|refs| - 1], s);
    }
  }

  /** Stack inclusion: after the same references, whatever hits in an LRU cache hits in every
      LRU cache of the same sets and blocks with more ways, hashed or scanned. */
  lemma WiderHitsToo(a: Config, b: Config, mem: map<nat, seq<Byte>>, refs: seq<Ref>, narrow: Cache, wide: Cache, addr: nat)
    requires GoodConfig(a) && GoodConfig(b) && a.policy == LRU && b.policy == LRU
    requires a.nsets == b.nsets && a.bsize == b.bsize && a.assoc <= b.assoc
    requires Runs(Create(a, mem), refs, narrow) && Runs(Create(b, mem), refs, wide)
    ensures narrow.cfg == a && wide.cfg == b && Shape(narrow) && Shape(wide)
    ensures Probe(narrow, addr) ==> Probe(wide, addr)
  {
    LruRun(a, mem, refs, narrow);
    LruRun(b, mem, refs, wide);
    HitsInStack(narrow, refs, addr);
    HitsInStack(wide, refs, addr);
    SameStack(a, b, refs, SetOf(a, addr));
    var stack := Stack(a, refs, SetOf(a, addr));
    hide Stack, LruState, Recent, Runs;
    if Probe(narrow, addr) {
      RecentWider(stack, a.assoc, b.assoc, Tag(a, addr));
    }
  }
}
