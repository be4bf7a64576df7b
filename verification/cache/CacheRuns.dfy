/** Flushes, and whole runs of accesses and flushes against a flat memory. */
module CacheRuns {
  import opened Common
  import opened Orders
  import opened CacheModel
  import opened CacheStore
  import opened CacheAccess

  ghost predicate SameFlat(c: Cache, d: Cache)
    requires Shape(c) && Shape(d) && d.cfg == c.cfg
  {
    forall a: nat :: Base(c.cfg, a) == a ==> Flat(d, a) == Flat(c, a)
  }

  // ----- flushes -----

  /** Way `w` of set `s` became invalid, and its block was written back if it was dirty. */
  ghost predicate Drops(c: Cache, d: Cache, s: nat, w: nat) {
    && Shape(c) && Shape(d) && s < c.cfg.nsets && w < c.cfg.assoc && d.cfg == c.cfg && d.lastTagset == 0 && !d.lastSome
    && d.sets == c.sets[s := c.sets[s].(blks := c.sets[s].blks[w := c.sets[s].blks[w].(valid := false)])]
    && d.mem == Written(c, s, w)
  }

  lemma DropsSetOk(cfg: Config, cs: CSet, w: nat)
    requires SetOk(cfg, cs) && w < cfg.assoc
    ensures SetOk(cfg, cs.(blks := cs.blks[w := cs.blks[w].(valid := false)]))
  {
    var ct := cs.(blks := cs.blks[w := cs.blks[w].(valid := false)]);
    assert Unique(ct);
  }

  lemma DropsInv(c: Cache, d: Cache, s: nat, w: nat)
    requires Inv(c) && Drops(c, d, s, w) && c.sets[s].blks[w].valid
    ensures Inv(d)
  {
    DropsSetOk(c.cfg, c.sets[s], w);
    forall q, v | 0 <= q < d.cfg.nsets && 0 <= v < d.cfg.assoc ensures BlockClean(d, q, v) {
      assert BlockClean(c, q, v);
      if (q != s || v != w) && c.sets[q].blks[v].valid {
        RefillClean(c, s, w, q, v);
      }
    }
  }

  lemma DropsFlat(c: Cache, d: Cache, s: nat, w: nat, a: nat)
    requires Inv(c) && Drops(c, d, s, w) && SetsOk(d) && c.sets[s].blks[w].valid && Base(c.cfg, a) == a
    ensures Flat(d, a) == Flat(c, a)
  {
    var t, cs := Tag(c.cfg, a), c.sets[s];
    if SetOf(c.cfg, a) != s {
      WrittenElsewhere(c, s, w, a);
    } else if Matches(cs.blks[w], t) {
      FlatFound(c, a, w);
      assert Unique(cs);
      FlatAbsent(d, a);
      WrittenBack(c, s, w, a);
    } else if v :| 0 <= v < c.cfg.assoc && Matches(cs.blks[v], t) {
      FlatFound(c, a, v);
      FlatFound(d, a, v);
    } else {
      FlatAbsent(c, a);
      FlatAbsent(d, a);
      WrittenElsewhere(c, s, w, a);
    }
  }

  lemma FlushWayIs(c: Cache, s: nat, w: nat, lat: int, env: Env)
    requires Shape(c) && s < c.cfg.nsets && w < c.cfg.assoc && c.lastTagset == 0 && !c.lastSome
    ensures var d := FlushWay(c, s, w, lat, env).0;
            if c.sets[s].blks[w].valid then Drops(c, d, s, w) else d == c
  {
  }

  lemma FlushWayKeeps(c: Cache, s: nat, w: nat, lat: int, env: Env)
    requires Inv(c) && s < c.cfg.nsets && w < c.cfg.assoc && c.lastTagset == 0 && !c.lastSome
    ensures var d := FlushWay(c, s, w, lat, env).0;
            && Inv(d) && d.cfg == c.cfg && d.lastTagset == 0 && !d.lastSome && SameFlat(c, d) && d.sets[s].order == c.sets[s].order
            && (forall q, v :: 0 <= q < c.cfg.nsets && 0 <= v < c.cfg.assoc ==>
                  (d.sets[q].blks[v].valid <==> c.sets[q].blks[v].valid && (q != s || v != w)))
  {
    FlushWayIs(c, s, w, lat, env);
    var d := FlushWay(c, s, w, lat, env).0;
    if c.sets[s].blks[w].valid {
      hide FlushWay;
      DropsInv(c, d, s, w);
      forall a: nat | Base(c.cfg, a) == a ensures Flat(d, a) == Flat(c, a) {
        DropsFlat(c, d, s, w, a);
      }
    }
  }

  lemma {:induction false} FlushSetKeeps(c: Cache, s: nat, i: nat, lat: int, env: Env)
    requires Inv(c) && s < c.cfg.nsets && i <= c.cfg.assoc && c.lastTagset == 0 && !c.lastSome
    requires forall j :: 0 <= j < i ==> !c.sets[s].blks[c.sets[s].order[j]].valid
    ensures var d := FlushSet(c, s, i, lat, env).0;
            && Inv(d) && d.cfg == c.cfg && d.lastTagset == 0 && !d.lastSome && SameFlat(c, d)
            && (forall v :: 0 <= v < c.cfg.assoc ==> !d.sets[s].blks[v].valid)
            && (forall q, v :: 0 <= q < c.cfg.nsets && 0 <= v < c.cfg.assoc && q != s ==>
                  d.sets[q].blks[v].valid == c.sets[q].blks[v].valid)
    decreases c.cfg.assoc - i
  {
    var order := c.sets[s].order;
    if i == c.cfg.assoc {
      forall v | 0 <= v < c.cfg.assoc ensures !c.sets[s].blks[v].valid {
        assert v in order;
      }
    } else {
      FlushWayKeeps(c, s, order[i], lat, env);
      var d := FlushWay(c, s, order[i], lat, env);
      hide FlushWay, Inv;
      FlushSetKeeps(d.0, s, i + 1, d.1, env);
      assert FlushSet(c, s, i, lat, env) == FlushSet(d.0, s, i + 1, d.1, env);
    }
  }

  lemma {:induction false} FlushFromKeeps(c: Cache, s: nat, lat: int, env: Env)
    requires Inv(c) && s <= c.cfg.nsets && c.lastTagset == 0 && !c.lastSome
    requires forall q, v :: 0 <= q < s && 0 <= v < c.cfg.assoc ==> !c.sets[q].blks[v].valid
    ensures var d := FlushFrom(c, s, lat, env).0;
            && Inv(d) && d.cfg == c.cfg && SameFlat(c, d)
            && (forall q, v :: 0 <= q < c.cfg.nsets && 0 <= v < c.cfg.assoc ==> !d.sets[q].blks[v].valid)
    decreases c.cfg.nsets - s
  {
    if s < c.cfg.nsets {
      FlushSetKeeps(c, s, 0, lat, env);
      var d := FlushSet(c, s, 0, lat, env);
      hide FlushSet, Inv;
      FlushFromKeeps(d.0, s + 1, d.1, env);
      assert FlushFrom(c, s, lat, env) == FlushFrom(d.0, s + 1, d.1, env);
    }
  }

  /** A flush leaves the flat memory as it is, holds nothing, and puts every block below. */
  lemma FlushIsFlat(c: Cache, env: Env)
    requires Inv(c)
    ensures var d := Flush(c, env).0;
            && Inv(d) && d.cfg == c.cfg && SameFlat(c, d)
            && (forall addr: nat :: !Probe(d, addr))
            && (forall a: nat :: Base(c.cfg, a) == a ==> Fetch(d.mem, a, c.cfg.bsize) == Flat(c, a))
  {
    var b := c.(lastTagset := 0, lastSome := false, lastSet := 0, lastWay := 0);
    assert forall s, w :: 0 <= s < c.cfg.nsets && 0 <= w < c.cfg.assoc && BlockClean(c, s, w) ==> BlockClean(b, s, w);
    assert forall a: nat :: Flat(b, a) == Flat(c, a);
    FlushFromKeeps(b, 0, c.cfg.hitLatency, env);
    var d := Flush(c, env).0;
    hide FlushFrom;
    forall a: nat ensures Flat(d, a) == Fetch(d.mem, a, c.cfg.bsize) {
      FlatAbsent(d, a);
    }
  }

  /** Flushing one block leaves the flat memory as it is and puts that block below. */
  lemma FlushAddrIsFlat(c: Cache, addr: nat, env: Env)
    requires Inv(c)
    ensures var d := FlushAddr(c, addr, env).0;
            && Inv(d) && d.cfg == c.cfg && SameFlat(c, d) && !Probe(d, addr)
            && Fetch(d.mem, Base(c.cfg, addr), c.cfg.bsize) == Flat(c, Base(c.cfg, addr))
  {
    var s, t, base := SetOf(c.cfg, addr), Tag(c.cfg, addr), Base(c.cfg, addr);
    BaseParts(c.cfg, addr);
    LookupsAgree(c.cfg, c.sets[s], t);
    var f := Lookup(c.cfg, c.sets[s], t);
    if f.None? {
      FlatAbsent(c, base);
    } else {
      var w, b := f.value, c.(lastTagset := 0, lastSome := false, lastSet := 0, lastWay := 0);
      assert forall q, v :: 0 <= q < c.cfg.nsets && 0 <= v < c.cfg.assoc && BlockClean(c, q, v) ==> BlockClean(b, q, v);
      assert forall a: nat :: Flat(b, a) == Flat(c, a);
      FlushWayKeeps(b, s, w, c.cfg.hitLatency, env);
      var e := FlushWay(b, s, w, c.cfg.hitLatency, env).0;
      var d := FlushAddr(c, addr, env).0;
      FlushedTags(b, s, w, c.cfg.hitLatency, env);
      hide FlushWay;
      TailKeeps(e, s, w);
      FlushedAbsent(c, d, s, w, addr);
    }
  }

  lemma FlushedTags(c: Cache, s: nat, w: nat, lat: int, env: Env)
    requires Shape(c) && s < c.cfg.nsets && w < c.cfg.assoc
    ensures var d := FlushWay(c, s, w, lat, env).0;
            forall q, v :: 0 <= q < c.cfg.nsets && 0 <= v < c.cfg.assoc ==> d.sets[q].blks[v].tag == c.sets[q].blks[v].tag
  {
  }

  lemma FlushedAbsent(c: Cache, d: Cache, s: nat, w: nat, addr: nat)
    requires Inv(c) && Inv(d) && d.cfg == c.cfg && s == SetOf(c.cfg, addr) && w < c.cfg.assoc
    requires Matches(c.sets[s].blks[w], Tag(c.cfg, addr))
    requires forall v :: 0 <= v < c.cfg.assoc ==> d.sets[s].blks[v].tag == c.sets[s].blks[v].tag
    requires forall v :: 0 <= v < c.cfg.assoc ==> (d.sets[s].blks[v].valid <==> c.sets[s].blks[v].valid && v != w)
    ensures !Probe(d, addr) && Flat(d, Base(c.cfg, addr)) == Fetch(d.mem, Base(c.cfg, addr), c.cfg.bsize)
  {
    BaseParts(c.cfg, addr);
    assert Unique(c.sets[s]);
    FlatAbsent(d, Base(c.cfg, addr));
  }

  /** Moving a way to the tail changes nothing that can be seen. */
  lemma TailKeeps(c: Cache, s: nat, w: nat)
    requires Inv(c) && s < c.cfg.nsets && w < c.cfg.assoc && c.lastTagset == 0 && !c.lastSome
    ensures var d := WithSet(c, s, c.sets[s].(order := MoveToTail(c.sets[s].order, w)));
            && Inv(d) && d.cfg == c.cfg && SameFlat(c, d)
            && (forall q, v :: 0 <= q < c.cfg.nsets && 0 <= v < c.cfg.assoc ==> d.sets[q].blks[v] == c.sets[q].blks[v])
  {
    MoveFacts(c.sets[s].order, c.cfg.assoc, w);
    var ct := c.sets[s].(order := MoveToTail(c.sets[s].order, w));
    SameStoreOk(c.cfg, c.sets[s], ct);
    var d := WithSet(c, s, ct);
    forall q, v | 0 <= q < d.cfg.nsets && 0 <= v < d.cfg.assoc ensures BlockClean(d, q, v) {
      assert BlockClean(c, q, v);
    }
    forall a: nat | Base(c.cfg, a) == a ensures Flat(d, a) == Flat(c, a) {
      if v :| 0 <= v < c.cfg.assoc && Matches(c.sets[SetOf(c.cfg, a)].blks[v], Tag(c.cfg, a)) {
        FlatFound(c, a, v);
        FlatFound(d, a, v);
      } else {
        FlatAbsent(c, a);
        FlatAbsent(d, a);
      }
    }
  }

  // ----- runs -----

  datatype Op = Do(cmd: Cmd, addr: nat, env: Env) | FlushAll(env: Env) | FlushOne(addr: nat, env: Env)

  function Step(c: Cache, op: Op): (r: Result)
    requires Shape(c)
  {
    match op
    case Do(cmd, addr, env) => Access(c, cmd, addr, env)
    case FlushAll(env) => var f := Flush(c, env); Done(f.0, [], f.1)
    case FlushOne(addr, env) => var f := FlushAddr(c, addr, env); Done(f.0, [], f.1)
  }

  ghost predicate StepFits(cfg: Config, op: Op)
    requires cfg.bsize > 0
  {
    op.Do? ==> Offset(cfg, op.addr) + op.cmd.Size() <= cfg.bsize
  }

  /** The block at `a` after one operation of a memory without a cache. */
  function FlatStep(cfg: Config, data: seq<Byte>, op: Op, a: nat): (r: seq<Byte>)
    requires cfg.bsize > 0 && |data| == cfg.bsize && (op.Do? ==> Offset(cfg, op.addr) + op.cmd.Size() <= cfg.bsize)
    ensures |r| == |data|
  {
    if op.Do? then AfterCmd(data, op.cmd, Offset(cfg, op.addr), a == Base(cfg, op.addr)) else data
  }

  lemma StepIsFlat(c: Cache, op: Op)
    requires Inv(c)
    ensures var r := Step(c, op);
            r.Done? ==>
              && Inv(r.cache) && r.cache.cfg == c.cfg && StepFits(c.cfg, op)
              && (op.Do? ==> Returns(c, op.cmd, op.addr, r.bytes))
              && (forall a: nat :: Base(c.cfg, a) == a ==> Flat(r.cache, a) == FlatStep(c.cfg, Flat(c, a), op, a))
  {
    match op
    case Do(cmd, addr, env) => AccessIsFlat(c, cmd, addr, env);
    case FlushAll(env) => FlushIsFlat(c, env);
    case FlushOne(addr, env) => FlushAddrIsFlat(c, addr, env);
  }

  /** The cache after a run that reaches its end. */
  ghost predicate Reaches(c: Cache, ops: seq<Op>, d: Cache, out: seq<seq<Byte>>)
    decreases |ops|
  {
    && Shape(c) && |out| == |ops|
    && if ops == [] then d == c
       else
         var r := Step(c, ops[0]);
         r.Done? && r.bytes == out[0] && Reaches(r.cache, ops[1..], d, out[1..])
  }

  ghost predicate Fits(cfg: Config, ops: seq<Op>) {
    cfg.bsize > 0 && forall i :: 0 <= i < |ops| ==> StepFits(cfg, ops[i])
  }

  /** The block at `a` after a run of a memory without a cache. */
  ghost function FlatRun(cfg: Config, data: seq<Byte>, ops: seq<Op>, a: nat): (r: seq<Byte>)
    requires Fits(cfg, ops) && |data| == cfg.bsize
    ensures |r| == |data|
    decreases |ops|
  {
    if ops == [] then data
    else
      assert StepFits(cfg, ops[0]);
      FlatRun(cfg, FlatStep(cfg, data, ops[0], a), ops[1..], a)
  }

  /** In every run, under every policy, through replacements and flushes: each read returns
      what the memory without a cache holds after the operations before it. */
  lemma {:induction false} RunIsFlat(c: Cache, ops: seq<Op>, d: Cache, out: seq<seq<Byte>>)
    requires Inv(c) && Reaches(c, ops, d, out)
    ensures Inv(d) && d.cfg == c.cfg && Fits(c.cfg, ops)
    ensures forall i :: 0 <= i < |ops| && ops[i].Do? && ops[i].cmd.Read? ==> ReadOk(c, ops, i, out[i])
    decreases |ops|
  {
    if ops != [] {
      StepIsFlat(c, ops[0]);
      var e := Step(c, ops[0]).cache;
      hide Step, Inv, Shape, StepFits;
      RunIsFlat(e, ops[1..], d, out[1..]);
      forall i | 0 <= i < |ops| ensures StepFits(c.cfg, ops[i]) {
        assert i > 0 ==> ops[i] == ops[1..][i - 1];
      }
      forall i | 0 <= i < |ops| && ops[i].Do? && ops[i].cmd.Read? ensures ReadOk(c, ops, i, out[i]) {
        if i > 0 {
          assert ops[1..][i - 1] == ops[i];
          LaterRead(c, e, ops, i, out[i]);
        } else {
          FirstRead(c, ops, out[0]);
        }
      }
    }
  }

  lemma FirstRead(c: Cache, ops: seq<Op>, bytes: seq<Byte>)
    requires Inv(c) && Fits(c.cfg, ops) && 0 < |ops| && ops[0].Do? && ops[0].cmd.Read? && StepFits(c.cfg, ops[0])
    requires Returns(c, ops[0].cmd, ops[0].addr, bytes)
    ensures ReadOk(c, ops, 0, bytes)
  {
    assert ops[..0] == [];
    hide Inv;
  }

  ghost predicate ReadOk(c: Cache, ops: seq<Op>, i: nat, bytes: seq<Byte>)
    requires Inv(c) && Fits(c.cfg, ops) && i < |ops| && ops[i].Do? && ops[i].cmd.Read?
  {
    assert Fits(c.cfg, ops[..i]) && StepFits(c.cfg, ops[i]);
    var a, ofs := Base(c.cfg, ops[i].addr), Offset(c.cfg, ops[i].addr);
    bytes == FlatRun(c.cfg, Flat(c, a), ops[..i], a)[ofs..ofs + ops[i].cmd.n]
  }

  lemma LaterRead(c: Cache, e: Cache, ops: seq<Op>, i: nat, bytes: seq<Byte>)
    requires Inv(c) && Inv(e) && e.cfg == c.cfg && Fits(c.cfg, ops) && 0 < i < |ops| && ops[i].Do? && ops[i].cmd.Read?
    requires StepFits(c.cfg, ops[0])
    requires forall a: nat :: Base(c.cfg, a) == a ==> Flat(e, a) == FlatStep(c.cfg, Flat(c, a), ops[0], a)
    requires Fits(e.cfg, ops[1..]) && ops[1..][i - 1] == ops[i] && ReadOk(e, ops[1..], i - 1, bytes)
    ensures ReadOk(c, ops, i, bytes)
  {
    assert ops[..i][1..] == ops[1..][..i - 1];
    assert ops[..i][0] == ops[0];
    BaseParts(c.cfg, ops[i].addr);
    hide Inv;
  }
}
