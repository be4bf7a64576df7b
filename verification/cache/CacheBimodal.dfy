/** Bimodal insertions: in every 32 in a row, wherever in the cache they happen, exactly one block
    comes in with the lower rank. */
module CacheBimodal {
  import opened Common
  import opened Orders
  import opened CacheModel
  import opened CacheStore
  import opened CacheAccess
  import opened CacheRuns
  import opened CacheCreate
  import opened CacheDuel

  /** The rank, after a miss, of the block in the way that the miss filled. */
  function FilledRank(c: Cache, op: Op): int
    requires Shape(c) && op.Do?
  {
    var s, r := SetOf(c.cfg, op.addr), Step(c, op);
    var ch := Choose(c.cfg, c.sets[s], c.psel, c.bipctr, op.env.rnd);
    if r.Done? && ch.Chosen? && s < |r.cache.sets| && ch.way < |r.cache.sets[s].blks| then r.cache.sets[s].blks[ch.way].rrpv
    else -1
  }

  lemma BimodalRank(c: Cache, op: Op)
    requires DuelOk(c) && Shape(c) && GoodOp(c, op) && BimodalMiss(c, op)
    ensures FilledRank(c, op) == BipRank(c.bipctr)
  {
    var s, x := SetOf(c.cfg, op.addr), op.addr;
    ChooseRanks(c.cfg, c.sets[s], c.psel, c.bipctr, op.env.rnd);
    hide Choose, BipRank, Bimodal, SearchRank, Inv;
    BimodalGoes(c, op);
    MissPieces(c, s, op.cmd, x, op.env);
    hide Miss, Step, Rehash, Fetch, MkBaddr;
  }

  lemma BimodalGoes(c: Cache, op: Op)
    requires DuelOk(c) && Shape(c) && GoodOp(c, op) && BimodalMiss(c, op)
    ensures var s := SetOf(c.cfg, op.addr);
      && Bimodal(c.sets[s].kind, c.psel) && Offset(c.cfg, op.addr) + op.cmd.Size() <= c.cfg.bsize
      && Step(c, op) == Miss(c, s, op.cmd, op.addr, op.env)
      && (Choose(c.cfg, c.sets[s], c.psel, c.bipctr, op.env.rnd).Chosen? ==> Miss(c, s, op.cmd, op.addr, op.env).Done?)
  {
    hide Choose, Evict, Filled, Rehash, Inv, Bimodal;
  }

  /** The ranks that the bimodal insertions of a run give, in order. */
  ghost function InsertedRanks(c: Cache, ops: seq<Op>): seq<int>
    requires Shape(c)
    decreases |ops|
  {
    if !Goes(c, ops) then []
    else (if BimodalMiss(c, ops[0]) then [FilledRank(c, ops[0])] else []) + InsertedRanks(Step(c, ops[0]).cache, ops[1..])
  }

  /** The rank of the insertion number `i` from now, when the counter stands at `b`. */
  function NextRank(b: nat, i: nat): int { BipRank((b + i) % LEADERS) }

  ghost predicate Follow(q: seq<int>, b: nat) { forall i: nat :: i < |q| ==> q[i] == NextRank(b, i) }

  lemma ConsFollows(b: nat, rest: seq<int>)
    requires b < LEADERS && Follow(rest, StepBip(b))
    ensures Follow([BipRank(b)] + rest, b)
  {
    var q := [BipRank(b)] + rest;
    forall i: nat | i < |q| ensures q[i] == NextRank(b, i) {
      if i > 0 { StepBipMod(b, i - 1); assert q[i] == rest[i - 1]; }
    }
  }

  lemma {:induction false} RanksFollowCounter(c: Cache, ops: seq<Op>)
    requires DuelOk(c) && Shape(c) && GoodRun(c, ops)
    ensures Follow(InsertedRanks(c, ops), c.bipctr)
    decreases |ops|
  {
    hide DuelOk, GoodRun, Step, SameKinds, StepBip, Shape, Goes, BipRank, FilledRank, NextRank, Bimodal, Lookup;
    if ops == [] {
      RunStops(c);
    } else {
      RunGoes(c, ops);
      DuelParts(c);
      var d := Step(c, ops[0]).cache;
      RanksFollowCounter(d, ops[1..]);
      FirstOp(c, ops);
      var rest := InsertedRanks(d, ops[1..]);
      if BimodalMiss(c, ops[0]) {
        BimodalRank(c, ops[0]);
        ConsFollows(c.bipctr, rest);
      } else {
        assert [] + rest == rest;
      }
    }
  }

  lemma FirstOp(c: Cache, ops: seq<Op>)
    requires Shape(c) && GoodRun(c, ops) && ops != []
    ensures GoodOp(c, ops[0])
  {
  }

  /** Of any 32 bimodal insertions in a row exactly one gives the lower rank, the other 31 the
      maximum. */
  lemma OneInEach32(c: Cache, ops: seq<Op>, start: nat)
    requires DuelOk(c) && Shape(c) && GoodRun(c, ops) && start + LEADERS <= |InsertedRanks(c, ops)|
    ensures exists j: nat :: OnlyLow(InsertedRanks(c, ops), start, j)
  {
    hide InsertedRanks, DuelOk, GoodRun, Shape;
    RanksFollowCounter(c, ops);
    OneInRow(InsertedRanks(c, ops), c.bipctr, start);
  }

  /** Among the 32 ranks from `start` on, the one at `j` and no other is the lower one. */
  ghost predicate OnlyLow(q: seq<int>, start: nat, j: nat) {
    && start <= j < start + LEADERS <= |q|
    && forall i: nat :: start <= i < start + LEADERS ==> q[i] == if i == j then RRPV_MAX - 1 else RRPV_MAX
  }

  lemma OneInRow(q: seq<int>, b: nat, start: nat)
    requires Follow(q, b) && start + LEADERS <= |q|
    ensures exists j: nat :: OnlyLow(q, start, j)
  {
    var gap := (b + start) % LEADERS;
    var j: nat := if gap == 0 then start else start + LEADERS - gap;
    forall i: nat | start <= i < start + LEADERS ensures q[i] == if i == j then RRPV_MAX - 1 else RRPV_MAX {
      OneZero(b, start, i);
      assert q[i] == NextRank(b, i);
    }
    assert OnlyLow(q, start, j);
  }

  lemma OneZero(b: nat, start: nat, i: nat)
    requires start <= i < start + LEADERS
    ensures var gap := (b + start) % LEADERS;
      (b + i) % LEADERS == 0 <==> i == if gap == 0 then start else start + LEADERS - gap
  {
  }
}
