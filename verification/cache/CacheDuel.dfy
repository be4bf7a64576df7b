/** DRRIP: the victim search ends, and the duel between the two insertion policies stays fair. */
module CacheDuel {
  import opened Common
  import opened Orders
  import opened CacheModel
  import opened CacheStore
  import opened CacheAccess
  import opened CacheRuns
  import opened CacheCreate

  // ----- the victim search -----

  /** Ranks are never negative, and all but the one of the way-list head are in range. */
  ghost predicate RanksOk(r: seq<int>) {
    forall i :: 0 <= i < |r| ==> 0 <= r[i] && (i > 0 ==> r[i] <= RRPV_MAX)
  }

  /** Behind the head no rank is the maximum after `i` increments. */
  ghost predicate NoneAfter(r: seq<int>, i: int) { forall j :: 0 < j < |r| ==> r[j] + i != RRPV_MAX }

  /** The rank at position `p` reaches the maximum after `k` increments and not before, no
      other position did, and later passes do not look at the head. */
  ghost predicate IsVictim(r: seq<int>, p: nat, k: nat) {
    && p < |r| && r[p] + k == RRPV_MAX && (k > 0 ==> p > 0)
    && (forall j :: 0 <= j < |r| ==> k > 0 ==> r[j] != RRPV_MAX)
    && (forall i :: 0 < i < k ==> NoneAfter(r, i))
    && (forall j :: (if k > 0 then 1 else 0) <= j < p ==> r[j] + k != RRPV_MAX)
  }

  /** The search fails exactly when no rank is the maximum and every rank behind the head
      exceeds it; then no number of increments would help. */
  lemma SearchFails(r: seq<int>)
    requires |r| > 0
    ensures SearchRank(r).None? <==>
              (forall j :: 0 <= j < |r| ==> r[j] != RRPV_MAX) && (forall j :: 0 < j < |r| ==> r[j] > RRPV_MAX)
    ensures SearchRank(r).None? ==> forall k: nat :: NoneAfter(r, k)
  {
  }

  lemma SearchFinds(r: seq<int>)
    requires |r| > 0 && SearchRank(r).Some?
    ensures var s := SearchRank(r).value; IsVictim(r, s.0, s.1) && forall j :: 0 < j < |r| && r[j] <= RRPV_MAX ==> r[j] + s.1 <= RRPV_MAX
  {
    var f := FirstRank(r, 0, RRPV_MAX);
    if f.None? {
      var m := BestRank(r, 1).value;
      assert forall i :: 0 < i < RRPV_MAX - m ==> NoneAfter(r, i);
    }
  }

  /** With at least two ways and ranks in order, a victim is found. */
  lemma SearchEnds(r: seq<int>)
    requires |r| >= 2 && RanksOk(r)
    ensures SearchRank(r).Some?
  {
    SearchFails(r);
    assert r[1] <= RRPV_MAX;
  }

  ghost predicate SetRanked(cs: CSet)
    requires InWays(cs.order, |cs.blks|)
  {
    RanksOk(Ranks(cs))
  }

  ghost predicate Ranked(c: Cache)
    requires Shape(c)
  {
    forall s :: 0 <= s < c.cfg.nsets ==> SetRanked(c.sets[s])
  }

  /** Inserting the new block keeps the ranks in order; the victim had the maximal rank. */
  lemma ChooseRanks(cfg: Config, cs: CSet, psel: nat, bipctr: nat, rnd: nat)
    requires GoodConfig(cfg) && SetShape(cfg, cs) && cfg.policy == DRRIP && cfg.assoc >= 2 && SetRanked(cs)
    ensures var r := Choose(cfg, cs, psel, bipctr, rnd);
            && r.Chosen? && r.cs.order == cs.order && r.cs.kind == cs.kind && SetRanked(r.cs)
            && (exists p: nat, k: nat :: p < cfg.assoc && IsVictim(Ranks(cs), p, k) && r.way == cs.order[p])
            && r.cs.blks[r.way].rrpv == InsertRank(cs.kind, psel, bipctr)
            && r.psel == Vote(cs.kind, psel) && r.bipctr == (if Bimodal(cs.kind, psel) then StepBip(bipctr) else bipctr)
  {
    var q := Ranks(cs);
    SearchEnds(q);
    SearchFinds(q);
    var s := SearchRank(q).value;
    var r := Choose(cfg, cs, psel, bipctr, rnd);
    assert IsVictim(q, s.0, s.1) && r.way == cs.order[s.0];
    hide SearchRank, IsVictim;
    forall i | 0 <= i < |cs.order| ensures var v := Ranks(r.cs)[i]; 0 <= v && (i > 0 ==> v <= RRPV_MAX) {
      assert q[i] == cs.blks[cs.order[i]].rrpv;
    }
  }

  // ----- one operation -----

  /** A miss whose insertion is bimodal. */
  ghost predicate BimodalMiss(c: Cache, op: Op)
    requires Shape(c)
  {
    && op.Do? && Base(c.cfg, op.addr) != c.lastTagset
    && var s := SetOf(c.cfg, op.addr);
       Lookup(c.cfg, c.sets[s], Tag(c.cfg, op.addr)).None? && Bimodal(c.sets[s].kind, c.psel)
  }

  ghost predicate DuelOk(c: Cache) {
    && Inv(c) && c.cfg.policy == DRRIP && c.cfg.assoc >= 2 && Ranked(c)
    && c.psel <= PSEL_MAX + 1 && c.bipctr <= BIPCTR_MAX
  }

  /** A flush of one block that does not take a rank beyond the maximum from the head of the way list,
      where the search does not look, to its tail. */
  ghost predicate TameFlush(c: Cache, addr: nat)
    requires Shape(c)
  {
    var cs := c.sets[SetOf(c.cfg, addr)];
    var f := Lookup(c.cfg, cs, Tag(c.cfg, addr));
    f.Some? && cs.order[0] == f.value ==> cs.blks[f.value].rrpv <= RRPV_MAX
  }

  /** An operation that the cache does not refuse. */
  ghost predicate GoodOp(c: Cache, op: Op)
    requires Shape(c)
  {
    match op
    case FlushAll(_) => true
    case FlushOne(addr, _) => TameFlush(c, addr)
    case Do(cmd, addr, _) =>
      GoodSize(addr, cmd.Size()) && Offset(c.cfg, addr) + cmd.Size() <= c.cfg.bsize && (c.lastSome || Base(c.cfg, addr) != 0)
  }

  ghost predicate SameKinds(c: Cache, d: Cache) {
    |d.sets| == |c.sets| && forall s :: 0 <= s < |c.sets| ==> d.sets[s].kind == c.sets[s].kind
  }

  lemma HitRanks(c: Cache, s: nat, w: nat, cmd: Cmd, addr: nat, env: Env, fast: bool)
    requires Shape(c) && s < c.cfg.nsets && w < c.cfg.assoc && Offset(c.cfg, addr) + cmd.Size() <= c.cfg.bsize
    requires c.cfg.policy == DRRIP && Ranked(c)
    ensures var d := Hit(c, s, w, cmd, addr, env, fast).cache;
            && |d.sets| == |c.sets| && SameKinds(c, d) && d.psel == c.psel && d.bipctr == c.bipctr
            && (forall q :: 0 <= q < |d.sets| ==> InWays(d.sets[q].order, |d.sets[q].blks|) && SetRanked(d.sets[q]))
  {
    var d := Hit(c, s, w, cmd, addr, env, fast).cache;
    var b := Touched(c.sets[s].blks[w], cmd, Offset(c.cfg, addr));
    assert b.rrpv == c.sets[s].blks[w].rrpv;
    forall i | 0 <= i < |d.sets[s].order| ensures var v := Ranks(d.sets[s])[i]; 0 <= v && (i > 0 ==> v <= RRPV_MAX) {
      assert Ranks(c.sets[s])[i] == c.sets[s].blks[c.sets[s].order[i]].rrpv;
    }
  }

  lemma MissRanks(c: Cache, s: nat, cmd: Cmd, addr: nat, env: Env)
    requires Shape(c) && s < c.cfg.nsets && Offset(c.cfg, addr) + cmd.Size() <= c.cfg.bsize
    requires c.cfg.policy == DRRIP && c.cfg.assoc >= 2 && Ranked(c)
    ensures var r, cs := Miss(c, s, cmd, addr, env), c.sets[s];
            && r.Done? && |r.cache.sets| == |c.sets| && SameKinds(c, r.cache)
            && r.cache.psel == Vote(cs.kind, c.psel)
            && r.cache.bipctr == (if Bimodal(cs.kind, c.psel) then StepBip(c.bipctr) else c.bipctr)
            && (forall q :: 0 <= q < |r.cache.sets| ==> InWays(r.cache.sets[q].order, |r.cache.sets[q].blks|) && SetRanked(r.cache.sets[q]))
  {
    ChooseRanks(c.cfg, c.sets[s], c.psel, c.bipctr, env.rnd);
    var ch := Choose(c.cfg, c.sets[s], c.psel, c.bipctr, env.rnd);
    hide Choose, Hash, Rehash, Vote, Bimodal;
    var d := Miss(c, s, cmd, addr, env).cache;
    forall i | 0 <= i < |d.sets[s].order| ensures var v := Ranks(d.sets[s])[i]; 0 <= v && (i > 0 ==> v <= RRPV_MAX) {
      assert Ranks(ch.cs)[i] == ch.cs.blks[ch.cs.order[i]].rrpv;
    }
  }

  lemma FlushWayRanks(c: Cache, s: nat, w: nat, lat: int, env: Env)
    requires Shape(c) && s < c.cfg.nsets && w < c.cfg.assoc && Ranked(c)
    ensures var d := FlushWay(c, s, w, lat, env).0;
            SameKinds(c, d) && d.psel == c.psel && d.bipctr == c.bipctr && Ranked(d)
  {
    var d := FlushWay(c, s, w, lat, env).0;
    assert Ranks(d.sets[s]) == Ranks(c.sets[s]);
  }

  lemma {:induction false} FlushSetRanks(c: Cache, s: nat, i: nat, lat: int, env: Env)
    requires Shape(c) && s < c.cfg.nsets && i <= c.cfg.assoc && Ranked(c)
    ensures var d := FlushSet(c, s, i, lat, env).0;
            SameKinds(c, d) && d.psel == c.psel && d.bipctr == c.bipctr && Ranked(d)
    decreases c.cfg.assoc - i
  {
    if i < c.cfg.assoc {
      var w := c.sets[s].order[i];
      FlushWayRanks(c, s, w, lat, env);
      var d := FlushWay(c, s, w, lat, env);
      hide FlushWay, Ranked, Shape;
      FlushSetRanks(d.0, s, i + 1, d.1, env);
      assert FlushSet(c, s, i, lat, env) == FlushSet(d.0, s, i + 1, d.1, env);
    }
  }

  lemma {:induction false} FlushFromRanks(c: Cache, s: nat, lat: int, env: Env)
    requires Shape(c) && s <= c.cfg.nsets && Ranked(c)
    ensures var d := FlushFrom(c, s, lat, env).0;
            SameKinds(c, d) && d.psel == c.psel && d.bipctr == c.bipctr && Ranked(d)
    decreases c.cfg.nsets - s
  {
    if s < c.cfg.nsets {
      FlushSetRanks(c, s, 0, lat, env);
      var d := FlushSet(c, s, 0, lat, env);
      hide FlushSet, Ranked, Shape;
      FlushFromRanks(d.0, s + 1, d.1, env);
      assert FlushFrom(c, s, lat, env) == FlushFrom(d.0, s + 1, d.1, env);
    }
  }

  /** An access always finds its victim, and steps the counters as the duel says. */
  lemma StepDuels(c: Cache, op: Op)
    requires DuelOk(c) && Shape(c) && GoodOp(c, op)
    ensures var r := Step(c, op);
            && r.Done? && DuelOk(r.cache) && r.cache.cfg == c.cfg && SameKinds(c, r.cache)
            && r.cache.bipctr == (if BimodalMiss(c, op) then StepBip(c.bipctr) else c.bipctr)
  {
    match op
    case FlushAll(env) => FlushDuels(c, env);
    case FlushOne(addr, env) => FlushOneDuels(c, addr, env);
    case Do(cmd, addr, env) => AccessDuels(c, cmd, addr, env);
  }

  lemma FlushDuels(c: Cache, env: Env)
    requires DuelOk(c)
    ensures var d := Flush(c, env).0; DuelOk(d) && d.cfg == c.cfg && SameKinds(c, d) && d.bipctr == c.bipctr
  {
    FlushIsFlat(c, env);
    FlushFromRanks(c.(lastTagset := 0, lastSome := false, lastSet := 0, lastWay := 0), 0, c.cfg.hitLatency, env);
    hide Inv, FlushFrom;
  }

  /** Ranks in range behind the head stay so when a way with a rank in range moves to the tail. */
  lemma TailRanks(cs: CSet, w: nat, n: nat)
    requires |cs.blks| == n && IsOrder(cs.order, n) && w < n && SetRanked(cs)
    requires cs.order[0] == w ==> cs.blks[w].rrpv <= RRPV_MAX
    ensures var ct := cs.(order := MoveToTail(cs.order, w)); IsOrder(ct.order, n) && SetRanked(ct)
  {
    MoveFacts(cs.order, n, w);
    var q, r := cs.order, MoveToTail(cs.order, w);
    assert w in q && |r| == n;
    forall i: nat | i < n ensures 0 <= cs.blks[r[i]].rrpv && (i > 0 ==> cs.blks[r[i]].rrpv <= RRPV_MAX) {
      var o := TailFrom(q, w, i);
      hide MoveToTail, IsOrder, Distinct;
      assert Ranks(cs)[o] == cs.blks[q[o]].rrpv;
    }
  }

  /** Where the entry at a place of the order came from: none but the moved way comes from the head. */
  lemma TailFrom(q: seq<nat>, w: nat, i: nat) returns (o: nat)
    requires Distinct(q) && w in q && i < |q|
    ensures o < |q| == |MoveToTail(q, w)| && MoveToTail(q, w)[i] == q[o] && (i > 0 && o == 0 ==> q[o] == w)
  {
    var p: nat :| p < |q| && q[p] == w;
    WithoutAt(q, p);
    o := if i < p then i else if i < |q| - 1 then i + 1 else p;
  }

  lemma FlushOneRanks(c: Cache, addr: nat, env: Env)
    requires Shape(c) && Ranked(c) && TameFlush(c, addr)
    ensures var d := FlushAddr(c, addr, env).0;
      Shape(d) && SameKinds(c, d) && d.psel == c.psel && d.bipctr == c.bipctr && Ranked(d)
  {
    var s := SetOf(c.cfg, addr);
    var f := Lookup(c.cfg, c.sets[s], Tag(c.cfg, addr));
    if f.Some? {
      var c0 := c.(lastTagset := 0, lastSome := false, lastSet := 0, lastWay := 0);
      assert Ranked(c0);
      FlushWayRanks(c0, s, f.value, c.cfg.hitLatency, env);
      var d := FlushWay(c0, s, f.value, c.cfg.hitLatency, env).0;
      assert d.sets[s].order == c.sets[s].order && d.sets[s].blks[f.value].rrpv == c.sets[s].blks[f.value].rrpv;
      TailRanks(d.sets[s], f.value, c.cfg.assoc);
      hide Lookup, FlushWay, SetRanked, MoveToTail;
    }
  }

  lemma FlushOneDuels(c: Cache, addr: nat, env: Env)
    requires DuelOk(c) && Shape(c) && TameFlush(c, addr)
    ensures var d := FlushAddr(c, addr, env).0; DuelOk(d) && d.cfg == c.cfg && SameKinds(c, d) && d.bipctr == c.bipctr
  {
    FlushAddrIsFlat(c, addr, env);
    FlushOneRanks(c, addr, env);
    hide Inv, FlushAddr, TameFlush, Ranked;
  }

  lemma AccessDuels(c: Cache, cmd: Cmd, addr: nat, env: Env)
    requires DuelOk(c) && Shape(c) && GoodOp(c, Do(cmd, addr, env))
    ensures var r := Access(c, cmd, addr, env);
            && r.Done? && DuelOk(r.cache) && r.cache.cfg == c.cfg && SameKinds(c, r.cache)
            && r.cache.bipctr == (if BimodalMiss(c, Do(cmd, addr, env)) then StepBip(c.bipctr) else c.bipctr)
  {
    BaseParts(c.cfg, addr);
    var s := SetOf(c.cfg, addr);
    var f := Lookup(c.cfg, c.sets[s], Tag(c.cfg, addr));
    AccessKeepsInv(c, cmd, addr, env);
    hide Hit, Miss, Inv, Hash, SetRanked, Bimodal, Lookup;
    if Base(c.cfg, addr) == c.lastTagset {
      HitRanks(c, c.lastSet, c.lastWay, cmd, addr, env, true);
    } else if f.Some? {
      HitRanks(c, s, f.value, cmd, addr, env, false);
    } else {
      MissRanks(c, s, cmd, addr, env);
    }
  }

  // ----- runs -----

  ghost predicate Goes(c: Cache, ops: seq<Op>)
    requires Shape(c)
  {
    ops != [] && Step(c, ops[0]).Done? && Shape(Step(c, ops[0]).cache)
  }

  /** Every operation is good where the run comes to it. */
  ghost predicate GoodRun(c: Cache, ops: seq<Op>)
    requires Shape(c)
    decreases |ops|
  {
    ops == [] || (GoodOp(c, ops[0]) && (Goes(c, ops) ==> GoodRun(Step(c, ops[0]).cache, ops[1..])))
  }

  /** Where a run ends, what it reads, and how many of its insertions are bimodal. */
  ghost function RunEnd(c: Cache, ops: seq<Op>): (r: (Cache, seq<seq<Byte>>, nat))
    requires Shape(c)
    decreases |ops|
  {
    if !Goes(c, ops) then (c, [], 0)
    else
      var (e, out, n) := RunEnd(Step(c, ops[0]).cache, ops[1..]);
      (e, [Step(c, ops[0]).bytes] + out, n + if BimodalMiss(c, ops[0]) then 1 else 0)
  }

  /** Every run of accesses, whole flushes and tame flushes of single blocks completes; the selector
      stays in 0..1024, and the insertion counter is the number of bimodal insertions modulo 32,
      leaders and followers together. */
  lemma {:induction false} DuelRun(c: Cache, ops: seq<Op>)
    requires DuelOk(c) && Shape(c) && GoodRun(c, ops)
    ensures Shape(c)
    ensures var (d, out, n) := RunEnd(c, ops);
            Reaches(c, ops, d, out) && DuelOk(d) && SameKinds(c, d) && d.bipctr == (c.bipctr + n) % LEADERS
    decreases |ops|
  {
    hide DuelOk, GoodRun, Step, BimodalMiss, SameKinds, StepBip, Shape, Goes;
    DuelParts(c);
    if ops == [] {
      KindsSame(c);
      RunStops(c);
    } else {
      RunGoes(c, ops);
      var d := Step(c, ops[0]).cache;
      DuelRun(d, ops[1..]);
      var (e, out, n) := RunEnd(d, ops[1..]);
      assert ([Step(c, ops[0]).bytes] + out)[1..] == out;
      KindsTrans(c, d, e);
      StepBipMod(c.bipctr, n);
    }
  }

  lemma RunStops(c: Cache)
    requires Shape(c)
    ensures !Goes(c, [])
  {
  }

  lemma RunGoes(c: Cache, ops: seq<Op>)
    requires DuelOk(c) && Shape(c) && GoodRun(c, ops) && ops != []
    ensures Shape(c) && Goes(c, ops) && Step(c, ops[0]).Done?
    ensures var d := Step(c, ops[0]).cache;
            && DuelOk(d) && Shape(d) && GoodRun(d, ops[1..]) && SameKinds(c, d)
            && d.bipctr == (if BimodalMiss(c, ops[0]) then StepBip(c.bipctr) else c.bipctr)
  {
    StepDuels(c, ops[0]);
    DuelParts(Step(c, ops[0]).cache);
    hide DuelOk, Step, Shape;
  }

  lemma StepBipMod(b: nat, n: nat)
    requires b < LEADERS
    ensures (StepBip(b) + n) % LEADERS == (b + (n + 1)) % LEADERS
  {
  }

  lemma DuelParts(c: Cache)
    requires DuelOk(c)
    ensures Shape(c) && c.bipctr < LEADERS
  {
  }

  lemma KindsSame(c: Cache)
    ensures SameKinds(c, c)
  {
  }

  lemma KindsTrans(a: Cache, b: Cache, c: Cache)
    requires SameKinds(a, b) && SameKinds(b, c)
    ensures SameKinds(a, c)
  {
  }

  lemma CreateDuels(cfg: Config, mem: map<nat, seq<Byte>>)
    requires GoodConfig(cfg) && cfg.policy == DRRIP && cfg.assoc >= 2 && cfg.nsets / LEADERS > 0
    ensures DuelOk(Create(cfg, mem)) && Create(cfg, mem).bipctr == 0
    ensures forall i :: 0 <= i < cfg.nsets ==> Create(cfg, mem).sets[i].kind == KindOf(cfg.nsets, i)
  {
    CreateOk(cfg, mem);
    var c := Create(cfg, mem);
    hide Inv, KindOf, Hash;
    forall s | 0 <= s < cfg.nsets ensures SetRanked(c.sets[s]) {
      assert c.sets[s] == EmptySet(cfg, InitialKind(cfg, s));
    }
  }

  /** The same for every run of a new DRRIP cache. */
  lemma NewDuelRun(cfg: Config, mem: map<nat, seq<Byte>>, ops: seq<Op>)
    requires GoodConfig(cfg) && cfg.policy == DRRIP && cfg.assoc >= 2 && cfg.nsets / LEADERS > 0
    requires Shape(Create(cfg, mem)) && GoodRun(Create(cfg, mem), ops)
    ensures var (d, out, n) := RunEnd(Create(cfg, mem), ops);
      && Reaches(Create(cfg, mem), ops, d, out) && d.psel <= PSEL_MAX + 1 && d.bipctr == n % LEADERS
      && |d.sets| == cfg.nsets && forall i :: 0 <= i < cfg.nsets ==> d.sets[i].kind == KindOf(cfg.nsets, i)
  {
    CreateDuels(cfg, mem);
    DuelRun(Create(cfg, mem), ops);
    CreateSize(cfg, mem);
    hide Create, RunEnd, GoodRun, KindOf, Reaches, Inv, Shape;
  }

  lemma CreateSize(cfg: Config, mem: map<nat, seq<Byte>>)
    requires GoodConfig(cfg) && cfg.nsets / LEADERS > 0
    ensures |Create(cfg, mem).sets| == cfg.nsets
  {
  }
}
