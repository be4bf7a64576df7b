/** The set-associative cache as a value: blocks, way order, hash chains and the memory below. */
module CacheModel {
  import opened Common
  import opened Orders

  type Byte = n: nat | n < 256 witness 0

  const RRPV_MAX: nat := 7
  const BIPCTR_MAX: nat := 31
  const PSEL_MAX: nat := 1023
  const PSEL_INIT: nat := 511
  const PSEL_HALF: nat := 512
  const INT_MAX: int := 2147483647

  datatype Policy = LRU | FIFO | Random | NRU | DRRIP
  datatype SetKind = SRRIP | BRRIP | FOLLOWER

  datatype Block = Block(tag: nat, valid: bool, dirty: bool, ready: int, nru: bool, rrpv: int, data: seq<Byte>)

  /** `order` is the way list from head to tail; `chains` are the hash buckets, none when the
      associativity is at most 4.  A way is named by its index in `blks`. */
  datatype CSet = CSet(blks: seq<Block>, order: seq<nat>, chains: seq<seq<nat>>, kind: SetKind)

  datatype Config = Config(nsets: nat, bsize: nat, assoc: nat, policy: Policy, hitLatency: nat) {
    /** Number of hash buckets per set. */
    function HSize(): nat { if assoc > 4 then assoc / 4 else 0 }
  }

  datatype Counters = Counters(hits: nat, misses: nat, replacements: nat, writebacks: nat, invalidations: nat)

  /** `lastSome` says that a block was hit last: block `lastWay` of set `lastSet`, at address
      `lastTagset`, which is 0 otherwise. */
  datatype Cache = Cache(
    cfg: Config, sets: seq<CSet>, mem: map<nat, seq<Byte>>,
    lastTagset: nat, lastSome: bool, lastSet: nat, lastWay: nat,
    psel: nat, bipctr: nat, busFree: int, stat: Counters)

  datatype Cmd = Read(n: nat) | Write(bytes: seq<Byte>) {
    function Size(): nat { if Read? then n else |bytes| }
  }

  /** What an access draws from outside: the time, a random way and the latency below. */
  datatype Env = Env(now: int, rnd: nat, memLat: (bool, nat, int) -> nat)

  datatype Fault = BadSize | SpansBlock | NullBlock | NoVictim | Endless

  datatype Result = Done(cache: Cache, bytes: seq<Byte>, lat: int) | Stop(fault: Fault)

  // ----- addresses -----

  function Tag(cfg: Config, addr: nat): nat
    requires cfg.nsets > 0 && cfg.bsize > 0
  {
    addr / cfg.bsize / cfg.nsets
  }

  function SetOf(cfg: Config, addr: nat): (s: nat)
    requires cfg.nsets > 0 && cfg.bsize > 0
    ensures s < cfg.nsets
  {
    addr / cfg.bsize % cfg.nsets
  }

  function Offset(cfg: Config, addr: nat): (ofs: nat)
    requires cfg.bsize > 0
    ensures ofs < cfg.bsize
  {
    addr % cfg.bsize
  }

  /** The block address, and the block a tag and a set stand for. */
  function Base(cfg: Config, addr: nat): nat
    requires cfg.bsize > 0
  {
    addr / cfg.bsize * cfg.bsize
  }

  function MkBaddr(cfg: Config, tag: nat, s: nat): nat {
    (tag * cfg.nsets + s) * cfg.bsize
  }

  predicate PowerOfTwo(n: nat) {
    n == 1 || (n > 1 && n % 2 == 0 && PowerOfTwo(n / 2))
  }

  predicate GoodSize(addr: nat, n: nat) {
    if n == 0 then addr == 0 else PowerOfTwo(n) && addr % n == 0
  }

  // ----- memory below -----

  function Zeros(n: nat): (z: seq<Byte>) ensures |z| == n { seq(n, _ => 0) }

  function Fetch(mem: map<nat, seq<Byte>>, baddr: nat, bsize: nat): (d: seq<Byte>)
    ensures |d| == bsize
  {
    if baddr in mem && |mem[baddr]| == bsize then mem[baddr] else Zeros(bsize)
  }

  function Splice(d: seq<Byte>, ofs: nat, bytes: seq<Byte>): (r: seq<Byte>)
    requires ofs + |bytes| <= |d|
    ensures |r| == |d|
  {
    d[..ofs] + bytes + d[ofs + |bytes|..]
  }

  // ----- lookup -----

  predicate Matches(b: Block, tag: nat) { b.tag == tag && b.valid }

  /** The first way on a list that holds the tag. */
  function FindIn(list: seq<nat>, blks: seq<Block>, tag: nat): (r: Option<nat>)
    requires InWays(list, |blks|)
    ensures r.Some? ==> r.value in list && r.value < |blks| && Matches(blks[r.value], tag)
    ensures r.None? ==> forall w :: w in list ==> !Matches(blks[w], tag)
  {
    if list == [] then None
    else if Matches(blks[list[0]], tag) then Some(list[0])
    else FindIn(list[1..], blks, tag)
  }

  // ----- geometry -----

  predicate GoodConfig(cfg: Config) {
    cfg.nsets > 0 && cfg.bsize >= 8 && cfg.assoc > 0
  }

  predicate SetShape(cfg: Config, cs: CSet) {
    && |cs.blks| == cfg.assoc && IsOrder(cs.order, cfg.assoc) && |cs.chains| == cfg.HSize()
    && (forall h :: 0 <= h < |cs.chains| ==> InWays(cs.chains[h], cfg.assoc))
    && (forall w :: 0 <= w < |cs.blks| ==> |cs.blks[w].data| == cfg.bsize)
  }

  predicate Shape(c: Cache) {
    && GoodConfig(c.cfg) && |c.sets| == c.cfg.nsets
    && (forall s :: 0 <= s < |c.sets| ==> SetShape(c.cfg, c.sets[s]))
    && (c.lastSome ==> c.lastSet < c.cfg.nsets && c.lastWay < c.cfg.assoc)
  }

  /** Hash chain or way list, whichever the associativity calls for. */
  function Lookup(cfg: Config, cs: CSet, tag: nat): (r: Option<nat>)
    requires SetShape(cfg, cs)
    ensures r.Some? ==> r.value < cfg.assoc && Matches(cs.blks[r.value], tag)
  {
    if cfg.HSize() > 0 then FindIn(cs.chains[Hash(tag, cfg.HSize())], cs.blks, tag)
    else FindIn(cs.order, cs.blks, tag)
  }

  // ----- victim selection -----

  datatype Choice = Chosen(way: nat, cs: CSet, psel: nat, bipctr: nat) | NoneLeft | Forever

  function FirstNru(order: seq<nat>, blks: seq<Block>): (r: Option<nat>)
    requires InWays(order, |blks|)
    ensures r.Some? ==> r.value < |blks| && blks[r.value].nru
  {
    if order == [] then None
    else if blks[order[0]].nru then Some(order[0])
    else FirstNru(order[1..], blks)
  }

  function AllNru(b: seq<Block>): (r: seq<Block>)
    ensures |r| == |b|
  {
    seq(|b|, w requires 0 <= w < |b| => b[w].(nru := true))
  }

  /** The NRU choice.  After a fruitless scan every bit is set and the scan resumes at the
      second way. */
  function ChooseNru(cs: CSet): (r: Option<(nat, seq<Block>)>)
    requires InWays(cs.order, |cs.blks|)
    ensures r.Some? ==> r.value.0 < |cs.blks| && |r.value.1| == |cs.blks|
  {
    var f := FirstNru(cs.order, cs.blks);
    if f.Some? then Some((f.value, cs.blks[f.value := cs.blks[f.value].(nru := false)]))
    else
      var all := AllNru(cs.blks);
      if |cs.order| >= 2 then Some((cs.order[1], all[cs.order[1] := all[cs.order[1]].(nru := false)]))
      else None
  }

  function Ranks(cs: CSet): (r: seq<int>)
    requires InWays(cs.order, |cs.blks|)
    ensures |r| == |cs.order|
  {
    seq(|cs.order|, i requires 0 <= i < |cs.order| => cs.blks[cs.order[i]].rrpv)
  }

  /** The first position from `i` on with rank `v`. */
  function FirstRank(r: seq<int>, i: nat, v: int): (p: Option<nat>)
    requires i <= |r|
    ensures p.Some? ==> i <= p.value < |r| && r[p.value] == v && forall j :: i <= j < p.value ==> r[j] != v
    ensures p.None? ==> forall j :: i <= j < |r| ==> r[j] != v
    decreases |r| - i
  {
    if i == |r| then None else if r[i] == v then Some(i) else FirstRank(r, i + 1, v)
  }

  /** The largest rank from position `i` on that does not exceed the maximum. */
  function BestRank(r: seq<int>, i: nat): (m: Option<int>)
    requires i <= |r|
    ensures m.Some? ==> m.value <= RRPV_MAX && exists j :: i <= j < |r| && r[j] == m.value
    ensures m.Some? ==> forall j :: i <= j < |r| && r[j] <= RRPV_MAX ==> r[j] <= m.value
    ensures m.None? ==> forall j :: i <= j < |r| ==> r[j] > RRPV_MAX
    decreases |r| - i
  {
    if i == |r| then None
    else
      var m := BestRank(r, i + 1);
      if r[i] <= RRPV_MAX && (m.None? || m.value < r[i]) then Some(r[i]) else m
  }

  /** The DRRIP search: the first pass looks at every way, each later one, after all ranks
      were incremented, from the second way on.  The result is the position found and the
      number of increments; with one way there is no second one to go on with. */
  function SearchRank(r: seq<int>): (p: Option<(nat, nat)>)
    requires |r| > 0
    ensures p.Some? ==> p.value.0 < |r|
  {
    var f := FirstRank(r, 0, RRPV_MAX);
    if f.Some? then Some((f.value, 0))
    else
      var m := BestRank(r, 1);
      if m.None? then None
      else
        var g := FirstRank(r, 1, m.value);
        if g.Some? then Some((g.value, RRPV_MAX - m.value)) else None
  }

  function Aged(blks: seq<Block>, k: nat): (r: seq<Block>)
    ensures |r| == |blks|
  {
    seq(|blks|, w requires 0 <= w < |blks| => blks[w].(rrpv := blks[w].rrpv + k))
  }

  /** A bimodal insertion steps the counter; one in 32 gets the lower rank. */
  function StepBip(bipctr: nat): nat { if bipctr == BIPCTR_MAX then 0 else bipctr + 1 }

  function BipRank(bipctr: nat): int { if bipctr == 0 then RRPV_MAX - 1 else RRPV_MAX }

  /** Whether an insertion is bimodal: in BRRIP leaders, and in followers of a high selector. */
  predicate Bimodal(kind: SetKind, psel: nat) {
    kind == BRRIP || (kind == FOLLOWER && psel / PSEL_HALF != 0)
  }

  function InsertRank(kind: SetKind, psel: nat, bipctr: nat): int {
    if Bimodal(kind, psel) then BipRank(bipctr) else RRPV_MAX - 1
  }

  /** A miss in a leader set votes against its policy. */
  function Vote(kind: SetKind, psel: nat): nat {
    if kind == SRRIP then (if psel <= PSEL_MAX then psel + 1 else psel)
    else if kind == BRRIP then (if psel > 0 then psel - 1 else psel)
    else psel
  }

  function Choose(cfg: Config, cs: CSet, psel: nat, bipctr: nat, rnd: nat): (r: Choice)
    requires GoodConfig(cfg) && SetShape(cfg, cs)
    ensures r.Chosen? ==> r.way < cfg.assoc && |r.cs.blks| == cfg.assoc && r.cs.chains == cs.chains
  {
    match cfg.policy
    case LRU | FIFO =>
      var w := cs.order[|cs.order| - 1];
      Chosen(w, cs.(order := MoveToHead(cs.order, w)), psel, bipctr)
    case Random => Chosen(rnd % cfg.assoc, cs, psel, bipctr)
    case NRU =>
      var r := ChooseNru(cs);
      if r.None? then NoneLeft else Chosen(r.value.0, cs.(blks := r.value.1), psel, bipctr)
    case DRRIP =>
      var p := SearchRank(Ranks(cs));
      if p.None? then (if |cs.order| == 1 then NoneLeft else Forever)
      else
        var w, aged := cs.order[p.value.0], Aged(cs.blks, p.value.1);
        Chosen(w, cs.(blks := aged[w := aged[w].(rrpv := InsertRank(cs.kind, psel, bipctr))]),
               Vote(cs.kind, psel), if Bimodal(cs.kind, psel) then StepBip(bipctr) else bipctr)
  }

  // ----- hits -----

  function Bound(n: int): int { if n < 0 then 0 else if n > INT_MAX then INT_MAX else n }
  function Max(a: int, b: int): int { if a < b then b else a }

  /** The block after its data was read or written. */
  function Touched(b: Block, cmd: Cmd, ofs: nat): (r: Block)
    requires ofs + cmd.Size() <= |b.data|
    ensures |r.data| == |b.data|
  {
    if cmd.Read? then b else b.(data := Splice(b.data, ofs, cmd.bytes), dirty := true)
  }

  function Output(b: Block, cmd: Cmd, ofs: nat): seq<Byte>
    requires ofs + cmd.Size() <= |b.data|
  {
    if cmd.Read? then b.data[ofs..ofs + cmd.n] else []
  }

  /** What a hit does to the replacement state. */
  function Promote(policy: Policy, cs: CSet, w: nat): (r: CSet)
    requires w < |cs.blks|
  {
    match policy
    case LRU => if cs.order != [] && cs.order[0] == w then cs else cs.(order := MoveToHead(cs.order, w))
    case NRU => cs.(blks := cs.blks[w := cs.blks[w].(nru := false)])
    case DRRIP => cs.(blks := cs.blks[w := cs.blks[w].(rrpv := 0)])
    case _ => cs
  }

  function WithSet(c: Cache, s: nat, cs: CSet): Cache
    requires s < |c.sets|
  {
    c.(sets := c.sets[s := cs])
  }

  /** A hit in way `w` of set `s`; the fast path leaves the replacement state alone. */
  function Hit(c: Cache, s: nat, w: nat, cmd: Cmd, addr: nat, env: Env, fast: bool): Result
    requires Shape(c) && s < c.cfg.nsets && w < c.cfg.assoc && Offset(c.cfg, addr) + cmd.Size() <= c.cfg.bsize
  {
    var cs, ofs := c.sets[s], Offset(c.cfg, addr);
    var b := Touched(cs.blks[w], cmd, ofs);
    var hit := cs.(blks := cs.blks[w := b]);
    var after := if fast then hit else Promote(c.cfg.policy, hit, w);
    Done(WithSet(c, s, after).(lastTagset := Base(c.cfg, addr), lastSome := true, lastSet := s, lastWay := w,
                               stat := c.stat.(hits := c.stat.hits + 1)),
         Output(cs.blks[w], cmd, ofs), Max(c.cfg.hitLatency, b.ready - env.now))
  }

  // ----- misses -----

  /** Chain surgery: a way leaves the bucket of its old tag and enters that of the new one. */
  function Rehash(cfg: Config, chains: seq<seq<nat>>, w: nat, oldTag: nat, newTag: nat): (r: seq<seq<nat>>)
    requires |chains| == cfg.HSize()
    ensures |r| == |chains|
  {
    if cfg.HSize() == 0 then chains
    else
      var a, b := Hash(oldTag, cfg.HSize()), Hash(newTag, cfg.HSize());
      var out := chains[a := Without(chains[a], w)];
      out[b := [w] + out[b]]
  }

  /** Latency and bus state once the replaced block is out of the way. */
  function EvictLatency(repl: Block, busFree: int, now: int): int {
    var lat := Bound(repl.ready - now);
    lat + Bound(busFree - (now + lat))
  }

  function Evict(c: Cache, s: nat, repl: Block, env: Env): (r: (Cache, int))
    ensures r.0 == c.(mem := r.0.mem, busFree := r.0.busFree, stat := r.0.stat)
  {
    if !repl.valid then (c, 0)
    else
      var lat := EvictLatency(repl, c.busFree, env.now);
      var d := c.(busFree := Max(c.busFree, env.now + lat) + 1, stat := c.stat.(replacements := c.stat.replacements + 1));
      if !repl.dirty then (d, lat)
      else
        var b := MkBaddr(c.cfg, repl.tag, s);
        (d.(mem := d.mem[b := repl.data], stat := d.stat.(writebacks := d.stat.writebacks + 1)),
         lat + env.memLat(true, b, env.now + lat))
  }

  /** The cache once the victim of a miss in set `s` is selected. */
  function Selected(c: Cache, s: nat, ch: Choice): Cache
    requires s < |c.sets| && ch.Chosen?
  {
    WithSet(c, s, ch.cs).(psel := ch.psel, bipctr := ch.bipctr, lastTagset := 0, lastSome := false, lastSet := 0, lastWay := 0,
                          stat := c.stat.(misses := c.stat.misses + 1))
  }

  /** The block that comes in, the bytes the access returns and the latency. */
  function Filled(cfg: Config, mem: map<nat, seq<Byte>>, repl: Block, cmd: Cmd, addr: nat, env: Env, lat0: int): (r: (Block, seq<Byte>, int))
    requires GoodConfig(cfg) && Offset(cfg, addr) + cmd.Size() <= cfg.bsize
    ensures |r.0.data| == cfg.bsize
  {
    var base, ofs := Base(cfg, addr), Offset(cfg, addr);
    var lat := lat0 + env.memLat(false, base, env.now + lat0);
    var b := repl.(tag := Tag(cfg, addr), valid := true, dirty := false, data := Fetch(mem, base, cfg.bsize));
    (Touched(b, cmd, ofs).(ready := env.now + lat), Output(b, cmd, ofs), lat)
  }

  /** Way `w` of set `s` gets a new block, and moves to the bucket of its tag. */
  function Replaced(c: Cache, s: nat, w: nat, b: Block): Cache
    requires s < |c.sets| && w < |c.sets[s].blks| && |c.sets[s].chains| == c.cfg.HSize()
  {
    var cs := c.sets[s];
    WithSet(c, s, cs.(blks := cs.blks[w := b], chains := Rehash(c.cfg, cs.chains, w, cs.blks[w].tag, b.tag)))
  }

  function Miss(c: Cache, s: nat, cmd: Cmd, addr: nat, env: Env): Result
    requires Shape(c) && s < c.cfg.nsets && Offset(c.cfg, addr) + cmd.Size() <= c.cfg.bsize
  {
    var ch := Choose(c.cfg, c.sets[s], c.psel, c.bipctr, env.rnd);
    match ch
    case NoneLeft => Stop(NoVictim)
    case Forever => Stop(Endless)
    case Chosen(w, cs, psel, bipctr) =>
      var (d, lat0) := Evict(Selected(c, s, ch), s, cs.blks[w], env);
      var (b, bytes, lat) := Filled(c.cfg, d.mem, cs.blks[w], cmd, addr, env, lat0);
      Done(Replaced(d, s, w, b), bytes, lat)
  }

  // ----- the operations -----

  function Access(c: Cache, cmd: Cmd, addr: nat, env: Env): Result
    requires Shape(c)
  {
    var ofs := Offset(c.cfg, addr);
    if !GoodSize(addr, cmd.Size()) then Stop(BadSize)
    else if ofs + cmd.Size() > c.cfg.bsize then Stop(SpansBlock)
    else if Base(c.cfg, addr) == c.lastTagset then
      if !c.lastSome then Stop(NullBlock) else Hit(c, c.lastSet, c.lastWay, cmd, addr, env, true)
    else
      var s := SetOf(c.cfg, addr);
      var f := Lookup(c.cfg, c.sets[s], Tag(c.cfg, addr));
      if f.Some? then Hit(c, s, f.value, cmd, addr, env, false) else Miss(c, s, cmd, addr, env)
  }

  predicate Probe(c: Cache, addr: nat)
    requires Shape(c)
  {
    Lookup(c.cfg, c.sets[SetOf(c.cfg, addr)], Tag(c.cfg, addr)).Some?
  }

  /** One block of a flush: it becomes invalid and, if dirty, is written back. */
  function FlushWay(c: Cache, s: nat, w: nat, lat: int, env: Env): (r: (Cache, int))
    requires Shape(c) && s < c.cfg.nsets && w < c.cfg.assoc
    ensures Shape(r.0) && r.0.cfg == c.cfg
  {
    var b := c.sets[s].blks[w];
    if !b.valid then (c, lat)
    else
      var d := WithSet(c, s, c.sets[s].(blks := c.sets[s].blks[w := b.(valid := false)])).(
        stat := c.stat.(invalidations := c.stat.invalidations + 1));
      if !b.dirty then (d, lat)
      else
        var a := MkBaddr(c.cfg, b.tag, s);
        (d.(mem := d.mem[a := b.data], stat := d.stat.(writebacks := d.stat.writebacks + 1)),
         lat + env.memLat(true, a, env.now + lat))
  }

  /** The ways of set `s` from position `i` of its way list on. */
  function FlushSet(c: Cache, s: nat, i: nat, lat: int, env: Env): (r: (Cache, int))
    requires Shape(c) && s < c.cfg.nsets && i <= c.cfg.assoc
    ensures Shape(r.0) && r.0.cfg == c.cfg
    decreases c.cfg.assoc - i
  {
    if i == c.cfg.assoc then (c, lat)
    else
      var (d, l) := FlushWay(c, s, c.sets[s].order[i], lat, env);
      FlushSet(d, s, i + 1, l, env)
  }

  function FlushFrom(c: Cache, s: nat, lat: int, env: Env): (r: (Cache, int))
    requires Shape(c) && s <= c.cfg.nsets
    ensures Shape(r.0) && r.0.cfg == c.cfg
    decreases c.cfg.nsets - s
  {
    if s == c.cfg.nsets then (c, lat)
    else
      var (d, l) := FlushSet(c, s, 0, lat, env);
      FlushFrom(d, s + 1, l, env)
  }

  function Flush(c: Cache, env: Env): (r: (Cache, int))
    requires Shape(c)
  {
    FlushFrom(c.(lastTagset := 0, lastSome := false, lastSet := 0, lastWay := 0), 0, c.cfg.hitLatency, env)
  }

  function FlushAddr(c: Cache, addr: nat, env: Env): (r: (Cache, int))
    requires Shape(c)
  {
    var s := SetOf(c.cfg, addr);
    var f := Lookup(c.cfg, c.sets[s], Tag(c.cfg, addr));
    if f.None? then (c, c.cfg.hitLatency)
    else
      var (d, lat) := FlushWay(c.(lastTagset := 0, lastSome := false, lastSet := 0, lastWay := 0), s, f.value, c.cfg.hitLatency, env);
      (WithSet(d, s, d.sets[s].(order := MoveToTail(d.sets[s].order, f.value))), lat)
  }
}
