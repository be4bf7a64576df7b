/** What holds of the engine between, and partly inside, its pipeline stages.

    Several predicates take a parameter for what a stage has in flight, see `Flight`. */
module RuuInvariants {
  import opened RuuTypes

  /** What a stage has in hand: `pend` is the old ready list during issue, `held` the link
      records taken off a list and not freed yet, `d` the station whose result is being
      broadcast, `e` the completing branch before recovery, and `w` the stations whose
      operands are being settled. */
  datatype Flight = Flight(pend: seq<Link>, held: multiset<nat>, d: int, e: int, w: set<nat>)

  /** Between stages. */
  const IDLE := Flight([], multiset{}, -1, -1, {})

  // ----- program order -----

  predicate RuuBefore(c: Core, x: nat, y: nat) {
    Live(c, x) && Live(c, y) && x < c.R && y < c.R && Pos(c.rh, c.R, x) < Pos(c.rh, c.R, y)
  }

  predicate LsqBefore(c: Core, x: nat, y: nat) {
    Live(c, x) && Live(c, y) && x >= c.R && y >= c.R && Pos(c.lh, c.L, x - c.R) < Pos(c.lh, c.L, y - c.R)
  }

  ghost predicate Order(c: Core)
    requires |c.st| == c.R + c.L
  {
    && (forall x: nat :: Live(c, x) ==> 1 <= c.st[x].num <= c.instSeq)
    && (forall x: nat, y: nat :: Live(c, x) && Live(c, y) && c.st[x].num == c.st[y].num ==> x == y)
    && (forall x: nat, y: nat :: RuuBefore(c, x, y) ==> c.st[x].num < c.st[y].num)
    && (forall x: nat, y: nat :: LsqBefore(c, x, y) ==> c.st[x].num < c.st[y].num)
  }

  /** Station `y` is the memory half of the load or store whose address half is `x`. */
  ghost predicate IsPair(c: Core, x: nat, y: nat)
    requires |c.st| == c.R + c.L
  {
    && Live(c, x) && x < c.R && Live(c, y) && y >= c.R
    && c.st[x].eaComp && c.st[x].partner == y && c.st[y].partner == x
    && c.st[y].num == c.st[x].num + 1 && c.st[y].specMode == c.st[x].specMode
  }

  /** The LSQ holds exactly the memory halves of the RUU's address computations. */
  ghost predicate Pairs(c: Core)
    requires |c.st| == c.R + c.L
  {
    && (forall x: nat :: Live(c, x) && x < c.R && c.st[x].eaComp ==> IsPair(c, x, c.st[x].partner))
    && (forall y: nat :: Live(c, y) && y >= c.R ==> IsPair(c, c.st[y].partner, y))
  }

  // ----- speculation -----

  /** The entry whose completion will reveal the misprediction. */
  ghost predicate IsBranch(c: Core, e: int, x: nat)
    requires |c.st| == c.R + c.L
  {
    Live(c, x) && x < c.R && c.st[x].recoverInst && (!c.st[x].completed || x == e)
  }

  ghost predicate Speculation(c: Core, e: int)
    requires |c.st| == c.R + c.L
  {
    && (c.specMode ==> exists x: nat :: IsBranch(c, e, x))
    && (forall x: nat :: IsBranch(c, e, x) ==> c.specMode && !c.st[x].specMode)
    && (forall x: nat, z: nat :: IsBranch(c, e, x) && Live(c, z) && z < c.R && c.st[z].num > c.st[x].num ==> c.st[z].specMode)
    && (forall x: nat, z: nat :: IsBranch(c, e, x) && Live(c, z) && z < c.R && c.st[z].num < c.st[x].num ==> !c.st[z].specMode)
    && (forall z: nat :: Live(c, z) && c.st[z].specMode ==> c.specMode)
    && (!c.specMode ==> c.useSpec == {})
  }

  // ----- links -----

  /** A link's tag is its slot's tag exactly while the instance it was made for is in flight. */
  ghost predicate LinkOk(c: Core, l: Link)
    requires |c.st| == c.R + c.L
  {
    && l.rs < |c.st| && l.tag <= c.st[l.rs].tag && l.inst <= c.instSeq
    && (Valid(c, l) <==> Live(c, l.rs) && c.st[l.rs].num == l.inst)
    && (Live(c, l.rs) ==> l.inst <= c.st[l.rs].num)
  }

  ghost predicate LinksOk(c: Core, pend: seq<Link>)
    requires |c.st| == c.R + c.L
  {
    && (forall l :: l in c.events ==> LinkOk(c, l))
    && (forall l :: l in c.readyq ==> LinkOk(c, l))
    && (forall l :: l in pend ==> LinkOk(c, l))
    && (forall p: nat, o: nat, l :: InChain(c, p, o, l) ==> LinkOk(c, l))
  }

  ghost predicate InChain(c: Core, p: nat, o: nat, l: Link) {
    p < |c.st| && o < 2 && l in c.st[p].odeps.Get(o)
  }

  /** How many links of a list point to an instance. */
  datatype Key = Key(rs: nat, tag: nat, opnum: nat)

  function Keys(q: seq<Link>): multiset<Key> {
    if q == [] then multiset{} else multiset{Key(q[0].rs, q[0].tag, 0)} + Keys(q[1..])
  }

  function OpKeys(q: seq<Link>): multiset<Key> {
    if q == [] then multiset{} else multiset{Key(q[0].rs, q[0].tag, q[0].x)} + OpKeys(q[1..])
  }

  // ----- station status and the two queues -----

  ghost predicate StatusOk(c: Core, s: Station, x: nat, w: set<nat>) {
    && (s.queued ==> s.AllReady() && !s.issued)
    && (s.issued ==> s.AllReady())
    && (s.completed ==> s.issued)
    && (s.inLsq <==> x >= c.R)
    && (s.inLsq ==> !s.eaComp && !s.recoverInst && s.kind != Alu)
    && (!s.inLsq ==> s.kind == Alu)
    && (s.inLsq && s.kind == Store ==> s.onames == Duo(NA, NA))
    && (x !in w && s.inLsq ==> s.inames.b == DTMP)
    && (x !in w && s.eaComp ==> s.onames.a == DTMP)
    && (x !in w && s.AllReady() && !s.issued && !s.queued ==> s.inLsq && s.kind == Load)
  }

  ghost predicate Status(c: Core, w: set<nat>)
    requires |c.st| == c.R + c.L
  {
    forall x: nat :: Live(c, x) ==> StatusOk(c, c.st[x], x, w)
  }

  /** A live instance is on the event queue once exactly while it executes, and on the ready
      queue once exactly while it is marked queued. */
  ghost predicate QueueOk(c: Core, pend: seq<Link>, x: nat)
    requires x < |c.st|
  {
    var s := c.st[x];
    && Keys(c.events)[Key(x, s.tag, 0)] == (if s.issued && !s.completed then 1 else 0)
    && Keys(pend)[Key(x, s.tag, 0)] + Keys(c.readyq)[Key(x, s.tag, 0)] == (if s.queued then 1 else 0)
  }

  ghost predicate Queues(c: Core, pend: seq<Link>)
    requires |c.st| == c.R + c.L
  {
    forall x: nat :: Live(c, x) ==> QueueOk(c, pend, x)
  }

  // ----- register dependences -----

  ghost predicate Writes(s: Station, n: nat) {
    n != NA && (s.onames.a == n || s.onames.b == n)
  }

  /** `q` is the youngest live writer of `n` older than sequence number `bound`. */
  ghost predicate Latest(c: Core, n: nat, bound: nat, q: nat)
    requires |c.st| == c.R + c.L
  {
    && Live(c, q) && Writes(c.st[q], n) && c.st[q].num < bound
    && forall z: nat :: Live(c, z) && Writes(c.st[z], n) && c.st[z].num < bound ==> c.st[z].num <= c.st[q].num
  }

  /** The same among the non-speculative entries. */
  ghost predicate LatestBase(c: Core, n: nat, q: nat)
    requires |c.st| == c.R + c.L
  {
    && Live(c, q) && Writes(c.st[q], n) && !c.st[q].specMode
    && forall z: nat :: Live(c, z) && Writes(c.st[z], n) && !c.st[z].specMode ==> c.st[z].num <= c.st[q].num
  }

  ghost predicate Pending(c: Core, d: int, p: nat)
    requires |c.st| == c.R + c.L
  {
    Live(c, p) && (!c.st[p].completed || p == d)
  }

  /** A create-vector entry for `n` names the latest writer while that is uncompleted. */
  ghost predicate BaseEntry(c: Core, d: int, n: nat, v: Creator)
    requires |c.st| == c.R + c.L
  {
    if v.By? then
      v.odep < 2 && LatestBase(c, n, v.slot) && c.st[v.slot].onames.Get(v.odep) == n && Pending(c, d, v.slot)
    else forall q: nat :: LatestBase(c, n, q) ==> c.st[q].completed
  }

  ghost predicate SpecEntry(c: Core, d: int, n: nat, v: Creator)
    requires |c.st| == c.R + c.L
  {
    if v.By? then
      && v.odep < 2 && Latest(c, n, c.instSeq + 1, v.slot) && c.st[v.slot].onames.Get(v.odep) == n
      && Pending(c, d, v.slot) && c.st[v.slot].specMode
    else forall q: nat :: Latest(c, n, c.instSeq + 1, q) ==> c.st[q].completed
  }

  ghost predicate NoSpecWriter(c: Core, n: nat)
    requires |c.st| == c.R + c.L
  {
    forall q: nat :: Live(c, q) && Writes(c.st[q], n) ==> !c.st[q].specMode
  }

  /** The non-speculative create vector. */
  ghost predicate BaseVector(c: Core, d: int)
    requires |c.st| == c.R + c.L && |c.cv| == MD_TOTAL_REGS
  {
    forall n: nat :: 0 < n < MD_TOTAL_REGS ==> BaseEntry(c, d, n, c.cv[n])
  }

  /** The view that dispatch reads: the copy where it was written, the base elsewhere. */
  ghost predicate SpecVector(c: Core, d: int)
    requires |c.st| == c.R + c.L && |c.scv| == MD_TOTAL_REGS
  {
    forall n: nat :: 0 < n < MD_TOTAL_REGS ==>
      if n in c.useSpec then SpecEntry(c, d, n, c.scv[n]) else NoSpecWriter(c, n)
  }

  /** An operand is ready exactly when its latest older writer has completed or left the
      machine; until then one valid link waits for it, in that writer's chain. */
  ghost predicate OperandOk(c: Core, d: int, x: nat, k: nat)
    requires |c.st| == c.R + c.L && x < |c.st|
  {
    var s := c.st[x];
    var n := s.inames.Get(k);
    && (n == NA ==> s.ready.Get(k))
    && (s.ready.Get(k) ==> forall q: nat :: Latest(c, n, s.num, q) ==> c.st[q].completed)
    && (!s.ready.Get(k) ==> s.waitOn.Get(k).By? && WaitsOn(c, d, x, k, s.waitOn.Get(k).slot, s.waitOn.Get(k).odep))
  }

  ghost predicate WaitsOn(c: Core, d: int, x: nat, k: nat, p: nat, o: nat)
    requires |c.st| == c.R + c.L && x < |c.st|
  {
    var s := c.st[x];
    && o < 2 && Pending(c, d, p) && p < |c.st| && Latest(c, s.inames.Get(k), s.num, p)
    && c.st[p].onames.Get(o) == s.inames.Get(k)
    && OpKeys(c.st[p].odeps.Get(o))[Key(x, s.tag, k)] == 1
  }

  ghost predicate Operands(c: Core, d: int)
    requires |c.st| == c.R + c.L
  {
    forall x: nat, k: nat :: Live(c, x) && k < 3 ==> OperandOk(c, d, x, k)
  }

  /** A valid link of a chain belongs to an operand that waits for this output. */
  ghost predicate ChainLinkOk(c: Core, p: nat, o: nat, l: Link)
    requires |c.st| == c.R + c.L
  {
    && l.x < 3
    && (Valid(c, l) ==> !c.st[l.rs].ready.Get(l.x) && c.st[l.rs].waitOn.Get(l.x) == By(p, o))
  }

  ghost predicate Chains(c: Core, d: int)
    requires |c.st| == c.R + c.L
  {
    && (forall p: nat, o: nat, l :: InChain(c, p, o, l) ==> ChainLinkOk(c, p, o, l))
    && (forall p: nat, o: nat :: p < |c.st| && o < 2 && c.st[p].odeps.Get(o) != [] ==>
          Pending(c, d, p) && c.st[p].onames.Get(o) != NA)
  }

  // ----- memory order -----

  /** The youngest store to the address of load `x` among the older LSQ entries. */
  ghost predicate YoungestOlderStore(c: Core, x: nat, z: nat)
    requires |c.st| == c.R + c.L
  {
    && IsOlderStore(c, x, z) && c.st[z].addr == c.st[x].addr
    && forall y: nat :: IsOlderStore(c, x, y) && c.st[y].addr == c.st[x].addr ==> c.st[y].num <= c.st[z].num
  }

  ghost predicate IsOlderStore(c: Core, x: nat, z: nat)
    requires |c.st| == c.R + c.L
  {
    Live(c, z) && z >= c.R && c.st[z].kind == Store && Live(c, x) && c.st[z].num < c.st[x].num
  }

  /** Nothing older can still change what load `x` must read. */
  ghost predicate LoadSafe(c: Core, x: nat)
    requires |c.st| == c.R + c.L
  {
    && (forall z: nat :: IsOlderStore(c, x, z) ==> c.st[z].ready.b)
    && (forall z: nat :: YoungestOlderStore(c, x, z) ==> c.st[z].AllReady())
  }

  ghost predicate Started(s: Station) { s.queued || s.issued || s.completed }

  ghost predicate MemoryOrder(c: Core)
    requires |c.st| == c.R + c.L
  {
    forall x: nat :: Live(c, x) && x >= c.R && c.st[x].kind == Load && Started(c.st[x]) ==> LoadSafe(c, x)
  }

  // ----- conservation and time -----

  function Ids(q: seq<Link>): multiset<nat> {
    if q == [] then multiset{} else multiset{q[0].id} + Ids(q[1..])
  }

  function StationIds(s: Station): multiset<nat> { Ids(s.odeps.a) + Ids(s.odeps.b) }

  function ChainIds(st: seq<Station>): multiset<nat> {
    if st == [] then multiset{} else ChainIds(st[..|st| - 1]) + StationIds(st[|st| - 1])
  }

  /** Every link record, in whatever list it currently is. */
  function AllIds(c: Core, pend: seq<Link>): multiset<nat> {
    multiset(c.free) + Ids(c.events) + Ids(c.readyq) + Ids(pend) + ChainIds(c.st)
  }

  /** Each record of the pool is in exactly one place. */
  ghost predicate Conserved(c: Core, pend: seq<Link>, held: multiset<nat>, pool: nat) {
    AllIds(c, pend) + held == multiset(seq(pool, i => i))
  }

  ghost predicate Timely(c: Core) {
    && (forall i, j :: 0 <= i < j < |c.events| ==> c.events[i].x <= c.events[j].x)
    && (forall l :: l in c.events ==> l.x >= c.cycle)
  }

  /** Everything that also holds inside the stages. */
  ghost predicate Sound(c: Core, f: Flight, pool: nat) {
    && Shape(c) && Order(c) && Pairs(c) && Speculation(c, f.e)
    && LinksOk(c, f.pend) && Status(c, f.w) && Queues(c, f.pend)
    && BaseVector(c, f.d) && Operands(c, f.d) && Chains(c, f.d)
    && MemoryOrder(c) && Timely(c) && Conserved(c, f.pend, f.held, pool)
  }

  ghost predicate Inv(c: Core, pool: nat) {
    Sound(c, IDLE, pool) && SpecVector(c, -1)
  }
}
