/** The trace generator's state on a mispredicted path: registers copied on write, and a hash table
    of written memory whose chains move what they find to the front. */
module SpecModel {
  import opened Common
  import opened MemoryModel
  import Access = MemoryAccess

  const STORE_HASH_SIZE: nat := 32
  const BUFFER_SIZE: nat := 8
  const NUM_REGS: nat := 32

  /** `table` holds, per bucket, the written addresses (as tags) with their buffers (as pages);
      `pool` counts the entries on the free list. */
  datatype Gen = Gen(mem: Mem, regs: seq<int>, specRegs: seq<int>, useSpec: set<nat>,
                     table: seq<seq<Pte>>, pool: nat, specMode: bool)

  datatype Outcome = Done(gen: Gen, bytes: seq<Byte>) | BadSize | NotSpeculative

  ghost predicate Shape(g: Gen) {
    && |g.mem.ptab| == PTAB_SIZE && |g.regs| == NUM_REGS && |g.specRegs| == NUM_REGS && |g.table| == STORE_HASH_SIZE
    && (forall r :: r in g.useSpec ==> r < NUM_REGS)
  }

  // ----- registers -----

  /** The general-purpose register the generator reads. */
  function Gpr(g: Gen, r: nat): int
    requires Shape(g) && r < NUM_REGS
  {
    if r in g.useSpec then g.specRegs[r] else g.regs[r]
  }

  function SetGpr(g: Gen, r: nat, v: int): (h: Gen)
    requires Shape(g) && r < NUM_REGS
    ensures Shape(h)
  {
    if g.specMode then g.(specRegs := g.specRegs[r := v], useSpec := g.useSpec + {r}) else g.(regs := g.regs[r := v])
  }

  // ----- memory -----

  function Slot(a: nat): (k: nat)
    ensures k < STORE_HASH_SIZE
  {
    Hash(a, STORE_HASH_SIZE)
  }

  function Zeros(n: nat): (z: seq<Byte>)
    ensures |z| == n
  {
    seq(n, _ => 0)
  }

  /** An access that is not aligned, or not permitted, leaves zeroes in the caller's buffer and writes
      nothing. */
  predicate Refused(a: nat, n: nat, permitted: bool) { !Access.IsPower(n) || Access.Misaligned(a, n) || !permitted }

  predicate Supported(n: nat) { n == 1 || n == 2 || n == 4 || n == 8 }

  /** A bucket with the entry for an address, if any, at the front. */
  function Found(b: seq<Pte>, a: nat): (c: seq<Pte>)
    ensures |c| == |b|
  {
    var i := FindTag(b, a);
    if i >= 0 then ToFront(b, i) else b
  }

  function Fronted(g: Gen, a: nat): (b: seq<Pte>)
    requires Shape(g)
  {
    Found(g.table[Slot(a)], a)
  }

  predicate Buffered(g: Gen, a: nat)
    requires Shape(g)
  {
    FindTag(g.table[Slot(a)], a) >= 0
  }

  /** Non-speculative memory is looked up word by word, without allocating pages. */
  function BaseRead(m: Mem, a: nat, n: nat): (k: Mem)
    requires |m.ptab| == PTAB_SIZE
    ensures |k.ptab| == PTAB_SIZE
  {
    var m1 := Read(m, a).0;
    if n == 8 then Read(m1, a + 4).0 else m1
  }

  /** The generator once the entry of an address, if any, is at the front. */
  function WithFront(g: Gen, a: nat): (h: Gen)
    requires Shape(g)
    ensures Shape(h)
  {
    g.(table := g.table[Slot(a) := Fronted(g, a)])
  }

  /** The first bytes of the entry at the front of a bucket. */
  function FrontBytes(b: seq<Pte>, n: nat): (bytes: seq<Byte>)
    ensures |bytes| == n
  {
    if b != [] && n <= |b[0].page| then b[0].page[..n] else Zeros(n)
  }

  function SpecLoad(g: Gen, a: nat, n: nat, permitted: bool): (r: Outcome)
    requires Shape(g)
    ensures r.Done? ==> Shape(r.gen)
  {
    if Refused(a, n, permitted) then Done(g, Zeros(n))
    else if !Supported(n) then BadSize
    else if Buffered(g, a) then Done(WithFront(g, a), FrontBytes(Fronted(g, a), n))
    else Done(WithFront(g, a).(mem := BaseRead(g.mem, a, n)), BytesAt(g.mem, a, n))
  }

  /** The first bytes of a buffer replaced. */
  function Overlay(buffer: seq<Byte>, data: seq<Byte>): (r: seq<Byte>)
    requires |data| <= |buffer|
    ensures |r| == |buffer|
  {
    data + buffer[|data|..]
  }

  function Allocated(g: Gen, a: nat): (b: seq<Pte>)
    requires Shape(g)
    ensures b != []
  {
    if Buffered(g, a) then Fronted(g, a) else [Pte(a, Zeros(BUFFER_SIZE))] + Fronted(g, a)
  }

  /** The generator once an address has an entry, at the front. */
  function WithEntry(g: Gen, a: nat): (h: Gen)
    requires Shape(g)
    ensures Shape(h)
  {
    g.(table := g.table[Slot(a) := Allocated(g, a)], pool := if Buffered(g, a) || g.pool == 0 then g.pool else g.pool - 1)
  }

  function SpecStore(g: Gen, a: nat, data: seq<Byte>, permitted: bool): (r: Outcome)
    requires Shape(g)
    ensures r.Done? ==> Shape(r.gen)
  {
    if Refused(a, |data|, permitted) then Done(g, Zeros(|data|))
    else if !Supported(|data|) then BadSize
    else
      var b := Allocated(g, a);
      var page := if |data| <= |b[0].page| then Overlay(b[0].page, data) else b[0].page;
      Done(WithEntry(g, a).(table := g.table[Slot(a) := b[0 := b[0].(page := page)]]), data)
  }

  // ----- recovery -----

  function Recover(g: Gen): (r: Outcome)
    requires Shape(g)
    ensures r.Done? ==> Shape(r.gen)
  {
    if !g.specMode then NotSpeculative
    else Done(g.(specMode := false, useSpec := {}, table := seq(STORE_HASH_SIZE, _ => []),
                 pool := g.pool + Entries(g.table, STORE_HASH_SIZE)), [])
  }

  // ----- one step of the generator on the mispredicted path -----

  datatype Op = Load(addr: nat, n: nat, permitted: bool) | Store(addr: nat, data: seq<Byte>, permitted: bool)
              | SetReg(r: nat, v: int)

  predicate OkOp(op: Op) { op.SetReg? ==> op.r < NUM_REGS }

  function Step(g: Gen, op: Op): (r: Outcome)
    requires Shape(g) && OkOp(op)
    ensures r.Done? ==> Shape(r.gen)
  {
    match op
    case Load(a, n, permitted) => SpecLoad(g, a, n, permitted)
    case Store(a, data, permitted) => SpecStore(g, a, data, permitted)
    case SetReg(r, v) => Done(SetGpr(g, r, v), [])
  }

  /** The state after a run, if no access of it has an unsupported size. */
  function Run(g: Gen, ops: seq<Op>): (r: Outcome)
    requires Shape(g) && forall i :: 0 <= i < |ops| ==> OkOp(ops[i])
    ensures r.Done? ==> Shape(r.gen)
  {
    if ops == [] then Done(g, [])
    else
      var r := Run(g, ops[..|ops| - 1]);
      if !r.Done? then r else Step(r.gen, ops[|ops| - 1])
  }

  // ----- what a run means -----

  /** A store that reaches the buffer. */
  predicate Writes(op: Op) { op.Store? && !Refused(op.addr, |op.data|, op.permitted) && Supported(|op.data|) }

  /** What the stores at exactly this address leave in its buffer. */
  function Buffer(ops: seq<Op>, a: nat): (b: Option<seq<Byte>>)
    ensures b.Some? ==> |b.value| == BUFFER_SIZE
  {
    if ops == [] then None
    else
      var op, b := ops[|ops| - 1], Buffer(ops[..|ops| - 1], a);
      if Writes(op) && op.addr == a then Some(Overlay(if b.Some? then b.value else Zeros(BUFFER_SIZE), op.data)) else b
  }

  /** The last value a register was set to. */
  function LastSet(ops: seq<Op>, r: nat): Option<int> {
    if ops == [] then None
    else
      var op := ops[|ops| - 1];
      if op.SetReg? && op.r == r then Some(op.v) else LastSet(ops[..|ops| - 1], r)
  }
}
