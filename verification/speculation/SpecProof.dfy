/** What speculative reads return, and that recovery rolls everything back. */
module SpecProof {
  import opened Common
  import opened MemoryModel
  import Access = MemoryAccess
  import opened SpecModel

  // ----- buckets -----

  function Lookup(b: seq<Pte>, a: nat): Option<seq<Byte>> {
    var i := FindTag(b, a);
    if i >= 0 then Some(b[i].page) else None
  }

  lemma FrontLookup(b: seq<Pte>, i: nat, x: nat)
    requires OneEach(b) && i < |b|
    ensures OneEach(ToFront(b, i)) && Lookup(ToFront(b, i), x) == Lookup(b, x)
    ensures forall e :: e in ToFront(b, i) ==> e in b
  {
    var c := ToFront(b, i);
    FrontKeeps(b, i, x);
    var k := FindTag(b, x);
    if k >= 0 {
      var m := if k == i then 0 else if k < i then k + 1 else k;
      assert c[m] == b[k];
      FoundAt(c, x, m);
    }
  }

  lemma HeadLookup(b: seq<Pte>, page: seq<Byte>, x: nat)
    requires OneEach(b) && b != []
    ensures var c := b[0 := b[0].(page := page)];
      OneEach(c) && Lookup(c, x) == if x == b[0].tag then Some(page) else Lookup(b, x)
  {
    var c := b[0 := b[0].(page := page)];
    assert forall j :: 0 <= j < |c| ==> c[j].tag == b[j].tag;
    var k := FindTag(b, x);
    if k >= 0 { FoundAt(c, x, k); }
    FoundAt(b, b[0].tag, 0);
  }

  lemma PushLookup(b: seq<Pte>, e: Pte, x: nat)
    requires OneEach(b) && FindTag(b, e.tag) < 0
    ensures OneEach([e] + b) && Lookup([e] + b, x) == if x == e.tag then Some(e.page) else Lookup(b, x)
  {
    var c := [e] + b;
    assert forall j :: 0 <= j < |c| ==> c[j] == if j == 0 then e else b[j - 1];
    PushFinds(b, e, x);
  }

  // ----- the state after a run -----

  /** The table holds, bucket by bucket, exactly the buffers that the stores left. */
  ghost predicate Tabled(table: seq<seq<Pte>>, ops: seq<Op>) {
    && |table| == STORE_HASH_SIZE
    && (forall k :: 0 <= k < STORE_HASH_SIZE ==> OneEach(table[k]))
    && (forall a: nat :: Lookup(table[Slot(a)], a) == Buffer(ops, a))
  }

  ghost predicate Copied(g: Gen, ops: seq<Op>)
    requires Shape(g)
  {
    forall r: nat :: r < NUM_REGS ==>
      (r in g.useSpec <==> LastSet(ops, r).Some?) && (r in g.useSpec ==> g.specRegs[r] == LastSet(ops, r).value)
  }

  /** Registers and every byte of memory are as they were in `g0`. */
  ghost predicate SameBase(g: Gen, g0: Gen)
    requires Shape(g) && Shape(g0)
  {
    g.regs == g0.regs && Inv(g.mem) && SameBytes(g0.mem, g.mem) && g.mem.pageCount == g0.mem.pageCount
  }

  ghost predicate Tied(g: Gen, ops: seq<Op>, g0: Gen) {
    Shape(g) && Shape(g0) && g.specMode && SameBase(g, g0) && Copied(g, ops) && Tabled(g.table, ops)
  }

  /** The generator as it enters misspeculation. */
  ghost predicate Fresh(g: Gen) {
    Shape(g) && Inv(g.mem) && g.specMode && g.useSpec == {} && forall k :: 0 <= k < STORE_HASH_SIZE ==> g.table[k] == []
  }

  lemma FreshTied(g: Gen)
    requires Fresh(g)
    ensures Tied(g, [], g)
  {
  }

  lemma FrontedTabled(g: Gen, a: nat, ops: seq<Op>)
    requires Shape(g) && Tabled(g.table, ops)
    ensures var b := Fronted(g, a);
      && OneEach(b) && (forall x: nat :: Lookup(b, x) == Lookup(g.table[Slot(a)], x))
      && Tabled(g.table[Slot(a) := b], ops)
      && (Buffered(g, a) <==> Buffer(ops, a).Some?)
      && (Buffered(g, a) ==> b != [] && b[0].tag == a && b[0].page == Buffer(ops, a).value)
      && (!Buffered(g, a) ==> FindTag(b, a) < 0)
  {
    var b, c := g.table[Slot(a)], Fronted(g, a);
    var i := FindTag(b, a);
    hide FindTag, Slot, Buffer;
    forall x: nat ensures OneEach(c) && Lookup(c, x) == Lookup(b, x) {
      if i >= 0 { FrontLookup(b, i, x); }
    }
    assert Lookup(b, a) == Buffer(ops, a);
    assert c != [] && i >= 0 ==> c[0] == b[i];
    FrontedAbsent(b, a);
  }

  lemma FrontedAbsent(b: seq<Pte>, a: nat)
    ensures FindTag(b, a) < 0 <==> Lookup(b, a).None?
    ensures FindTag(b, a) >= 0 ==> FindTag(b, a) < |b| && b[FindTag(b, a)].tag == a && Lookup(b, a) == Some(b[FindTag(b, a)].page)
  {
  }

  lemma ReadShape(m: Mem, a: nat)
    requires |m.ptab| == PTAB_SIZE
    ensures |Read(m, a).0.ptab| == PTAB_SIZE
  {
  }

  lemma BaseReadKeeps(m: Mem, a: nat, n: nat)
    requires |m.ptab| == PTAB_SIZE && Inv(m)
    ensures var k := BaseRead(m, a, n); Inv(k) && SameBytes(m, k) && k.pageCount == m.pageCount
  {
    ReadKeeps(m, a);
    ReadShape(m, a);
    var k := Read(m, a).0;
    if n == 8 { ReadKeeps(k, a + 4); }
    hide Inv, Read, ByteAt, Present;
  }

  /** What a supported, aligned and permitted load returns after a run: the buffer of its address if
      a store went there, and memory as it was before the run otherwise. */
  function Loaded(ops: seq<Op>, m: Mem, a: nat, n: nat): (b: seq<Byte>)
    requires |m.ptab| == PTAB_SIZE && n <= BUFFER_SIZE
    ensures |b| == n
  {
    var buffer := Buffer(ops, a);
    if buffer.Some? then buffer.value[..n] else BytesAt(m, a, n)
  }

  /** All entries there are, in buckets and on the free list. */
  function Total(g: Gen): nat
    requires Shape(g)
  {
    g.pool + Entries(g.table, STORE_HASH_SIZE)
  }

  lemma FrontedSize(g: Gen, a: nat)
    requires Shape(g)
    ensures |Fronted(g, a)| == |g.table[Slot(a)]|
    ensures Entries(g.table[Slot(a) := Fronted(g, a)], STORE_HASH_SIZE) == Entries(g.table, STORE_HASH_SIZE)
  {
    EntriesUpdate(g.table, Slot(a), Fronted(g, a), STORE_HASH_SIZE);
  }

  /** Loads leave every buffer and register value as it is. */
  lemma SameMeaning(ops: seq<Op>, op: Op)
    ensures var more := ops + [op];
      && (!Writes(op) ==> forall a: nat :: Buffer(more, a) == Buffer(ops, a))
      && (!op.SetReg? ==> forall r: nat :: LastSet(more, r) == LastSet(ops, r))
  {
    var more := ops + [op];
    assert more[..|more| - 1] == ops;
  }

  lemma SplitTied(g: Gen, ops: seq<Op>, g0: Gen)
    requires Tied(g, ops, g0)
    ensures Shape(g) && Shape(g0) && g.specMode && SameBase(g, g0) && Copied(g, ops) && Tabled(g.table, ops) && Inv(g.mem)
    ensures |g.mem.ptab| == PTAB_SIZE && |g0.mem.ptab| == PTAB_SIZE && SameBytes(g0.mem, g.mem)
  {
  }

  /** Loads and stores give a new table and perhaps other page-table buckets. */
  lemma JoinTied(g: Gen, h: Gen, ops: seq<Op>, more: seq<Op>, g0: Gen)
    requires Shape(g) && Shape(g0) && Shape(h) && g.specMode && SameBase(g, g0) && Copied(g, ops) && Tabled(h.table, more)
    requires h == g.(table := h.table, mem := h.mem, pool := h.pool)
    requires Inv(h.mem) && SameBytes(g.mem, h.mem) && h.mem.pageCount == g.mem.pageCount
    requires forall r: nat :: LastSet(more, r) == LastSet(ops, r)
    ensures Tied(h, more, g0)
  {
    hide Inv, Tabled, ByteAt, Present, LastSet;
  }

  lemma SameTable(table: seq<seq<Pte>>, ops: seq<Op>, more: seq<Op>)
    requires Tabled(table, ops) && forall a: nat :: Buffer(more, a) == Buffer(ops, a)
    ensures Tabled(table, more)
  {
    hide Slot, Lookup, OneEach, Buffer;
  }

  lemma LoadIs(g: Gen, a: nat, n: nat, permitted: bool)
    requires Shape(g)
    ensures var r := SpecLoad(g, a, n, permitted);
      && (Refused(a, n, permitted) ==> r == Done(g, Zeros(n)))
      && (!Refused(a, n, permitted) && !Supported(n) ==> r == BadSize)
      && (!Refused(a, n, permitted) && Supported(n) ==>
            r.Done? && r.gen == g.(table := g.table[Slot(a) := Fronted(g, a)],
                                   mem := if Buffered(g, a) then g.mem else BaseRead(g.mem, a, n))
            && (!Buffered(g, a) ==> r.bytes == BytesAt(g.mem, a, n))
            && (Buffered(g, a) && Fronted(g, a) != [] && n <= |Fronted(g, a)[0].page| ==> r.bytes == Fronted(g, a)[0].page[..n]))
  {
    hide Slot, FindTag, Read, ToFront, Refused;
  }

  lemma SameBytesAt(m: Mem, k: Mem, a: nat, n: nat)
    requires |m.ptab| == PTAB_SIZE && |k.ptab| == PTAB_SIZE && SameBytes(m, k)
    ensures BytesAt(k, a, n) == BytesAt(m, a, n)
  {
    hide ByteAt, Present;
  }

  lemma LoadTied(g: Gen, ops: seq<Op>, g0: Gen, a: nat, n: nat, permitted: bool)
    requires Tied(g, ops, g0)
    ensures var r := SpecLoad(g, a, n, permitted);
      && (r == BadSize <==> !Refused(a, n, permitted) && !Supported(n))
      && (r.Done? ==> Tied(r.gen, ops + [Load(a, n, permitted)], g0))
      && (!Refused(a, n, permitted) && Supported(n) ==> r.Done? && r.bytes == Loaded(ops, g0.mem, a, n))
      && (Refused(a, n, permitted) ==> r.Done? && r.bytes == Zeros(n))
      && (r.Done? ==> r.gen.pool == g.pool && Total(r.gen) == Total(g))
  {
    hide Tied, SpecLoad, SameBase, Copied, Tabled, Inv, Fronted, Slot, Buffered, OneEach, Lookup, FindTag, Buffer, LastSet,
      BaseRead, BytesAt, Entries, SameBytes, Refused, Loaded;
    SplitTied(g, ops, g0);
    var op, r := Load(a, n, permitted), SpecLoad(g, a, n, permitted);
    LoadIs(g, a, n, permitted);
    SameMeaning(ops, op);
    FrontedTabled(g, a, ops);
    FrontedSize(g, a);
    BaseReadKeeps(g.mem, a, n);
    SameHere(g.mem);
    if !Refused(a, n, permitted) && Supported(n) { LoadBytes(g, ops, g0, a, n, permitted); }
    if r.Done? {
      SameTable(r.gen.table, ops, ops + [op]);
      JoinTied(g, r.gen, ops, ops + [op], g0);
    }
  }

  lemma LoadBytes(g: Gen, ops: seq<Op>, g0: Gen, a: nat, n: nat, permitted: bool)
    requires Shape(g) && Tabled(g.table, ops) && |g0.mem.ptab| == PTAB_SIZE && SameBytes(g0.mem, g.mem)
    requires !Refused(a, n, permitted) && Supported(n)
    ensures var r := SpecLoad(g, a, n, permitted); r.Done? && r.bytes == Loaded(ops, g0.mem, a, n)
  {
    hide SpecLoad, Tabled, Fronted, Slot, Buffered, OneEach, Lookup, FindTag, Buffer, BaseRead, BytesAt, SameBytes, Refused;
    LoadIs(g, a, n, permitted);
    FrontedTabled(g, a, ops);
    SameBytesAt(g0.mem, g.mem, a, n);
  }

  lemma SameHere(m: Mem)
    requires |m.ptab| == PTAB_SIZE
    ensures SameBytes(m, m)
  {
  }

  lemma StoreIs(g: Gen, a: nat, data: seq<Byte>, permitted: bool)
    requires Shape(g)
    ensures var r := SpecStore(g, a, data, permitted);
      && (Refused(a, |data|, permitted) ==> r == Done(g, Zeros(|data|)))
      && (!Refused(a, |data|, permitted) && !Supported(|data|) ==> r == BadSize)
      && (Writes(Store(a, data, permitted)) ==>
            && r.Done? && r.gen == g.(table := r.gen.table, pool := if Buffered(g, a) || g.pool == 0 then g.pool else g.pool - 1)
            && (|data| <= |Allocated(g, a)[0].page| ==>
                  r.gen.table == g.table[Slot(a) := Allocated(g, a)[0 := Allocated(g, a)[0].(page := Overlay(Allocated(g, a)[0].page, data))]]))
  {
    hide Slot, FindTag, ToFront, Refused, Allocated;
  }

  lemma StoreTied(g: Gen, ops: seq<Op>, g0: Gen, a: nat, data: seq<Byte>, permitted: bool)
    requires Tied(g, ops, g0)
    ensures var r := SpecStore(g, a, data, permitted);
      && (r == BadSize <==> !Refused(a, |data|, permitted) && !Supported(|data|))
      && (r.Done? ==> Tied(r.gen, ops + [Store(a, data, permitted)], g0))
      && (r.Done? && g.pool > 0 ==> Total(r.gen) == Total(g))
  {
    var op, r := Store(a, data, permitted), SpecStore(g, a, data, permitted);
    SplitTied(g, ops, g0);
    StoreIs(g, a, data, permitted);
    SameMeaning(ops, op);
    SameHere(g.mem);
    if Writes(op) { StoreTable(g, ops, a, data, permitted); }
    hide Tied, SpecStore, SameBase, Copied, Tabled, Inv, Allocated, Slot, Buffered, OneEach, Lookup, FindTag, Buffer, LastSet,
      Entries, SameBytes, Refused;
    if r.Done? {
      if !Writes(op) { SameTable(r.gen.table, ops, ops + [op]); }
      JoinTied(g, r.gen, ops, ops + [op], g0);
    }
  }

  lemma StoreTable(g: Gen, ops: seq<Op>, a: nat, data: seq<Byte>, permitted: bool)
    requires Shape(g) && Tabled(g.table, ops) && Writes(Store(a, data, permitted))
    ensures var r := SpecStore(g, a, data, permitted);
      && r.Done? && Tabled(r.gen.table, ops + [Store(a, data, permitted)])
      && (g.pool > 0 ==> Total(r.gen) == Total(g))
  {
    var c, r, k := Allocated(g, a), SpecStore(g, a, data, permitted), Slot(a);
    StoreIs(g, a, data, permitted);
    BufferStep(ops, a, data, permitted);
    AllocatedIs(g, ops, a);
    BufferedSize(ops, a);
    hide SpecStore, Fronted, Slot, Buffer, Allocated, Lookup, OneEach, Entries, Refused, Buffered, FindTag;
    var page := Overlay(c[0].page, data);
    var d := c[0 := c[0].(page := page)];
    EntriesUpdate(g.table, k, d, STORE_HASH_SIZE);
    forall x: nat ensures OneEach(d) && Lookup(d, x) == if x == a then Some(page) else Lookup(g.table[k], x) {
      HeadLookup(c, page, x);
    }
    NewTable(g.table, k, d, ops, ops + [Store(a, data, permitted)], a, page);
  }

  lemma BufferedSize(ops: seq<Op>, a: nat)
    ensures Buffer(ops, a).Some? ==> |Buffer(ops, a).value| == BUFFER_SIZE
  {
  }

  lemma NewTable(table: seq<seq<Pte>>, k: nat, d: seq<Pte>, ops: seq<Op>, more: seq<Op>, a: nat, page: seq<Byte>)
    requires Tabled(table, ops) && k == Slot(a) && OneEach(d)
    requires forall x: nat :: Lookup(d, x) == if x == a then Some(page) else Lookup(table[k], x)
    requires Buffer(more, a) == Some(page) && forall x: nat :: x != a ==> Buffer(more, x) == Buffer(ops, x)
    ensures Tabled(table[k := d], more)
  {
    hide Slot, Lookup, OneEach, Buffer;
  }

  lemma BufferStep(ops: seq<Op>, a: nat, data: seq<Byte>, permitted: bool)
    requires Writes(Store(a, data, permitted))
    ensures var more := ops + [Store(a, data, permitted)];
      && |data| <= BUFFER_SIZE
      && Buffer(more, a) == Some(Overlay(if Buffer(ops, a).Some? then Buffer(ops, a).value else Zeros(BUFFER_SIZE), data))
      && forall x: nat :: x != a ==> Buffer(more, x) == Buffer(ops, x)
  {
    hide Refused;
    var more := ops + [Store(a, data, permitted)];
    assert more[..|more| - 1] == ops;
  }

  lemma AllocatedIs(g: Gen, ops: seq<Op>, a: nat)
    requires Shape(g) && Tabled(g.table, ops)
    ensures var c := Allocated(g, a);
      && OneEach(c) && c[0].tag == a && |c| == |g.table[Slot(a)]| + (if Buffered(g, a) then 0 else 1)
      && c[0].page == (if Buffer(ops, a).Some? then Buffer(ops, a).value else Zeros(BUFFER_SIZE))
      && forall x: nat :: x != a ==> Lookup(c, x) == Lookup(g.table[Slot(a)], x)
  {
    hide Slot, Fronted, Allocated, FindTag, Lookup, OneEach, Buffered, Buffer, Entries, Tabled, Zeros;
    FrontedTabled(g, a, ops);
    FrontedSize(g, a);
    AllocatedCases(g, a);
    if !Buffered(g, a) { PushAll(Fronted(g, a), Pte(a, Zeros(BUFFER_SIZE))); }
  }

  lemma PushAll(b: seq<Pte>, e: Pte)
    requires OneEach(b) && FindTag(b, e.tag) < 0
    ensures OneEach([e] + b) && forall x: nat :: x != e.tag ==> Lookup([e] + b, x) == Lookup(b, x)
  {
    hide OneEach, FindTag, Lookup;
    PushLookup(b, e, 0);
    forall x: nat | x != e.tag ensures Lookup([e] + b, x) == Lookup(b, x) { PushLookup(b, e, x); }
  }

  lemma AllocatedCases(g: Gen, a: nat)
    requires Shape(g)
    ensures Allocated(g, a) == if Buffered(g, a) then Fronted(g, a) else [Pte(a, Zeros(BUFFER_SIZE))] + Fronted(g, a)
  {
  }

  lemma SetTied(g: Gen, ops: seq<Op>, g0: Gen, r: nat, v: int)
    requires Tied(g, ops, g0) && r < NUM_REGS
    ensures Tied(SetGpr(g, r, v), ops + [SetReg(r, v)], g0) && Total(SetGpr(g, r, v)) == Total(g)
  {
    var more := ops + [SetReg(r, v)];
    assert more[..|more| - 1] == ops;
    SameMeaning(ops, SetReg(r, v));
    hide Inv, Lookup, Slot, OneEach, Buffer, Entries;
  }

  /** Every operation on the mispredicted path, in one lemma. */
  lemma StepTied(g: Gen, ops: seq<Op>, g0: Gen, op: Op)
    requires Tied(g, ops, g0) && OkOp(op)
    ensures Step(g, op).Done? ==> Tied(Step(g, op).gen, ops + [op], g0)
  {
    hide Tied, SpecLoad, SpecStore, SetGpr;
    TiedShape(g, ops, g0);
    match op
    case Load(a, n, permitted) => LoadTied(g, ops, g0, a, n, permitted);
    case Store(a, data, permitted) => StoreTied(g, ops, g0, a, data, permitted);
    case SetReg(r, v) => SetTied(g, ops, g0, r, v);
  }

  lemma TiedShape(g: Gen, ops: seq<Op>, g0: Gen)
    requires Tied(g, ops, g0)
    ensures Shape(g) && Shape(g0)
  {
  }

  ghost predicate OkRun(ops: seq<Op>) { forall i :: 0 <= i < |ops| ==> OkOp(ops[i]) }

  /** Nothing done on a mispredicted path changes a base register, a byte of memory or the number
      of its pages; the copies hold exactly what was set and stored. */
  lemma {:induction false} RunTied(g: Gen, ops: seq<Op>)
    requires Fresh(g) && OkRun(ops)
    ensures Run(g, ops).Done? ==> Tied(Run(g, ops).gen, ops, g)
  {
    hide Tied, Step, OkOp;
    if ops == [] {
      FreshTied(g);
    } else {
      var rest, op := ops[..|ops| - 1], ops[|ops| - 1];
      assert forall i :: 0 <= i < |rest| ==> rest[i] == ops[i];
      RunTied(g, rest);
      if Run(g, rest).Done? {
        TiedShape(Run(g, rest).gen, rest, g);
        StepTied(Run(g, rest).gen, rest, g, op);
        assert rest + [op] == ops;
      }
    }
  }

  lemma FreshShape(g: Gen)
    requires Fresh(g)
    ensures Shape(g) && |g.mem.ptab| == PTAB_SIZE
  {
  }

  // ----- what speculative reads return -----

  /** A register reads as it was last set on the mispredicted path, or as it was before. */
  lemma SpecRegister(g: Gen, ops: seq<Op>, r: nat)
    requires Fresh(g) && OkRun(ops) && Run(g, ops).Done? && r < NUM_REGS
    ensures Gpr(Run(g, ops).gen, r) == if LastSet(ops, r).Some? then LastSet(ops, r).value else g.regs[r]
  {
    RunTied(g, ops);
    hide Run, Inv, Tabled;
  }

  /** A load on the mispredicted path. */
  lemma SpecRead(g: Gen, ops: seq<Op>, a: nat, n: nat)
    requires Fresh(g) && OkRun(ops) && Run(g, ops).Done? && !Refused(a, n, true) && Supported(n)
    ensures var r := SpecLoad(Run(g, ops).gen, a, n, true); r.Done? && r.bytes == Loaded(ops, g.mem, a, n)
  {
    RunTied(g, ops);
    hide Run, Inv, Tied;
    TiedShape(Run(g, ops).gen, ops, g);
    LoadTied(Run(g, ops).gen, ops, g, a, n, true);
  }

  /** The last store to reach the buffer of an address. */
  function LastStore(ops: seq<Op>, a: nat): Option<seq<Byte>> {
    if ops == [] then None
    else
      var op := ops[|ops| - 1];
      if Writes(op) && op.addr == a then Some(op.data) else LastStore(ops[..|ops| - 1], a)
  }

  lemma {:induction false} LastInBuffer(ops: seq<Op>, a: nat)
    ensures LastStore(ops, a).None? <==> Buffer(ops, a).None?
    ensures LastStore(ops, a).Some? ==> var d := LastStore(ops, a).value; |d| <= BUFFER_SIZE && Buffer(ops, a).value[..|d|] == d
  {
    if ops != [] { LastInBuffer(ops[..|ops| - 1], a); }
  }

  /** A load of the size of the last store to its address returns that store's bytes; without any
      store there it returns what memory holds. */
  lemma LoadReturnsLastStore(g: Gen, ops: seq<Op>, a: nat, n: nat)
    requires Fresh(g) && OkRun(ops) && Run(g, ops).Done? && !Refused(a, n, true) && Supported(n)
    requires LastStore(ops, a).Some? ==> |LastStore(ops, a).value| == n
    ensures var r := SpecLoad(Run(g, ops).gen, a, n, true);
      r.Done? && r.bytes == if LastStore(ops, a).Some? then LastStore(ops, a).value else BytesAt(g.mem, a, n)
  {
    SpecRead(g, ops, a, n);
    LastInBuffer(ops, a);
    hide Run, SpecLoad, Buffer, LastStore, Fresh;
  }

  // ----- recovery -----

  /** Recovery restores every register, every byte and the number of pages, and empties the table;
      the entries go to the free list. */
  lemma RecoverRestores(g: Gen, ops: seq<Op>)
    requires Fresh(g) && OkRun(ops) && Run(g, ops).Done?
    ensures var s := Run(g, ops).gen;
      var r := Recover(s);
      && r.Done? && !r.gen.specMode && SameBase(r.gen, g)
      && (forall k: nat :: k < NUM_REGS ==> Gpr(r.gen, k) == g.regs[k])
      && (forall k :: 0 <= k < STORE_HASH_SIZE ==> r.gen.table[k] == [])
      && r.gen.pool == Total(s)
  {
    RunTied(g, ops);
    hide Run, Inv, Tabled, Copied, SameBytes;
  }
}
