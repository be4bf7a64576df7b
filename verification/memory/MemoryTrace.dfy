/** Tracing of system calls: the memory they read and write is recorded in coalesced blobs, and
    replayed from them. */
module MemoryTrace {
  import opened Common
  import opened MemoryModel
  import opened MemoryAccess

  const BLOB_TAIL_SIZE: nat := 256

  /** A recorded piece of memory and the size its buffer was allocated with. */
  datatype Blob = Blob(addr: nat, data: seq<Byte>, maxsize: nat)

  /** One call of the tracing access function; a load comes with what its buffer held before. */
  datatype Access = Load(addr: nat, buffer: seq<Byte>) | Store(addr: nat, data: seq<Byte>)

  datatype Tracer = Tracer(mem: Mem, input: seq<Blob>, output: seq<Blob>, seenWrite: bool)

  /** The last blob takes the bytes if they follow it and leave its buffer room to spare. */
  predicate Joins(list: seq<Blob>, a: nat, n: nat) {
    list != [] &&
    var last := list[|list| - 1];
    last.addr + |last.data| == a && |last.data| + n < last.maxsize
  }

  function Record(list: seq<Blob>, a: nat, b: seq<Byte>): seq<Blob> {
    if Joins(list, a, |b|) then
      var last := list[|list| - 1];
      list[|list| - 1 := last.(data := last.data + b)]
    else list + [Blob(a, b, |b| + BLOB_TAIL_SIZE)]
  }

  predicate Faults(x: Access) { Check(x.addr, if x.Load? then |x.buffer| else |x.data|) != NoFault }

  /** A load after a store is fatal. */
  function TraceOne(t: Tracer, x: Access): (r: Option<Tracer>)
    requires |t.mem.ptab| == PTAB_SIZE
    ensures r.Some? ==> |r.value.mem.ptab| == PTAB_SIZE
  {
    match x
    case Load(a, buffer) =>
      if t.seenWrite then None
      else
        var (fault, m, b) := AccessRead(t.mem, a, |buffer|);
        Some(t.(mem := m, input := Record(t.input, a, if fault == NoFault then b else buffer)))
    case Store(a, b) =>
      Some(t.(mem := AccessWrite(t.mem, a, b).1, output := Record(t.output, a, b), seenWrite := true))
  }

  function TraceAll(m: Mem, xs: seq<Access>): (r: Option<Tracer>)
    requires |m.ptab| == PTAB_SIZE
    ensures r.Some? ==> |r.value.mem.ptab| == PTAB_SIZE
  {
    if xs == [] then Some(Tracer(m, [], [], false))
    else
      var r := TraceAll(m, xs[..|xs| - 1]);
      if r.None? then None else TraceOne(r.value, xs[|xs| - 1])
  }

  // ----- bytes of a list of blobs -----

  /** One byte at one address. */
  datatype Cell = Cell(addr: nat, value: Byte)

  function Cells(a: nat, b: seq<Byte>): seq<Cell> { seq(|b|, i requires 0 <= i < |b| => Cell(a + i, b[i])) }

  function Flatten(list: seq<Blob>): seq<Cell> {
    if list == [] then [] else Flatten(list[..|list| - 1]) + Cells(list[|list| - 1].addr, list[|list| - 1].data)
  }

  /** Each blob lies inside its buffer. */
  ghost predicate Fit(list: seq<Blob>) { forall i :: 0 <= i < |list| ==> |list[i].data| <= list[i].maxsize }

  /** Coalescing neither loses, adds nor reorders a byte, and never outgrows a buffer. */
  lemma RecordAdds(list: seq<Blob>, a: nat, b: seq<Byte>)
    requires Fit(list)
    ensures Fit(Record(list, a, b)) && Flatten(Record(list, a, b)) == Flatten(list) + Cells(a, b)
  {
    var r := Record(list, a, b);
    if Joins(list, a, |b|) {
      var last := list[|list| - 1];
      assert r[..|r| - 1] == list[..|list| - 1];
      assert Cells(last.addr, last.data + b) == Cells(last.addr, last.data) + Cells(a, b);
    } else {
      assert r[..|r| - 1] == list;
    }
  }

  /** What a load records: the bytes memory `m` holds, or what its buffer held if it faults. */
  function LoadedCells(m: Mem, x: Access): seq<Cell>
    requires |m.ptab| == PTAB_SIZE && x.Load?
  {
    if Faults(x) then Cells(x.addr, x.buffer)
    else seq(|x.buffer|, i requires 0 <= i < |x.buffer| => Cell(x.addr + i, ByteAt(m, x.addr + i)))
  }

  /** The cells a sequence of accesses to memory `m` records as read, and as written. */
  function LoadCells(m: Mem, xs: seq<Access>): seq<Cell>
    requires |m.ptab| == PTAB_SIZE
  {
    if xs == [] then []
    else
      var x, rest := xs[|xs| - 1], LoadCells(m, xs[..|xs| - 1]);
      if x.Store? then rest else rest + LoadedCells(m, x)
  }

  function StoreCells(xs: seq<Access>): seq<Cell> {
    if xs == [] then []
    else
      var x, rest := xs[|xs| - 1], StoreCells(xs[..|xs| - 1]);
      if x.Store? then rest + Cells(x.addr, x.data) else rest
  }

  /** The cells of the stores that do not fault. */
  function DoneCells(xs: seq<Access>): seq<Cell> {
    if xs == [] then []
    else
      var x, rest := xs[|xs| - 1], DoneCells(xs[..|xs| - 1]);
      if x.Store? && !Faults(x) then rest + Cells(x.addr, x.data) else rest
  }

  /** The value a sequence of single writes leaves at an address that held `d`. */
  function Final(cells: seq<Cell>, x: nat, d: Byte): Byte {
    if cells == [] then d
    else if cells[|cells| - 1].addr == x then cells[|cells| - 1].value
    else Final(cells[..|cells| - 1], x, d)
  }

  lemma {:induction false} FinalCells(f: seq<Cell>, a: nat, b: seq<Byte>, x: nat, d: Byte)
    ensures Final(f + Cells(a, b), x, d) == if Within(a, |b|, x) then b[x - a] else Final(f, x, d)
    decreases |b|
  {
    var g := f + Cells(a, b);
    if b == [] {
      assert g == f;
    } else {
      var c := b[..|b| - 1];
      FinalCells(f, a, c, x, d);
      assert g[..|g| - 1] == f + Cells(a, c);
    }
  }

  // ----- what a trace holds -----

  ghost predicate NoneFaults(xs: seq<Access>) { forall i :: 0 <= i < |xs| ==> !Faults(xs[i]) }

  /** The two lists flatten to exactly the bytes recorded as read and as written, in order, and
      memory is what the stores that did not fault make of it. */
  lemma {:induction false} TraceHolds(m: Mem, xs: seq<Access>)
    requires Inv(m) && |m.ptab| == PTAB_SIZE && TraceAll(m, xs).Some?
    ensures var t := TraceAll(m, xs).value;
      && Inv(t.mem) && Fit(t.input) && Fit(t.output)
      && Flatten(t.input) == LoadCells(m, xs) && Flatten(t.output) == StoreCells(xs)
      && (t.seenWrite <==> exists i :: 0 <= i < |xs| && xs[i].Store?)
      && (forall x: nat :: ByteAt(t.mem, x) == Final(DoneCells(xs), x, ByteAt(m, x)))
  {
    hide Inv, ByteAt, Present, ReadBytes, WriteBytes, Check, Record, Flatten, Final;
    if xs != [] {
      var rest, x := xs[..|xs| - 1], xs[|xs| - 1];
      TraceHolds(m, rest);
      var s := TraceAll(m, rest).value;
      if x.Load? {
        ReadBytesKeeps(s.mem, x.addr, |x.buffer|);
        var b := if Faults(x) then x.buffer else ReadBytes(s.mem, x.addr, |x.buffer|).1;
        RecordAdds(s.input, x.addr, b);
        NoStores(rest);
        if !Faults(x) { SameLoads(m, s.mem, x.addr, b); }
      } else {
        RecordAdds(s.output, x.addr, x.data);
        if !Faults(x) {
          WriteBytesKeeps(s.mem, x.addr, x.data);
          forall y: nat ensures Final(DoneCells(xs), y, ByteAt(m, y)) ==
            if Within(x.addr, |x.data|, y) then x.data[y - x.addr] else ByteAt(s.mem, y)
          {
            FinalCells(DoneCells(rest), x.addr, x.data, y, ByteAt(m, y));
          }
        }
      }
    } else {
      EmptyTrace(m);
    }
  }

  lemma EmptyTrace(m: Mem)
    ensures Flatten([]) == [] && forall x: nat, d: Byte :: Final([], x, d) == d
  {
  }

  lemma {:induction false} NoStores(xs: seq<Access>)
    ensures (forall i :: 0 <= i < |xs| ==> !xs[i].Store?) ==>
      DoneCells(xs) == [] && forall x: nat, d: Byte :: Final(DoneCells(xs), x, d) == d
  {
    if xs != [] { NoStores(xs[..|xs| - 1]); }
  }

  lemma SameLoads(m: Mem, n: Mem, a: nat, b: seq<Byte>)
    requires |m.ptab| == |n.ptab| == PTAB_SIZE
    requires forall x: nat :: ByteAt(n, x) == ByteAt(m, x)
    requires forall i :: 0 <= i < |b| ==> b[i] == ByteAt(n, a + i)
    ensures Cells(a, b) == seq(|b|, i requires 0 <= i < |b| => Cell(a + i, ByteAt(m, a + i)))
  {
    hide ByteAt;
  }

  // ----- replay -----

  /** Reads a blob's bytes one by one; a byte that is not as recorded is fatal. */
  function CheckBlob(m: Mem, a: nat, b: seq<Byte>): (r: Option<Mem>)
    requires |m.ptab| == PTAB_SIZE
    ensures r.Some? ==> |r.value.ptab| == PTAB_SIZE
    decreases |b|
  {
    if b == [] then Some(m)
    else
      var (fault, n, v) := AccessRead(m, a, 1);
      if fault != NoFault || v[0] != b[0] then None else CheckBlob(n, a + 1, b[1..])
  }

  function CheckInputs(m: Mem, list: seq<Blob>): (r: Option<Mem>)
    requires |m.ptab| == PTAB_SIZE
    ensures r.Some? ==> |r.value.ptab| == PTAB_SIZE
  {
    if list == [] then Some(m)
    else
      var r := CheckInputs(m, list[..|list| - 1]);
      if r.None? then None else CheckBlob(r.value, list[|list| - 1].addr, list[|list| - 1].data)
  }

  function WriteBlob(m: Mem, a: nat, b: seq<Byte>): (n: Mem)
    requires |m.ptab| == PTAB_SIZE
    ensures |n.ptab| == PTAB_SIZE
    decreases |b|
  {
    if b == [] then m else WriteBlob(AccessWrite(m, a, [b[0]]).1, a + 1, b[1..])
  }

  function WriteOutputs(m: Mem, list: seq<Blob>): (n: Mem)
    requires |m.ptab| == PTAB_SIZE
    ensures |n.ptab| == PTAB_SIZE
  {
    if list == [] then m
    else WriteBlob(WriteOutputs(m, list[..|list| - 1]), list[|list| - 1].addr, list[|list| - 1].data)
  }

  /** The memory part of reading a transaction. */
  function Replay(m: Mem, input: seq<Blob>, output: seq<Blob>): Option<Mem>
    requires |m.ptab| == PTAB_SIZE
  {
    var r := CheckInputs(m, input);
    if r.None? then None else Some(WriteOutputs(r.value, output))
  }

  /** The cells hold what memory `m` holds. */
  ghost predicate Agrees(m: Mem, cells: seq<Cell>)
    requires |m.ptab| == PTAB_SIZE
  {
    forall i :: 0 <= i < |cells| ==> ByteAt(m, cells[i].addr) == cells[i].value
  }

  lemma OneByte(a: nat)
    ensures Check(a, 1) == NoFault
  {
  }

  lemma {:induction false} CheckBlobIff(m: Mem, a: nat, b: seq<Byte>)
    requires Inv(m) && |m.ptab| == PTAB_SIZE
    ensures CheckBlob(m, a, b).Some? <==> Agrees(m, Cells(a, b))
    ensures CheckBlob(m, a, b).Some? ==> var n := CheckBlob(m, a, b).value; Inv(n) && SameBytes(m, n)
    decreases |b|
  {
    hide Inv, ByteAt, Present, ReadBytes;
    if b != [] {
      OneByte(a);
      ReadBytesKeeps(m, a, 1);
      var (n, v) := ReadBytes(m, a, 1);
      assert v[0] == ByteAt(m, a + 0);
      CheckBlobIff(n, a + 1, b[1..]);
      AgreesSum(m, [Cell(a, b[0])], Cells(a + 1, b[1..]));
      assert Cells(a, b) == [Cell(a, b[0])] + Cells(a + 1, b[1..]);
      assert [Cell(a, b[0])][0].addr == a;
    }
  }

  /** The inputs are accepted exactly if memory holds every recorded byte. */
  lemma {:induction false} InputsAcceptedIff(m: Mem, list: seq<Blob>)
    requires Inv(m) && |m.ptab| == PTAB_SIZE
    ensures CheckInputs(m, list).Some? <==> Agrees(m, Flatten(list))
    ensures CheckInputs(m, list).Some? ==> var n := CheckInputs(m, list).value; Inv(n) && SameBytes(m, n)
  {
    hide Inv, ByteAt, Present, CheckBlob;
    if list != [] {
      var rest, last := list[..|list| - 1], list[|list| - 1];
      InputsAcceptedIff(m, rest);
      AgreesSum(m, Flatten(rest), Cells(last.addr, last.data));
      if CheckInputs(m, rest).Some? {
        var n := CheckInputs(m, rest).value;
        CheckBlobIff(n, last.addr, last.data);
        assert Agrees(n, Cells(last.addr, last.data)) <==> Agrees(m, Cells(last.addr, last.data));
      }
    }
  }

  lemma AgreesSum(m: Mem, f: seq<Cell>, g: seq<Cell>)
    requires |m.ptab| == PTAB_SIZE
    ensures Agrees(m, f + g) <==> Agrees(m, f) && Agrees(m, g)
  {
    hide ByteAt;
    var h := f + g;
    if Agrees(m, h) {
      forall i | 0 <= i < |f| ensures ByteAt(m, f[i].addr) == f[i].value { assert h[i] == f[i]; }
      forall i | 0 <= i < |g| ensures ByteAt(m, g[i].addr) == g[i].value { assert h[|f| + i] == g[i]; }
    }
  }

  lemma {:induction false} WriteBlobIs(m: Mem, a: nat, b: seq<Byte>)
    requires |m.ptab| == PTAB_SIZE
    ensures WriteBlob(m, a, b) == WriteBytes(m, a, b)
    decreases |b|
  {
    hide Write;
    if b != [] {
      OneByte(a);
      assert WriteBytes(m, a, [b[0]]) == Write(m, a, b[0]) by { assert [b[0]][1..] == []; }
      WriteBlobIs(Write(m, a, b[0]), a + 1, b[1..]);
    }
  }

  lemma {:induction false} OutputsWritten(m: Mem, list: seq<Blob>)
    requires Inv(m) && |m.ptab| == PTAB_SIZE
    ensures var n := WriteOutputs(m, list);
      Inv(n) && forall x: nat :: ByteAt(n, x) == Final(Flatten(list), x, ByteAt(m, x))
  {
    hide Inv, ByteAt, WriteBlob, WriteBytes, Final;
    if list == [] {
      EmptyTrace(m);
    } else {
      var rest, last := list[..|list| - 1], list[|list| - 1];
      OutputsWritten(m, rest);
      var n := WriteOutputs(m, rest);
      WriteBlobIs(n, last.addr, last.data);
      WriteBytesKeeps(n, last.addr, last.data);
      forall x: nat ensures Final(Flatten(list), x, ByteAt(m, x)) ==
        if Within(last.addr, |last.data|, x) then last.data[x - last.addr] else ByteAt(n, x)
      {
        FinalCells(Flatten(rest), last.addr, last.data, x, ByteAt(m, x));
      }
    }
  }

  /** The buffers of the loads that fault hold what memory holds. */
  ghost predicate BuffersMatch(m: Mem, xs: seq<Access>)
    requires |m.ptab| == PTAB_SIZE
  {
    forall i :: 0 <= i < |xs| && xs[i].Load? && Faults(xs[i]) ==> Agrees(m, Cells(xs[i].addr, xs[i].buffer))
  }

  lemma {:induction false} LoadsAgreeIff(m: Mem, n: Mem, xs: seq<Access>)
    requires |m.ptab| == |n.ptab| == PTAB_SIZE && forall x: nat :: ByteAt(n, x) == ByteAt(m, x)
    ensures Agrees(n, LoadCells(m, xs)) <==> BuffersMatch(m, xs)
  {
    hide ByteAt, Faults, Cells;
    if xs != [] {
      var rest, x := xs[..|xs| - 1], xs[|xs| - 1];
      LoadsAgreeIff(m, n, rest);
      LastMatches(m, xs);
      if x.Load? { AgreesSum(n, LoadCells(m, rest), LoadedCells(m, x)); }
    }
  }

  lemma LastMatches(m: Mem, xs: seq<Access>)
    requires |m.ptab| == PTAB_SIZE && xs != []
    ensures var rest, x := xs[..|xs| - 1], xs[|xs| - 1];
      BuffersMatch(m, xs) <==> BuffersMatch(m, rest) && (x.Load? && Faults(x) ==> Agrees(m, Cells(x.addr, x.buffer)))
  {
    hide ByteAt, Agrees, Faults, Cells;
    var rest := xs[..|xs| - 1];
    assert forall i :: 0 <= i < |rest| ==> rest[i] == xs[i];
  }

  /** The stores that fault are overwritten, or store what would be there anyway. */
  ghost predicate FaultsHarmless(m: Mem, xs: seq<Access>)
    requires |m.ptab| == PTAB_SIZE
  {
    forall x: nat :: Final(StoreCells(xs), x, ByteAt(m, x)) == Final(DoneCells(xs), x, ByteAt(m, x))
  }

  /** A traced call replays, from memory with the bytes of before the call, with every input
      accepted and every byte ending up as the call left it, if and only if the buffers of its
      faulting loads matched memory and its faulting stores do not show. */
  lemma ReplaysIff(m: Mem, xs: seq<Access>, n: Mem)
    requires Inv(m) && Inv(n) && |m.ptab| == |n.ptab| == PTAB_SIZE
    requires TraceAll(m, xs).Some? && forall x: nat :: ByteAt(n, x) == ByteAt(m, x)
    ensures var t := TraceAll(m, xs).value;
      var r := Replay(n, t.input, t.output);
      (r.Some? && |r.value.ptab| == PTAB_SIZE && forall x: nat :: ByteAt(r.value, x) == ByteAt(t.mem, x))
        <==> BuffersMatch(m, xs) && FaultsHarmless(m, xs)
  {
    hide Inv, ByteAt, Present, TraceAll, WriteOutputs, CheckInputs, Final, BuffersMatch, Agrees;
    TraceHolds(m, xs);
    LoadsAgreeIff(m, n, xs);
    var t := TraceAll(m, xs).value;
    InputsAcceptedIff(n, t.input);
    if BuffersMatch(m, xs) {
      OutputsWritten(CheckInputs(n, t.input).value, t.output);
      var w := WriteOutputs(CheckInputs(n, t.input).value, t.output);
      assert forall x: nat :: ByteAt(w, x) == Final(StoreCells(xs), x, ByteAt(m, x));
    }
  }

  lemma {:induction false} NoFaultCells(xs: seq<Access>)
    requires NoneFaults(xs)
    ensures DoneCells(xs) == StoreCells(xs)
  {
    if xs != [] {
      assert NoneFaults(xs[..|xs| - 1]) && !Faults(xs[|xs| - 1]);
      NoFaultCells(xs[..|xs| - 1]);
    }
  }

  /** A call in which no access faults replays. */
  lemma ReplayRestores(m: Mem, xs: seq<Access>, n: Mem)
    requires Inv(m) && Inv(n) && |m.ptab| == |n.ptab| == PTAB_SIZE
    requires NoneFaults(xs) && TraceAll(m, xs).Some? && forall x: nat :: ByteAt(n, x) == ByteAt(m, x)
    ensures var t := TraceAll(m, xs).value;
      var r := Replay(n, t.input, t.output);
      r.Some? && |r.value.ptab| == PTAB_SIZE && forall x: nat :: ByteAt(r.value, x) == ByteAt(t.mem, x)
  {
    hide Inv, ByteAt, TraceAll, Replay;
    ReplaysIff(m, xs, n);
    NoFaultCells(xs);
  }

  /** The trace of one misaligned store to empty memory: recorded, not performed. */
  lemma OneFault(b: seq<Byte>)
    requires |b| == 2
    ensures var xs := [Store(1, b)];
      && Faults(xs[0]) && BuffersMatch(Empty(), xs)
      && TraceAll(Empty(), xs) == Some(Tracer(Empty(), [], [Blob(1, b, 2 + BLOB_TAIL_SIZE)], true))
    ensures forall x: nat :: ByteAt(Empty(), x) == 0
    ensures forall x: nat :: Final(StoreCells([Store(1, b)]), x, 0) == if Within(1, 2, x) then b[x - 1] else 0
    ensures forall x: nat :: Final(DoneCells([Store(1, b)]), x, 0) == 0
  {
    hide ByteAt, Present, WriteBytes, Final, Inv;
    var xs := [Store(1, b)];
    EmptyIs();
    EmptyTrace(Empty());
    var x, start := xs[0], Tracer(Empty(), [], [], false);
    assert xs[..|xs| - 1] == [];
    assert Check(1, |b|) != NoFault;
    assert Faults(x);
    assert StoreCells([]) == [] && DoneCells([]) == [] && TraceAll(Empty(), []) == Some(start);
    assert StoreCells(xs) == [] + Cells(1, b);
    assert DoneCells(xs) == [];
    assert TraceAll(Empty(), xs) == TraceOne(start, x);
    assert AccessWrite(Empty(), 1, b).1 == Empty();
    assert Record([], 1, b) == [Blob(1, b, 2 + BLOB_TAIL_SIZE)];
    forall x: nat ensures Final(StoreCells(xs), x, 0) == if Within(1, 2, x) then b[x - 1] else 0 {
      FinalCells([], 1, b, x, 0);
    }
  }

  /** A misaligned store of bytes that memory does not hold: replay performs it. */
  lemma FaultingStoreDiverges()
    ensures var xs := [Store(1, [5, 6])];
      && TraceAll(Empty(), xs).Some? && !FaultsHarmless(Empty(), xs)
      && var t := TraceAll(Empty(), xs).value;
         ByteAt(t.mem, 1) == 0 && Replay(Empty(), t.input, t.output).Some?
         && ByteAt(WriteOutputs(Empty(), t.output), 1) == 5
  {
    var xs := [Store(1, [5, 6])];
    OneFault([5, 6]);
    EmptyIs();
    hide ByteAt, Final, TraceAll, StoreCells, DoneCells, Inv, WriteOutputs, Flatten, Empty;
    TraceHolds(Empty(), xs);
    OutputsWritten(Empty(), TraceAll(Empty(), xs).value.output);
    assert Final(StoreCells(xs), 1, 0) == 5;
    assert Final(StoreCells(xs), 1, ByteAt(Empty(), 1)) != Final(DoneCells(xs), 1, ByteAt(Empty(), 1));
  }

  /** A misaligned store of the bytes that are there anyway replays. */
  lemma FaultingStoreOfSameBytes()
    ensures var xs := [Store(1, [0, 0])];
      !NoneFaults(xs) && TraceAll(Empty(), xs).Some? && BuffersMatch(Empty(), xs) && FaultsHarmless(Empty(), xs)
  {
    OneFault([0, 0]);
    hide ByteAt, Final, TraceAll, StoreCells, DoneCells, BuffersMatch, Empty;
  }
}
