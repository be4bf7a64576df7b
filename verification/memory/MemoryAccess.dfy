/** Accesses of several bytes, and runs of them. */
module MemoryAccess {
  import opened MemoryModel

  datatype Fault = NoFault | AccessFault | AlignmentFault

  /** Zero or a power of two: no bit in common with the number below. */
  predicate IsPower(n: nat) { n <= 1 || (n % 2 == 0 && IsPower(n / 2)) }

  /** The bits below the size are not all clear; below size zero lie all bits. */
  predicate Misaligned(a: nat, n: nat) { if n == 0 then a != 0 else a % n != 0 }

  function Check(a: nat, n: nat): Fault {
    if !IsPower(n) || n > PAGE_SIZE then AccessFault else if Misaligned(a, n) then AlignmentFault else NoFault
  }

  function ReadBytes(m: Mem, a: nat, n: nat): (r: (Mem, seq<Byte>))
    requires |m.ptab| == PTAB_SIZE
    ensures |r.0.ptab| == PTAB_SIZE && |r.1| == n
    decreases n
  {
    if n == 0 then (m, [])
    else
      var (k, v) := Read(m, a);
      var (l, rest) := ReadBytes(k, a + 1, n - 1);
      (l, [v] + rest)
  }

  function WriteBytes(m: Mem, a: nat, b: seq<Byte>): (n: Mem)
    requires |m.ptab| == PTAB_SIZE
    ensures |n.ptab| == PTAB_SIZE
    decreases |b|
  {
    if b == [] then m else WriteBytes(Write(m, a, b[0]), a + 1, b[1..])
  }

  function AccessRead(m: Mem, a: nat, n: nat): (Fault, Mem, seq<Byte>)
    requires |m.ptab| == PTAB_SIZE
  {
    if Check(a, n) != NoFault then (Check(a, n), m, []) else var (k, b) := ReadBytes(m, a, n); (NoFault, k, b)
  }

  function AccessWrite(m: Mem, a: nat, b: seq<Byte>): (Fault, Mem)
    requires |m.ptab| == PTAB_SIZE
  {
    if Check(a, |b|) != NoFault then (Check(a, |b|), m) else (NoFault, WriteBytes(m, a, b))
  }

  // ----- what they do to the byte map -----

  lemma {:induction false} ReadBytesKeeps(m: Mem, a: nat, n: nat)
    requires Inv(m)
    ensures var (k, b) := ReadBytes(m, a, n);
      && Inv(k) && SameBytes(m, k) && k.pageCount == m.pageCount
      && forall i :: 0 <= i < n ==> b[i] == ByteAt(m, a + i)
    decreases n
  {
    hide Read, Inv, ByteAt, Present;
    if n > 0 {
      InvSize(m);
      ReadKeeps(m, a);
      ReadBytesKeeps(Read(m, a).0, a + 1, n - 1);
    }
  }

  lemma InvSize(m: Mem)
    requires Inv(m)
    ensures |m.ptab| == PTAB_SIZE
  {
  }

  /** Every address in a range of `n` bytes from `a`. */
  predicate Within(a: nat, n: nat, x: nat) { a <= x < a + n }

  lemma {:induction false} WriteBytesKeeps(m: Mem, a: nat, b: seq<Byte>)
    requires Inv(m)
    ensures var n := WriteBytes(m, a, b);
      && Inv(n)
      && (forall x: nat :: ByteAt(n, x) == if Within(a, |b|, x) then b[x - a] else ByteAt(m, x))
    decreases |b|
  {
    hide Write, Inv, ByteAt;
    InvSize(m);
    if b != [] {
      WriteKeeps(m, a, b[0]);
      WriteBytesKeeps(Write(m, a, b[0]), a + 1, b[1..]);
    }
  }

  // ----- runs -----

  datatype Op = Get(addr: nat, n: nat) | Put(addr: nat, data: seq<Byte>)

  function Apply(m: Mem, op: Op): (k: Mem)
    requires |m.ptab| == PTAB_SIZE
    ensures |k.ptab| == PTAB_SIZE
  {
    match op
    case Get(a, n) => AccessRead(m, a, n).1
    case Put(a, b) => AccessWrite(m, a, b).1
  }

  function Run(ops: seq<Op>): (m: Mem)
    ensures |m.ptab| == PTAB_SIZE
  {
    if ops == [] then Empty() else Apply(Run(ops[..|ops| - 1]), ops[|ops| - 1])
  }

  /** The byte the last write that went through left at an address, or 0. */
  function LastWritten(ops: seq<Op>, x: nat): Byte {
    if ops == [] then 0
    else
      var op := ops[|ops| - 1];
      if op.Put? && Check(op.addr, |op.data|) == NoFault && Within(op.addr, |op.data|, x) then op.data[x - op.addr]
      else LastWritten(ops[..|ops| - 1], x)
  }

  /** Whatever was accessed before, in whatever order its buckets are now, the memory holds the
      last byte written to each address, and a read that does not fault returns these bytes. */
  lemma {:induction false} MemoryIsByteMap(ops: seq<Op>, a: nat, n: nat)
    ensures var m := Run(ops);
      && Inv(m) && (forall x: nat :: ByteAt(m, x) == LastWritten(ops, x))
      && var (fault, k, b) := AccessRead(m, a, n);
         && fault == Check(a, n) && |b| == (if fault == NoFault then n else 0)
         && forall i :: 0 <= i < |b| ==> b[i] == LastWritten(ops, a + i)
    decreases |ops|
  {
    hide Read, Write, Inv, ByteAt, ReadBytes, WriteBytes, Check, Present;
    if ops == [] {
      EmptyIs();
    } else {
      var op, rest := ops[|ops| - 1], ops[..|ops| - 1];
      MemoryIsByteMap(rest, 0, 0);
      var m := Run(rest);
      if op.Get? { ReadBytesKeeps(m, op.addr, op.n); } else { WriteBytesKeeps(m, op.addr, op.data); }
    }
    ReadBytesKeeps(Run(ops), a, n);
  }
}
