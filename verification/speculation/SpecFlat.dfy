/** Exactly when loads on the mispredicted path read like a flat memory. */
module SpecFlat {
  import opened Common
  import opened MemoryModel
  import Access = MemoryAccess
  import opened SpecModel
  import opened SpecProof

  /** A store that writes the byte at `x`. */
  predicate Covers(op: Op, x: nat) { Writes(op) && Access.Within(op.addr, |op.data|, x) }

  /** The byte a flat memory would hold: of the last store covering it, else of base memory. */
  function FlatByte(ops: seq<Op>, m: Mem, x: nat): Byte
    requires |m.ptab| == PTAB_SIZE
  {
    if ops == [] then ByteAt(m, x)
    else
      var op := ops[|ops| - 1];
      if Covers(op, x) then op.data[x - op.addr] else FlatByte(ops[..|ops| - 1], m, x)
  }

  /** The number of the last store covering a byte, -1 if there is none. */
  function LastCover(ops: seq<Op>, x: nat): (i: int)
    ensures -1 <= i < |ops| && (i >= 0 ==> Covers(ops[i], x))
  {
    if ops == [] then -1 else if Covers(ops[|ops| - 1], x) then |ops| - 1 else LastCover(ops[..|ops| - 1], x)
  }

  /** The number of the last store at address `a` covering a byte, -1 if there is none. */
  function LastAt(ops: seq<Op>, a: nat, x: nat): (i: int)
    ensures -1 <= i < |ops| && (i >= 0 ==> Covers(ops[i], x) && ops[i].addr == a)
  {
    if ops == [] then -1
    else if Covers(ops[|ops| - 1], x) && ops[|ops| - 1].addr == a then |ops| - 1
    else LastAt(ops[..|ops| - 1], a, x)
  }

  predicate StoredAt(ops: seq<Op>, a: nat) { exists i :: 0 <= i < |ops| && Writes(ops[i]) && ops[i].addr == a }

  /** The last store covering each byte of a load starts where the load does; if no store covers a
      byte, none starts there. */
  ghost predicate Agrees(ops: seq<Op>, a: nat, n: nat) {
    forall x: nat :: Access.Within(a, n, x) ==> AgreesAt(ops, a, x)
  }

  predicate AgreesAt(ops: seq<Op>, a: nat, x: nat) {
    var i := LastCover(ops, x);
    if i >= 0 then ops[i].addr == a else !StoredAt(ops, a)
  }

  // ----- what the bytes are, by the number of the store -----

  lemma {:induction false} FlatByteIs(ops: seq<Op>, m: Mem, x: nat)
    requires |m.ptab| == PTAB_SIZE
    ensures var i := LastCover(ops, x); FlatByte(ops, m, x) == if i >= 0 then ops[i].data[x - ops[i].addr] else ByteAt(m, x)
  {
    hide ByteAt, Covers;
    if ops != [] { FlatByteIs(ops[..|ops| - 1], m, x); }
  }

  lemma {:induction false} BufferByte(ops: seq<Op>, a: nat, x: nat)
    requires a <= x < a + BUFFER_SIZE
    ensures Buffer(ops, a).Some? <==> StoredAt(ops, a)
    ensures Buffer(ops, a).Some? ==> var i := LastAt(ops, a, x);
      Buffer(ops, a).value[x - a] == if i >= 0 then ops[i].data[x - a] else 0
  {
    hide Refused;
    if ops != [] {
      var rest := ops[..|ops| - 1];
      assert forall i :: 0 <= i < |rest| ==> rest[i] == ops[i];
      BufferByte(rest, a, x);
      if StoredAt(rest, a) { assert StoredAt(ops, a); }
    }
  }

  /** If the last store covering a byte starts at `a`, it is the last of those starting there. */
  lemma {:induction false} CoverIsLast(ops: seq<Op>, a: nat, x: nat)
    ensures LastAt(ops, a, x) <= LastCover(ops, x)
    ensures LastCover(ops, x) >= 0 && ops[LastCover(ops, x)].addr == a ==> LastAt(ops, a, x) == LastCover(ops, x)
  {
    hide Covers;
    if ops != [] { CoverIsLast(ops[..|ops| - 1], a, x); }
  }

  lemma LoadedByte(ops: seq<Op>, m: Mem, a: nat, n: nat, x: nat)
    requires |m.ptab| == PTAB_SIZE && n <= BUFFER_SIZE && Access.Within(a, n, x)
    ensures var i := LastAt(ops, a, x);
      Loaded(ops, m, a, n)[x - a] ==
        if !StoredAt(ops, a) then ByteAt(m, x) else if i >= 0 then ops[i].data[x - a] else 0
  {
    BufferByte(ops, a, x);
    hide Buffer, StoredAt, LastAt, ByteAt;
  }

  lemma AgreesRight(ops: seq<Op>, m: Mem, a: nat, n: nat, x: nat)
    requires |m.ptab| == PTAB_SIZE && n <= BUFFER_SIZE && Access.Within(a, n, x) && AgreesAt(ops, a, x)
    ensures Loaded(ops, m, a, n)[x - a] == FlatByte(ops, m, x)
  {
    LoadedByte(ops, m, a, n, x);
    FlatByteIs(ops, m, x);
    CoverIsLast(ops, a, x);
    var i := LastCover(ops, x);
    if i >= 0 { assert Writes(ops[i]); assert StoredAt(ops, a); }
  }

  // ----- runs of the same shape -----

  /** The same operations, except for the bytes stored. */
  predicate SameShape(op: Op, other: Op) {
    match op
    case Store(a, data, permitted) => other.Store? && other.addr == a && |other.data| == |data| && other.permitted == permitted
    case _ => other == op
  }

  ghost predicate SameShapes(ops: seq<Op>, others: seq<Op>) {
    |others| == |ops| && forall i :: 0 <= i < |ops| ==> SameShape(ops[i], others[i])
  }

  lemma {:induction false} ShapesAgree(ops: seq<Op>, others: seq<Op>, a: nat, x: nat)
    requires SameShapes(ops, others)
    ensures LastCover(others, x) == LastCover(ops, x) && LastAt(others, a, x) == LastAt(ops, a, x)
    ensures StoredAt(others, a) <==> StoredAt(ops, a)
  {
    assert forall i :: 0 <= i < |ops| ==> (Writes(others[i]) <==> Writes(ops[i])) by { hide Refused; }
    hide Refused, Writes;
    if StoredAt(ops, a) {
      var i :| 0 <= i < |ops| && Writes(ops[i]) && ops[i].addr == a;
      assert Writes(others[i]);
    }
    if ops != [] {
      var rest, more := ops[..|ops| - 1], others[..|ops| - 1];
      assert forall i :: 0 <= i < |rest| ==> rest[i] == ops[i] && more[i] == others[i];
      ShapesAgree(rest, more, a, x);
    }
  }

  /** The run with store `j` writing ones and every other store zeroes. */
  function Marked(ops: seq<Op>, j: int): (others: seq<Op>)
    ensures |others| == |ops|
  {
    seq(|ops|, i requires 0 <= i < |ops| =>
      match ops[i]
      case Store(a, data, permitted) => Store(a, seq<Byte>(|data|, _ => if i == j then 1 else 0), permitted)
      case op => op)
  }

  lemma MarkedShape(ops: seq<Op>, j: int)
    ensures SameShapes(ops, Marked(ops, j))
    ensures forall i, k :: 0 <= i < |ops| && ops[i].Store? && 0 <= k < |ops[i].data| ==>
      Marked(ops, j)[i].data[k] == if i == j then 1 else 0
  {
  }

  /** Where a run does not agree, some run of the same shape over some memory loads another byte than
      flat memory holds. */
  lemma DisagreesWrong(ops: seq<Op>, a: nat, n: nat, x: nat) returns (others: seq<Op>, m: Mem)
    requires n <= BUFFER_SIZE && Access.Within(a, n, x) && !AgreesAt(ops, a, x)
    ensures |m.ptab| == PTAB_SIZE && Inv(m) && SameShapes(ops, others)
    ensures Loaded(others, m, a, n)[x - a] != FlatByte(others, m, x)
  {
    var j := LastCover(ops, x);
    others, m := Marked(ops, j), if j >= 0 then Empty() else Write(Empty(), x, 1);
    MarkedShape(ops, j);
    ShapesAgree(ops, others, a, x);
    EmptyIs();
    WriteKeeps(Empty(), x, 1);
    hide Inv, Write, Empty, Refused, Marked;
    LoadedByte(others, m, a, n, x);
    FlatByteIs(others, m, x);
    CoverIsLast(ops, a, x);
  }

  /** Loads read like a flat memory whatever is stored and whatever memory held, if and only if the
      addresses and sizes of the stores agree with them. */
  lemma FlatExactly(ops: seq<Op>, a: nat, n: nat)
    requires n <= BUFFER_SIZE
    ensures Agrees(ops, a, n) <==>
      forall others: seq<Op>, m: Mem :: |m.ptab| == PTAB_SIZE && Inv(m) && SameShapes(ops, others) ==> LoadsFlat(others, m, a, n)
  {
    hide Inv, Loaded, FlatByte, AgreesAt;
    if Agrees(ops, a, n) {
      forall others: seq<Op>, m: Mem | |m.ptab| == PTAB_SIZE && Inv(m) && SameShapes(ops, others)
        ensures LoadsFlat(others, m, a, n)
      {
        forall x: nat | Access.Within(a, n, x) ensures Loaded(others, m, a, n)[x - a] == FlatByte(others, m, x) {
          ShapesAgreeAt(ops, others, a, x);
          AgreesRight(others, m, a, n, x);
        }
      }
    } else {
      var x: nat :| Access.Within(a, n, x) && !AgreesAt(ops, a, x);
      var others, m := DisagreesWrong(ops, a, n, x);
      assert !LoadsFlat(others, m, a, n);
    }
  }

  ghost predicate LoadsFlat(ops: seq<Op>, m: Mem, a: nat, n: nat)
    requires |m.ptab| == PTAB_SIZE && n <= BUFFER_SIZE
  {
    forall x: nat :: Access.Within(a, n, x) ==> Loaded(ops, m, a, n)[x - a] == FlatByte(ops, m, x)
  }

  lemma ShapesAgreeAt(ops: seq<Op>, others: seq<Op>, a: nat, x: nat)
    requires SameShapes(ops, others)
    ensures AgreesAt(others, a, x) <==> AgreesAt(ops, a, x)
  {
    ShapesAgree(ops, others, a, x);
    hide LastCover, StoredAt, Covers;
    var i := LastCover(ops, x);
    if i >= 0 { assert SameShape(ops[i], others[i]); }
  }

  /** A load that the stores of the run agree with reads what a flat memory would hold. */
  lemma SpecIsFlat(g: Gen, ops: seq<Op>, a: nat, n: nat)
    requires Fresh(g) && OkRun(ops) && Run(g, ops).Done? && !Refused(a, n, true) && Supported(n) && Agrees(ops, a, n)
    ensures var r := SpecLoad(Run(g, ops).gen, a, n, true);
      r.Done? && |r.bytes| == n && forall i: nat :: i < n ==> r.bytes[i] == FlatByte(ops, g.mem, a + i)
  {
    hide Run, SpecLoad, FlatByte, Refused, Fresh, OkRun, Loaded, Agrees;
    FreshShape(g);
    SpecRead(g, ops, a, n);
    BytesAreFlat(ops, g.mem, a, n);
  }

  lemma BytesAreFlat(ops: seq<Op>, m: Mem, a: nat, n: nat)
    requires |m.ptab| == PTAB_SIZE && n <= BUFFER_SIZE && Agrees(ops, a, n)
    ensures |Loaded(ops, m, a, n)| == n
    ensures forall i: nat :: i < n ==> Loaded(ops, m, a, n)[i] == FlatByte(ops, m, a + i)
  {
    hide Loaded, FlatByte, AgreesAt;
    forall i: nat | i < n ensures Loaded(ops, m, a, n)[i] == FlatByte(ops, m, a + i) {
      assert Access.Within(a, n, a + i);
      AgreesRight(ops, m, a, n, a + i);
    }
  }

  lemma EvenPairs(a: nat)
    requires a % 2 == 0
    ensures !Refused(a, 1, true) && !Refused(a, 2, true)
  {
  }

  /** A load wider than the store to its address sees a zero where flat memory has another byte:
      after a one-byte store to any even address, a two-byte load there. */
  lemma PartialOverlapDiffers(g: Gen, a: nat)
    requires Fresh(g) && Shape(g) && a % 2 == 0 && ByteAt(g.mem, a + 1) != 0
    ensures var ops := [Store(a, [7], true)];
      && OkRun(ops) && Run(g, ops).Done? && !Agrees(ops, a, 2)
      && SpecLoad(Run(g, ops).gen, a, 2, true).Done?
      && SpecLoad(Run(g, ops).gen, a, 2, true).bytes == [7, 0] && FlatByte(ops, g.mem, a + 1) != 0
  {
    var op := Store(a, [7], true);
    var ops := [op];
    assert ops[..0] == [];
    EvenPairs(a);
    assert Writes(op) && Access.Within(a, 2, a + 1) && !Covers(op, a + 1);
    assert StoredAt(ops, a) by { assert ops[0] == op; }
    assert LastCover(ops, a + 1) == LastCover([], a + 1);
    assert !AgreesAt(ops, a, a + 1);
    FreshTied(g);
    hide ByteAt, Slot, FindTag, Fronted, Allocated, Tied, SpecStore, SpecLoad, LastCover, StoredAt, Refused;
    assert Run(g, []) == Done(g, []);
    StoreTied(g, [], g, a, [7], true);
    assert Run(g, ops) == Step(g, op);
    assert Buffer([], a) == None;
    assert Buffer(ops, a) == Some(Overlay(Zeros(BUFFER_SIZE), [7]));
    SpecRead(g, ops, a, 2);
    assert Overlay(Zeros(BUFFER_SIZE), [7])[..2] == [7, 0];
    assert FlatByte(ops, g.mem, a + 1) == FlatByte([], g.mem, a + 1);
  }
}
