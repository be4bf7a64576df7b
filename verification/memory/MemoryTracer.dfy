/** The tracing access function over its record buffers, and the replay of what it recorded. */
module MemoryTracer {
  import opened Common
  import opened MemoryModel
  import opened MemoryAccess
  import opened MemorySim
  import opened MemoryTrace

  /** A blob being filled: its address, its buffer and how much of the buffer is used. */
  datatype Rec = Rec(addr: nat, data: array<Byte>, size: nat)

  /** Copies bytes into a buffer. */
  method Fill(data: array<Byte>, start: nat, p: seq<Byte>)
    requires start + |p| <= data.Length
    modifies data
    ensures data[..start] == old(data[..start]) && data[start..start + |p|] == p
  {
    var i := 0;
    while i < |p|
      invariant i <= |p| && data[..start] == old(data[..start]) && data[start..start + i] == p[..i]
    {
      data[start + i] := p[i];
      i := i + 1;
    }
  }

  /** A new buffer that starts with the bytes and has room for more. */
  method NewBuffer(p: seq<Byte>) returns (data: array<Byte>)
    ensures fresh(data) && data.Length == |p| + BLOB_TAIL_SIZE && data[..|p|] == p
  {
    data := new Byte[|p| + BLOB_TAIL_SIZE](_ => 0);
    Fill(data, 0, p);
    assert data[..|p|] == data[0..0 + |p|];
  }

  /** One list of blobs; only the last one still grows. */
  class Recording {
    var recs: seq<Rec>

    ghost function Buffers(): set<array<Byte>>
      reads this
    {
      set r | r in recs :: r.data
    }

    ghost predicate Valid()
      reads this, Buffers()
    {
      && (forall i :: 0 <= i < |recs| ==> recs[i].size <= recs[i].data.Length)
      && (forall i, j :: 0 <= i < j < |recs| ==> recs[i].data != recs[j].data)
    }

    /** What the blob at a position holds. */
    ghost function BlobAt(i: nat): Blob
      reads this, Buffers()
      requires Valid() && i < |recs|
    {
      assert recs[i] in recs;
      Blob(recs[i].addr, recs[i].data[..recs[i].size], recs[i].data.Length)
    }

    ghost function View(): (v: seq<Blob>)
      reads this, Buffers()
      requires Valid()
      ensures |v| == |recs|
    {
      seq(|recs|, i requires 0 <= i < |recs| && Valid() reads this, Buffers() => BlobAt(i))
    }

    lemma BlobIs(i: nat)
      requires Valid() && i < |recs|
      ensures View()[i] == Blob(recs[i].addr, recs[i].data[..recs[i].size], recs[i].data.Length)
      ensures recs[i].data in Buffers()
    {
    }

    /** Joins the bytes to the last blob. */
    method Extend(p: seq<Byte>)
      requires Valid() && recs != [] && recs[|recs| - 1].size + |p| <= recs[|recs| - 1].data.Length
      modifies this, recs[|recs| - 1].data
      ensures Valid() && |recs| == |old(recs)| && Buffers() == old(Buffers())
      ensures View() == old(View())[|recs| - 1 := old(View()[|recs| - 1]).(data := old(View()[|recs| - 1]).data + p)]
    {
      var n := |recs| - 1;
      var last := recs[n];
      Fill(last.data, last.size, p);
      recs := recs[n := last.(size := last.size + |p|)];
      assert last.data[..last.size + |p|] == last.data[..last.size] + last.data[last.size..last.size + |p|];
      SameBuffers(old(recs), n, recs[n]);
      forall i: nat | i < n ensures BlobAt(i) == old(BlobAt(i)) {
        assert recs[i] == old(recs)[i] && recs[i].data != last.data;
      }
    }

    static lemma SameBuffers(rs: seq<Rec>, n: nat, r: Rec)
      requires n < |rs| && r.data == rs[n].data
      ensures (set x | x in rs[n := r] :: x.data) == set x | x in rs :: x.data
    {
      var qs := rs[n := r];
      forall x | x in rs ensures x.data in (set y | y in qs :: y.data) {
        var i :| 0 <= i < |rs| && rs[i] == x;
        assert qs[i] in qs && qs[i].data == x.data;
      }
      forall x | x in qs ensures x.data in (set y | y in rs :: y.data) {
        var i :| 0 <= i < |qs| && qs[i] == x;
        assert rs[i] in rs && rs[i].data == x.data;
      }
    }

    /** Starts a new blob, with room for more bytes. */
    method Begin(a: nat, p: seq<Byte>)
      requires Valid()
      modifies this
      ensures Valid() && |recs| == |old(recs)| + 1 && fresh(Buffers() - old(Buffers()))
      ensures View() == old(View()) + [Blob(a, p, |p| + BLOB_TAIL_SIZE)]
      ensures old(Buffers()) <= Buffers()
    {
      var data := NewBuffer(p);
      recs := recs + [Rec(a, data, |p|)];
      forall i: nat | i < |recs| - 1
        ensures recs[i] == old(recs)[i] && recs[i].data in old(Buffers())
      {
        assert recs[i] == old(recs)[i] && recs[i] in old(recs);
      }
      assert forall i: nat :: i < |recs| - 1 ==> BlobAt(i) == old(BlobAt(i));
      assert BlobAt(|recs| - 1) == Blob(a, p, |p| + BLOB_TAIL_SIZE);
    }

    method Add(a: nat, p: seq<Byte>)
      requires Valid()
      modifies this, Buffers()
      ensures Valid() && View() == Record(old(View()), a, p)
      ensures fresh(Buffers() - old(Buffers())) && old(Buffers()) <= Buffers()
    {
      hide View, BlobAt;
      if recs != [] {
        var last := recs[|recs| - 1];
        BlobIs(|recs| - 1);
        if last.addr + last.size == a && last.size + |p| < last.data.Length {
          Extend(p);
          return;
        }
      }
      Begin(a, p);
    }
  }

  /** Memory seen through the tracing access function during one system call. */
  class Tracing {
    const mem: Memory
    const input: Recording
    const output: Recording
    var seenWrite: bool

    ghost predicate Valid()
      reads this, mem, mem.ptab, input, output, input.Buffers(), output.Buffers()
    {
      && mem.Sound() && Inv(mem.View()) && input.Valid() && output.Valid()
      && input != output && input.Buffers() !! output.Buffers()
    }

    ghost function View(): (t: Tracer)
      reads this, mem, mem.ptab, input, output, input.Buffers(), output.Buffers()
      requires Valid()
      ensures |t.mem.ptab| == PTAB_SIZE
    {
      Tracer(mem.View(), input.View(), output.View(), seenWrite)
    }

    constructor (m: Memory)
      requires m.Sound() && Inv(m.View())
      ensures Valid() && mem == m && View() == Tracer(m.View(), [], [], false)
      ensures fresh(input) && fresh(output) && input.Buffers() == {} && output.Buffers() == {}
    {
      mem := m;
      var i := new Recording;
      var o := new Recording;
      i.recs, o.recs := [], [];
      input, output := i, o;
      seenWrite := false;
    }

    /** A load; the buffer keeps what it held if the access faults. */
    method Load(a: nat, buffer: seq<Byte>) returns (fatal: bool)
      requires Valid()
      modifies mem`ptes, mem`chains, mem`misses, mem`accesses, mem.ptab, input, input.Buffers()
      ensures fatal == TraceOne(old(View()), Access.Load(a, buffer)).None?
      ensures Valid() && (if fatal then View() == old(View()) else View() == TraceOne(old(View()), Access.Load(a, buffer)).value)
      ensures fresh(input.Buffers() - old(input.Buffers()))
    {
      hide Inv, ReadBytes, Record;
      if seenWrite { return true; }
      var fault, data := mem.MemRead(a, |buffer|);
      var p := if fault == NoFault then data else buffer;
      input.Add(a, p);
      fatal := false;
    }

    /** A store is recorded before it is performed. */
    method Store(a: nat, p: seq<Byte>)
      requires Valid()
      modifies this`seenWrite, mem, mem.ptab, output, output.Buffers()
      ensures Valid() && Some(View()) == TraceOne(old(View()), Access.Store(a, p))
      ensures fresh(output.Buffers() - old(output.Buffers()))
    {
      hide Inv, WriteBytes, Record;
      seenWrite := true;
      output.Add(a, p);
      var fault := mem.MemWrite(a, p);
    }
  }

  // ----- replay -----

  /** Reads a recorded input back; `bad` is the fatal input mismatch. */
  method CheckInput(mem: Memory, blob: Blob) returns (bad: bool)
    requires mem.Sound() && Inv(mem.View())
    modifies mem`ptes, mem`chains, mem`misses, mem`accesses, mem.ptab
    ensures mem.Sound() && Inv(mem.View())
    ensures bad == CheckBlob(old(mem.View()), blob.addr, blob.data).None?
    ensures !bad ==> Some(mem.View()) == CheckBlob(old(mem.View()), blob.addr, blob.data)
  {
    hide Inv, ReadBytes;
    var loc, i := blob.addr, 0;
    while i < |blob.data|
      invariant i <= |blob.data| && loc == blob.addr + i && mem.Sound() && Inv(mem.View())
      invariant CheckBlob(old(mem.View()), blob.addr, blob.data) == CheckBlob(mem.View(), loc, blob.data[i..])
    {
      OneByte(loc);
      var fault, v := mem.MemRead(loc, 1);
      if v[0] != blob.data[i] { return true; }
      assert blob.data[i..][1..] == blob.data[i + 1..];
      loc, i := loc + 1, i + 1;
    }
    bad := false;
  }

  method WriteOutput(mem: Memory, blob: Blob)
    requires mem.Sound() && Inv(mem.View())
    modifies mem`ptes, mem`chains, mem`home, mem`pageCount, mem`misses, mem`accesses, mem.ptab
    ensures mem.Sound() && Inv(mem.View()) && mem.View() == WriteBlob(old(mem.View()), blob.addr, blob.data)
  {
    hide Inv, WriteBytes;
    var loc, i := blob.addr, 0;
    while i < |blob.data|
      invariant i <= |blob.data| && loc == blob.addr + i && mem.Sound() && Inv(mem.View())
      invariant WriteBlob(old(mem.View()), blob.addr, blob.data) == WriteBlob(mem.View(), loc, blob.data[i..])
    {
      var fault := mem.MemWrite(loc, [blob.data[i]]);
      assert blob.data[i..][1..] == blob.data[i + 1..];
      loc, i := loc + 1, i + 1;
    }
  }

  /** The memory part of reading a transaction back: inputs checked, outputs written. */
  method ReadTrace(mem: Memory, input: seq<Blob>, output: seq<Blob>) returns (bad: bool)
    requires mem.Sound() && Inv(mem.View())
    modifies mem`ptes, mem`chains, mem`home, mem`pageCount, mem`misses, mem`accesses, mem.ptab
    ensures mem.Sound() && Inv(mem.View())
    ensures bad == Replay(old(mem.View()), input, output).None?
    ensures !bad ==> Some(mem.View()) == Replay(old(mem.View()), input, output)
  {
    hide Inv, CheckBlob, WriteBlob;
    var k := 0;
    while k < |input|
      invariant k <= |input| && mem.Sound() && Inv(mem.View())
      invariant CheckInputs(old(mem.View()), input[..k]) == Some(mem.View())
    {
      assert input[..k + 1][..k] == input[..k];
      bad := CheckInput(mem, input[k]);
      if bad {
        RejectedStays(old(mem.View()), input, k + 1);
        return;
      }
      k := k + 1;
    }
    assert input[..k] == input;
    ghost var checked := mem.View();
    k := 0;
    while k < |output|
      invariant k <= |output| && mem.Sound() && Inv(mem.View()) && mem.View() == WriteOutputs(checked, output[..k])
    {
      assert output[..k + 1][..k] == output[..k];
      WriteOutput(mem, output[k]);
      k := k + 1;
    }
    assert output[..k] == output;
    bad := false;
  }

  lemma {:induction false} RejectedStays(m: Mem, list: seq<Blob>, k: nat)
    requires |m.ptab| == PTAB_SIZE && k <= |list| && CheckInputs(m, list[..k]).None?
    ensures CheckInputs(m, list).None?
    decreases |list| - k
  {
    hide CheckBlob;
    if k < |list| {
      assert list[..k + 1][..k] == list[..k];
      RejectedStays(m, list, k + 1);
    } else {
      assert list[..k] == list;
    }
  }
}
