/** Checkpoints of memory: every page is dumped with its address, and written back byte by byte. */
module MemoryCheckpoint {
  import opened MemoryModel
  import opened MemoryAccess

  /** A dumped page: the address rebuilt from its entry and bucket, and its bytes. */
  datatype PageDump = PageDump(addr: nat, data: seq<Byte>)

  function DumpBucket(b: seq<Pte>, idx: nat): (d: seq<PageDump>)
    ensures |d| == |b|
  {
    seq(|b|, k requires 0 <= k < |b| => PageDump(PteAddr(b[k].tag, idx), b[k].page))
  }

  /** The pages of the first `n` buckets, in the order of the page iterator. */
  function DumpTo(ptab: seq<seq<Pte>>, n: nat): seq<PageDump>
    requires n <= |ptab|
  {
    if n == 0 then [] else DumpTo(ptab, n - 1) + DumpBucket(ptab[n - 1], n - 1)
  }

  function Dump(m: Mem): seq<PageDump> { DumpTo(m.ptab, |m.ptab|) }

  function Restore(m: Mem, d: seq<PageDump>): (n: Mem)
    requires |m.ptab| == PTAB_SIZE
    ensures |n.ptab| == PTAB_SIZE
  {
    if d == [] then m else
      var last := d[|d| - 1];
      WriteBytes(Restore(m, d[..|d| - 1]), last.addr, last.data)
  }

  /** The byte the dumped pages give an address, the last page that covers it deciding. */
  function DumpAt(d: seq<PageDump>, x: nat): Byte {
    if d == [] then 0
    else
      var last := d[|d| - 1];
      if Within(last.addr, |last.data|, x) then last.data[x - last.addr] else DumpAt(d[..|d| - 1], x)
  }

  predicate Covers(d: seq<PageDump>, x: nat) { exists i :: 0 <= i < |d| && Within(d[i].addr, |d[i].data|, x) }

  // ----- a dump describes the memory -----

  /** One dumped page covers the addresses of its entry, with the bytes of the entry. */
  lemma DumpedPage(b: seq<Pte>, idx: nat, x: nat, k: nat)
    requires Tidy(b) && idx < PTAB_SIZE && k < |b|
    ensures var p := PageDump(PteAddr(b[k].tag, idx), b[k].page);
      && (Within(p.addr, |p.data|, x) <==> PtabSet(x) == idx && FindTag(b, PtabTag(x)) == k)
      && (Within(p.addr, |p.data|, x) ==> p.data[x - p.addr] == Look(b, PtabTag(x), Offset(x)))
  {
    AddressParts(b[k].tag, idx, x);
    hide PtabSet, PtabTag, PteAddr, Offset;
    if b[k].tag == PtabTag(x) { FoundAt(b, PtabTag(x), k); }
  }

  lemma DumpAtLast(before: seq<PageDump>, p: PageDump, x: nat)
    ensures DumpAt(before + [p], x) == if Within(p.addr, |p.data|, x) then p.data[x - p.addr] else DumpAt(before, x)
  {
    assert (before + [p])[..|before|] == before;
  }

  lemma {:induction false} BucketAt(b: seq<Pte>, idx: nat, before: seq<PageDump>, x: nat, k: nat)
    requires Tidy(b) && idx < PTAB_SIZE && k <= |b|
    ensures var d := before + DumpBucket(b, idx)[..k];
      DumpAt(d, x) ==
        if PtabSet(x) == idx && 0 <= FindTag(b, PtabTag(x)) < k then Look(b, PtabTag(x), Offset(x)) else DumpAt(before, x)
  {
    var full := DumpBucket(b, idx);
    if k == 0 {
      assert before + full[..0] == before;
    } else {
      BucketAt(b, idx, before, x, k - 1);
      assert before + full[..k] == before + full[..k - 1] + [full[k - 1]];
      DumpAtLast(before + full[..k - 1], full[k - 1], x);
      DumpedPage(b, idx, x, k - 1);
      hide Tidy, FindTag, PtabSet, PtabTag, PteAddr, Offset, Look, Within, DumpAt;
    }
  }

  lemma {:induction false} DumpToAt(m: Mem, n: nat, x: nat)
    requires Inv(m) && n <= PTAB_SIZE
    ensures DumpAt(DumpTo(m.ptab, n), x) == if PtabSet(x) < n then ByteAt(m, x) else 0
  {
    if n > 0 {
      DumpToAt(m, n - 1, x);
      var b := m.ptab[n - 1];
      assert Tidy(b);
      BucketAt(b, n - 1, DumpTo(m.ptab, n - 1), x, |b|);
      assert DumpBucket(b, n - 1)[..|b|] == DumpBucket(b, n - 1);
    }
  }

  lemma {:induction false} DumpSize(ptab: seq<seq<Pte>>, n: nat)
    requires n <= |ptab|
    ensures |DumpTo(ptab, n)| == Entries(ptab, n)
  {
    if n > 0 { DumpSize(ptab, n - 1); }
  }

  // ----- whole pages, no page twice -----

  ghost predicate Whole(p: PageDump) {
    |p.data| == PAGE_SIZE && exists tag: nat, idx: nat :: idx < PTAB_SIZE && p.addr == PteAddr(tag, idx)
  }

  /** The dump holds whole pages of buckets below `n`, at different addresses. */
  ghost predicate Apart(d: seq<PageDump>, n: nat) {
    && (forall i :: 0 <= i < |d| ==> Whole(d[i]) && PtabSet(d[i].addr) < n)
    && (forall i, j :: 0 <= i < j < |d| ==> d[i].addr != d[j].addr)
  }

  lemma {:induction false} DumpApart(m: Mem, n: nat)
    requires Inv(m) && n <= PTAB_SIZE
    ensures Apart(DumpTo(m.ptab, n), n)
  {
    if n > 0 {
      DumpApart(m, n - 1);
      var b, before := m.ptab[n - 1], DumpTo(m.ptab, n - 1);
      var d := before + DumpBucket(b, n - 1);
      assert Tidy(b);
      forall k | 0 <= k < |b|
        ensures PtabSet(PteAddr(b[k].tag, n - 1)) == n - 1 && PtabTag(PteAddr(b[k].tag, n - 1)) == b[k].tag
      {
        AddressParts(b[k].tag, n - 1, PteAddr(b[k].tag, n - 1));
      }
      forall i | 0 <= i < |d| ensures Whole(d[i]) && PtabSet(d[i].addr) < n {
        if i >= |before| { assert d[i] == DumpBucket(b, n - 1)[i - |before|]; } else { assert d[i] == before[i]; }
      }
      forall i, j | 0 <= i < j < |d| ensures d[i].addr != d[j].addr {
        assert i < |before| ==> d[i] == before[i];
        assert j < |before| ==> d[j] == before[j];
        assert i >= |before| ==> d[i] == DumpBucket(b, n - 1)[i - |before|];
        assert j >= |before| ==> d[j] == DumpBucket(b, n - 1)[j - |before|];
      }
    }
  }

  // ----- restoring -----

  /** Bytes written inside one page allocate that page and no other. */
  lemma {:induction false} PageWritten(m: Mem, a: nat, b: seq<Byte>, tag: nat, idx: nat)
    requires Inv(m) && b != [] && idx < PTAB_SIZE
    requires PteAddr(tag, idx) <= a && a + |b| <= PteAddr(tag, idx) + PAGE_SIZE
    ensures var n := WriteBytes(m, a, b);
      && n.pageCount == m.pageCount + (if Present(m, a) then 0 else 1)
      && (forall x: nat :: Present(n, x) <==> Present(m, x) || Within(PteAddr(tag, idx), PAGE_SIZE, x))
    decreases |b|
  {
    InvSize(m);
    WriteKeeps(m, a, b[0]);
    var w := Write(m, a, b[0]);
    InPage(m, w, a, tag, idx);
    if |b| == 1 {
      assert b[1..] == [];
      assert WriteBytes(w, a + 1, b[1..]) == w;
    } else {
      hide Write, Inv, Present, PteAddr;
      assert Within(PteAddr(tag, idx), PAGE_SIZE, a + 1);
      PageWritten(w, a + 1, b[1..], tag, idx);
    }
  }

  lemma InPage(m: Mem, w: Mem, a: nat, tag: nat, idx: nat)
    requires |m.ptab| == |w.ptab| == PTAB_SIZE && idx < PTAB_SIZE && PteAddr(tag, idx) <= a < PteAddr(tag, idx) + PAGE_SIZE
    requires forall x: nat :: Present(w, x) <==> Present(m, x) || SamePage(a, x)
    ensures forall x: nat :: Present(w, x) <==> Present(m, x) || Within(PteAddr(tag, idx), PAGE_SIZE, x)
  {
    hide Present;
    AddressParts(tag, idx, a);
    forall x: nat ensures SamePage(a, x) <==> Within(PteAddr(tag, idx), PAGE_SIZE, x) {
      AddressParts(tag, idx, x);
    }
  }

  lemma {:induction false} Restores(d: seq<PageDump>)
    requires Apart(d, PTAB_SIZE)
    ensures var n := Restore(Empty(), d);
      && Inv(n) && n.pageCount == |d|
      && (forall x: nat :: ByteAt(n, x) == DumpAt(d, x))
      && (forall x: nat :: Present(n, x) <==> Covers(d, x))
  {
    hide Inv, ByteAt, Present, WriteBytes, PteAddr, PtabSet;
    if d == [] {
      EmptyIs();
    } else {
      var last, rest := d[|d| - 1], d[..|d| - 1];
      Restores(rest);
      var m := Restore(Empty(), rest);
      WriteBytesKeeps(m, last.addr, last.data);
      var tag: nat, idx: nat :| idx < PTAB_SIZE && last.addr == PteAddr(tag, idx);
      PageWritten(m, last.addr, last.data, tag, idx);
      NotCovered(d);
      forall x: nat ensures Covers(d, x) <==> Covers(rest, x) || Within(last.addr, PAGE_SIZE, x) {
        if Covers(rest, x) {
          var i :| 0 <= i < |rest| && Within(rest[i].addr, |rest[i].data|, x);
          assert Within(d[i].addr, |d[i].data|, x);
        }
        assert d[|d| - 1] == last;
      }
    }
  }

  lemma NotCovered(d: seq<PageDump>)
    requires Apart(d, PTAB_SIZE) && d != []
    ensures !Covers(d[..|d| - 1], d[|d| - 1].addr)
  {
    var last := d[|d| - 1];
    forall i | 0 <= i < |d| - 1 ensures !Within(d[i].addr, |d[i].data|, last.addr) {
      assert d[i].addr != last.addr && Whole(d[i]) && Whole(last);
      PagesApart(d[i], last);
    }
  }

  lemma PagesApart(p: PageDump, q: PageDump)
    requires Whole(p) && Whole(q) && p.addr != q.addr
    ensures !Within(p.addr, |p.data|, q.addr)
  {
    var t: nat, i: nat :| i < PTAB_SIZE && p.addr == PteAddr(t, i);
    var u: nat, j: nat :| j < PTAB_SIZE && q.addr == PteAddr(u, j);
    AddressParts(t, i, q.addr);
    AddressParts(u, j, q.addr);
  }

  /** Restoring a checkpoint into empty memory gives the same byte at every address and the same
      number of pages, and the dump announces that number. */
  lemma CheckpointRoundTrip(m: Mem)
    requires Inv(m)
    ensures var n := Restore(Empty(), Dump(m));
      && Inv(n) && (forall x: nat :: ByteAt(n, x) == ByteAt(m, x))
      && |Dump(m)| == m.pageCount == n.pageCount
  {
    InvSize(m);
    DumpApart(m, PTAB_SIZE);
    DumpSize(m.ptab, PTAB_SIZE);
    assert m.pageCount == Entries(m.ptab, PTAB_SIZE);
    Restores(Dump(m));
    hide Inv, ByteAt, PtabSet, DumpAt, Apart;
    forall x: nat ensures DumpAt(Dump(m), x) == ByteAt(m, x) { DumpToAt(m, PTAB_SIZE, x); SetBelow(x); }
  }

  lemma SetBelow(x: nat)
    ensures PtabSet(x) < PTAB_SIZE
  {
  }
}
