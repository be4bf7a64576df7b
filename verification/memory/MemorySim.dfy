/** Simulated memory over its linked page table, changed in place. */
module MemorySim {
  import opened MemoryModel
  import opened MemoryAccess
  import opened MemoryCheckpoint
  import opened MemoryLists

  class Memory {
    const ptab: array<int>
    var ptes: seq<Node>
    var pageCount: nat
    var misses: nat
    var accesses: nat
    ghost var chains: seq<seq<nat>>
    ghost var home: seq<nat>

    ghost function Store(): Links
      reads this, ptab
    {
      Links(ptab[..], ptes, chains, home)
    }

    ghost predicate Sound()
      reads this, ptab
    {
      ptab.Length == PTAB_SIZE == |chains| && Good(Store())
    }

    ghost function View(): (m: Mem)
      reads this, ptab
      requires Sound()
      ensures |m.ptab| == PTAB_SIZE
    {
      Mem(Table(Store()), pageCount, misses, accesses)
    }

    /** Entry `i` of bucket `k`, and what links to it. */
    lemma EntryAt(k: nat, i: nat)
      requires Sound() && k < PTAB_SIZE && i < |chains[k]|
      ensures |ptab[..]| == PTAB_SIZE && chains[k][i] < |ptes| && View().ptab[k][i] == Value(ptes[chains[k][i]])
      ensures ptes[chains[k][i]].next == After(chains[k], i)
    {
      assert Spells(Store().heads[k], ptes, chains[k]);
      assert LinkAt(ptes, chains[k], i);
    }

    lemma HeadOf(k: nat)
      requires Sound() && k < PTAB_SIZE
      ensures |chains| == PTAB_SIZE && |View().ptab[k]| == |chains[k]|
      ensures ptab[k] == if chains[k] == [] then NONE else chains[k][0]
    {
      assert Spells(Store().heads[k], ptes, chains[k]);
    }

    method Count(miss: bool)
      requires Sound()
      modifies this`misses, this`accesses
      ensures Sound() && View() == old(View()).(accesses := old(accesses) + 1, misses := old(misses) + if miss then 1 else 0)
    {
      accesses := accesses + 1;
      if miss { misses := misses + 1; }
    }

    method Relink(k: nat, prev: nat, pte: nat, ghost i: nat)
      requires Sound() && k < PTAB_SIZE && 0 < i < |chains[k]| && chains[k][i] == pte && chains[k][i - 1] == prev
      modifies this`ptes, this`chains, ptab
      ensures Sound() && View() == old(View()).(ptab := old(View().ptab)[k := ToFront(old(View().ptab)[k], i)])
      ensures chains == old(chains)[k := Moved(old(chains)[k], i)]
    {
      RelinkGood(Store(), k, i);
      ghost var s := Store();
      ptes := ptes[prev := ptes[prev].(next := ptes[pte].next)];
      ptes := ptes[pte := ptes[pte].(next := ptab[k])];
      ptab[k] := pte;
      chains := chains[k := Moved(chains[k], i)];
      assert ptab[..] == s.heads[k := pte];
      hide Good, Table, ToFront, Moved;
    }

    /** The entry of an address, moved to the head of its bucket; -1 if there is none. */
    method MemTranslate(a: nat) returns (r: int)
      requires Sound()
      modifies this`ptes, this`chains, this`misses, this`accesses, ptab
      ensures Sound() && View() == Translate(old(View()), a)
      ensures r == NONE || r >= 0
      ensures r >= 0 <==> Present(old(View()), a)
      ensures r >= 0 ==> |chains| == PTAB_SIZE && chains[PtabSet(a)] != [] && chains[PtabSet(a)][0] == r
    {
      hide Good, Table, Spells, Owned, LinkAt, PtabSet, PtabTag;
      Count(true);
      var k, tag := PtabSet(a), PtabTag(a);
      SetInRange(a);
      HeadOf(k);
      var prev, pte := NONE, ptab[k];
      ghost var i: nat := 0;
      ghost var v, b := View(), View().ptab[k];
      while pte != NONE
        invariant Sound() && View() == v && |chains| == PTAB_SIZE
        invariant i <= |b| == |chains[k]| && pte == (if i < |b| then chains[k][i] else NONE)
        invariant prev == if i == 0 then NONE else chains[k][i - 1]
        invariant FindFrom(b, tag, i) == FindFrom(b, tag, 0)
        decreases |b| - i
      {
        EntryAt(k, i);
        if ptes[pte].tag == tag {
          if prev != NONE {
            Relink(k, prev, pte, i);
          } else {
            FrontIsSame(b, View().ptab, k);
          }
          return pte;
        }
        prev, pte := pte, ptes[pte].next;
        i := i + 1;
      }
      return NONE;
    }

    /** The first entry of the bucket is tried before the list is searched. */
    method MemPage(a: nat) returns (r: int)
      requires Sound()
      modifies this`ptes, this`chains, this`misses, this`accesses, ptab
      ensures Sound() && View() == Page(old(View()), a)
      ensures r == NONE || r >= 0
      ensures r >= 0 <==> Present(old(View()), a)
      ensures r >= 0 ==> |chains| == PTAB_SIZE && chains[PtabSet(a)] != [] && chains[PtabSet(a)][0] == r
    {
      hide Good, Table, Spells, Owned, LinkAt, PtabSet, PtabTag, Translate;
      var k, tag := PtabSet(a), PtabTag(a);
      SetInRange(a);
      HeadOf(k);
      if ptab[k] != NONE {
        EntryAt(k, 0);
        if ptes[ptab[k]].tag == tag {
          Count(false);
          return ptab[k];
        }
      }
      r := MemTranslate(a);
    }

    method MemNewpage(a: nat)
      requires Sound()
      modifies this`ptes, this`chains, this`home, this`pageCount, ptab
      ensures Sound() && View() == NewPage(old(View()), a)
    {
      var k := PtabSet(a);
      PushGood(Store(), k, PtabTag(a), BlankPage());
      ghost var s := Store();
      ptes := ptes + [Node(ptab[k], PtabTag(a), BlankPage())];
      ptab[k] := |ptes| - 1;
      pageCount := pageCount + 1;
      chains, home := chains[k := [|ptes| - 1] + chains[k]], home + [k];
      assert ptab[..] == s.heads[k := |ptes| - 1];
      hide Good, Table, PtabSet, PtabTag, BlankPage;
    }

    method ReadByte(a: nat) returns (v: Byte)
      requires Sound() && Inv(View())
      modifies this`ptes, this`chains, this`misses, this`accesses, ptab
      ensures Sound() && (View(), v) == Read(old(View()), a)
    {
      hide Good, Table, Page, Tidy, PtabSet, PtabTag, Offset;
      ghost var m := View();
      PageKeeps(m, a);
      var first := MemPage(a);
      if first == NONE { return 0; }
      PageKeeps(View(), a);
      SetInRange(a);
      ByteAtHead(View(), Page(View(), a), a);
      var r := MemPage(a);
      EntryAt(PtabSet(a), 0);
      v := ptes[r].page[Offset(a)];
    }

    /** Bytes of the page at the head of the bucket of an address. */
    method HeadBytes(a: nat, pte: nat, n: nat) returns (bytes: seq<Byte>)
      requires Sound() && PtabSet(a) < |chains| && chains[PtabSet(a)] != [] && chains[PtabSet(a)][0] == pte
      requires Bucket(View(), a) != [] && Offset(a) + n <= |Bucket(View(), a)[0].page|
      ensures bytes == Bucket(View(), a)[0].page[Offset(a)..Offset(a) + n]
    {
      hide Good, Table, PtabSet, PtabTag, Offset;
      SetInRange(a);
      EntryAt(PtabSet(a), 0);
      bytes := ptes[pte].page[Offset(a)..Offset(a) + n];
    }

    /** A word inside one page, read with one lookup. */
    method ReadTyped(a: nat, n: nat) returns (bytes: seq<Byte>)
      requires Sound() && Inv(View()) && n > 0 && Offset(a) + n <= PAGE_SIZE
      modifies this`ptes, this`chains, this`misses, this`accesses, ptab
      ensures Sound() && Inv(View()) && View() == Read(old(View()), a).0
      ensures bytes == BytesAt(old(View()), a, n)
    {
      ghost var m := View();
      ReadKeeps(m, a);
      TypedIs(m, a, n);
      hide Good, Table, Inv, Read, Page, PtabSet, PtabTag, Offset, Bucket, Present, BytesAt;
      PageKeeps(m, a);
      SetInRange(a);
      var first := MemPage(a);
      if first == NONE { return seq(n, _ => 0); }
      var r := MemPage(a);
      bytes := HeadBytes(a, r, n);
    }

    method MemTickle(a: nat)
      requires Sound()
      modifies this`ptes, this`chains, this`home, this`pageCount, this`misses, this`accesses, ptab
      ensures Sound() && View() == Tickle(old(View()), a)
    {
      hide Good, Table, Page, NewPage;
      var r := MemPage(a);
      if r == NONE {
        MemNewpage(a);
      }
    }

    method WriteByte(a: nat, v: Byte)
      requires Sound() && Inv(View())
      modifies this`ptes, this`chains, this`home, this`pageCount, this`misses, this`accesses, ptab
      ensures Sound() && View() == Write(old(View()), a, v)
    {
      hide Good, Table, Page, NewPage, Tidy, PtabSet, PtabTag, Offset;
      TicklePresent(View(), a);
      MemTickle(a);
      PageKeeps(View(), a);
      SetInRange(a);
      var r := MemPage(a);
      EntryAt(PtabSet(a), 0);
      HeadWhole(View(), a);
      PokeHead(PtabSet(a), Offset(a), v);
    }

    method PokeHead(k: nat, o: nat, v: Byte)
      requires Sound() && k < PTAB_SIZE && |chains| == PTAB_SIZE && chains[k] != []
      requires var b := View().ptab[k]; b != [] && o < |b[0].page|
      modifies this`ptes
      ensures Sound() && View() == old(View()).(ptab := old(View().ptab)[k :=
        old(View().ptab[k])[0 := old(View().ptab[k][0]).(page := old(View().ptab[k][0].page)[o := v])]])
    {
      EntryAt(k, 0);
      HeadOf(k);
      var w := ptab[k];
      var page := ptes[w].page[o := v];
      FillGood(Store(), k, ptes[w].tag, page);
      ptes := ptes[w := ptes[w].(page := page)];
      hide Good, Table;
    }

    /** Aligned accesses of a power-of-two size, byte by byte. */
    method MemRead(a: nat, n: nat) returns (fault: Fault, data: seq<Byte>)
      requires Sound() && Inv(View())
      modifies this`ptes, this`chains, this`misses, this`accesses, ptab
      ensures Sound() && Inv(View()) && (fault, View(), data) == AccessRead(old(View()), a, n)
    {
      hide Good, Table, Inv, Read;
      if !IsPower(n) || n > PAGE_SIZE { return AccessFault, []; }
      if Misaligned(a, n) { return AlignmentFault, []; }
      data := [];
      var i := 0;
      ghost var was := View();
      ghost var rest := ReadBytes(was, a, n);
      assert data + rest.1 == rest.1;
      while i < n
        invariant i <= n && Sound() && Inv(View()) && rest == ReadBytes(View(), a + i, n - i)
        invariant ReadBytes(was, a, n) == (rest.0, data + rest.1)
      {
        ReadKeeps(View(), a + i);
        var v := ReadByte(a + i);
        rest := ReadBytes(View(), a + i + 1, n - i - 1);
        assert data + ([v] + rest.1) == data + [v] + rest.1;
        data := data + [v];
        i := i + 1;
      }
      assert data + rest.1 == data;
      fault := NoFault;
    }

    method MemWrite(a: nat, data: seq<Byte>) returns (fault: Fault)
      requires Sound() && Inv(View())
      modifies this`ptes, this`chains, this`home, this`pageCount, this`misses, this`accesses, ptab
      ensures Sound() && Inv(View()) && (fault, View()) == AccessWrite(old(View()), a, data)
    {
      hide Good, Table, Inv, Write;
      var n := |data|;
      if !IsPower(n) || n > PAGE_SIZE { return AccessFault; }
      if Misaligned(a, n) { return AlignmentFault; }
      var i := 0;
      ghost var was := View();
      while i < n
        invariant i <= n && Sound() && Inv(View())
        invariant WriteBytes(was, a, data) == WriteBytes(View(), a + i, data[i..])
      {
        WriteKeeps(View(), a + i, data[i]);
        assert data[i..][1..] == data[i + 1..];
        WriteByte(a + i, data[i]);
        i := i + 1;
      }
      fault := NoFault;
    }

    /** The memory part of writing a checkpoint. */
    method WriteCheckpoint() returns (d: seq<PageDump>)
      requires Sound()
      ensures d == Dump(View())
    {
      hide Good, Table, PteAddr;
      d := [];
      var idx := 0;
      while idx < PTAB_SIZE
        invariant idx <= PTAB_SIZE && d == DumpTo(View().ptab, idx)
      {
        HeadOf(idx);
        var pte := ptab[idx];
        ghost var i: nat := 0;
        ghost var full := DumpBucket(View().ptab[idx], idx);
        while pte != NONE
          invariant i <= |full| == |chains[idx]| && pte == (if i < |full| then chains[idx][i] else NONE)
          invariant d == DumpTo(View().ptab, idx) + full[..i]
          decreases |full| - i
        {
          EntryAt(idx, i);
          d := d + [PageDump(PteAddr(ptes[pte].tag, idx), ptes[pte].page)];
          assert full[..i + 1] == full[..i] + [full[i]];
          pte := ptes[pte].next;
          i := i + 1;
        }
        assert full[..i] == full;
        idx := idx + 1;
      }
    }

    /** The memory part of reading a checkpoint: as many pages as it announces. */
    method ReadCheckpoint(d: seq<PageDump>)
      requires Sound() && Inv(View())
      modifies this`ptes, this`chains, this`home, this`pageCount, this`misses, this`accesses, ptab
      ensures Sound() && Inv(View()) && View() == Restore(old(View()), d)
    {
      hide Good, Table, Inv, Write;
      ghost var was := View();
      var i := 0;
      while i < |d|
        invariant i <= |d| && Sound() && Inv(View()) && View() == Restore(was, d[..i])
      {
        var a, j := d[i].addr, 0;
        ghost var before := View();
        while j < |d[i].data|
          invariant j <= |d[i].data| && a == d[i].addr + j && Sound() && Inv(View())
          invariant WriteBytes(before, d[i].addr, d[i].data) == WriteBytes(View(), a, d[i].data[j..])
        {
          WriteKeeps(View(), a, d[i].data[j]);
          assert d[i].data[j..][1..] == d[i].data[j + 1..];
          WriteByte(a, d[i].data[j]);
          a := a + 1;
          j := j + 1;
        }
        assert d[..i + 1][..i] == d[..i];
        i := i + 1;
      }
      assert d[..i] == d;
    }

    constructor ()
      ensures Sound() && fresh(ptab) && View() == Empty()
    {
      ptab := new int[PTAB_SIZE](_ => NONE);
      ptes, pageCount, misses, accesses := [], 0, 0, 0;
      chains, home := seq(PTAB_SIZE, _ => []), [];
      new;
      assert forall k :: 0 <= k < PTAB_SIZE ==> Table(Store())[k] == Empty().ptab[k];
    }
  }

  lemma ByteAtHead(m: Mem, n: Mem, a: nat)
    requires |m.ptab| == PTAB_SIZE && Inv(m) && n == Page(m, a) && Present(m, a)
    requires Inv(n) && SameBytes(m, n) && Bucket(n, a) != [] && Bucket(n, a)[0].tag == PtabTag(a)
    ensures Offset(a) < |Bucket(n, a)[0].page| && Bucket(n, a)[0].page[Offset(a)] == ByteAt(m, a)
  {
    hide Page;
    HeadWhole(n, a);
    assert Tidy(n.ptab[PtabSet(a)]);
    FoundAt(Bucket(n, a), PtabTag(a), 0);
    assert ByteAt(n, a) == ByteAt(m, a);
  }

  /** The bytes of a range inside a page are those of the page, or zero without one. */
  lemma InOnePage(m: Mem, a: nat, n: nat)
    requires |m.ptab| == PTAB_SIZE && Inv(m) && Offset(a) + n <= PAGE_SIZE
    ensures var b := BytesAt(m, a, n);
      forall i :: 0 <= i < n ==> b[i] == if Present(m, a) then Look(Bucket(m, a), PtabTag(a), Offset(a) + i) else 0
  {
    var b := BytesAt(m, a, n);
    forall i | 0 <= i < n
      ensures b[i] == if Present(m, a) then Look(Bucket(m, a), PtabTag(a), Offset(a) + i) else 0
    {
      SamePageByte(m, a, i);
    }
  }

  lemma SamePageByte(m: Mem, a: nat, i: nat)
    requires |m.ptab| == PTAB_SIZE && Offset(a) + i < PAGE_SIZE
    ensures ByteAt(m, a + i) == if Present(m, a) then Look(Bucket(m, a), PtabTag(a), Offset(a) + i) else 0
  {
    SameParts(a, i);
    hide PtabSet, PtabTag, Offset;
  }

  lemma SameParts(a: nat, i: nat)
    requires Offset(a) + i < PAGE_SIZE
    ensures PtabSet(a + i) == PtabSet(a) && PtabTag(a + i) == PtabTag(a) && Offset(a + i) == Offset(a) + i
  {
    AddressParts(PtabTag(a), PtabSet(a), a);
    AddressParts(PtabTag(a), PtabSet(a), a + i);
  }

  /** What a typed read finds: no page and zeroes, or the bytes in the page at the head. */
  lemma TypedIs(m: Mem, a: nat, n: nat)
    requires |m.ptab| == PTAB_SIZE && Inv(m) && Offset(a) + n <= PAGE_SIZE
    ensures !Present(m, a) ==> Read(m, a).0 == Page(m, a) && BytesAt(m, a, n) == seq(n, _ => 0)
    ensures var k := Page(Page(m, a), a);
      Present(m, a) ==>
        && Read(m, a).0 == k && Bucket(k, a) != [] && |Bucket(k, a)[0].page| == PAGE_SIZE
        && BytesAt(m, a, n) == Bucket(k, a)[0].page[Offset(a)..Offset(a) + n]
  {
    InOnePage(m, a, n);
    if Present(m, a) {
      var k := Page(Page(m, a), a);
      PageKeeps(m, a);
      PageKeeps(Page(m, a), a);
      HeadPage(m, k, a);
    }
    hide Inv, Page, Present, BytesAt, Look, Offset, PtabTag;
  }

  lemma HeadPage(m: Mem, k: Mem, a: nat)
    requires |m.ptab| == PTAB_SIZE && |k.ptab| == PTAB_SIZE && Inv(m) && Inv(k) && Present(m, a) && k == Page(Page(m, a), a)
    ensures Bucket(k, a) != [] && |Bucket(k, a)[0].page| == PAGE_SIZE
    ensures forall o: nat :: o < PAGE_SIZE ==> Bucket(k, a)[0].page[o] == Look(Bucket(m, a), PtabTag(a), o)
  {
    PageKeeps(m, a);
    var j := Page(m, a);
    var b := Bucket(j, a);
    assert b != [] && b[0].tag == PtabTag(a);
    assert k.ptab == j.ptab;
    assert Tidy(m.ptab[PtabSet(a)]) && Tidy(j.ptab[PtabSet(a)]);
    FoundAt(b, PtabTag(a), 0);
    var c := Bucket(m, a);
    var i := FindTag(c, PtabTag(a));
    assert b == c || b == ToFront(c, i);
    if b != c { FrontKeeps(c, i, PtabTag(a)); }
    assert forall o: nat :: Look(b, PtabTag(a), o) == Look(c, PtabTag(a), o);
    assert |b[0].page| == PAGE_SIZE;
  }

  lemma HeadWhole(m: Mem, a: nat)
    requires |m.ptab| == PTAB_SIZE && Inv(m) && Bucket(m, a) != []
    ensures Offset(a) < |Bucket(m, a)[0].page| && PtabSet(a) < PTAB_SIZE
  {
    assert Tidy(m.ptab[PtabSet(a)]);
  }

  lemma TicklePresent(m: Mem, a: nat)
    requires |m.ptab| == PTAB_SIZE && Inv(m)
    ensures Inv(Tickle(m, a)) && Present(Tickle(m, a), a)
  {
    hide Inv, Page, NewPage;
    PageKeeps(m, a);
    if !Present(m, a) { NewPageKeeps(Page(m, a), a); }
  }

  lemma SetInRange(a: nat)
    ensures PtabSet(a) < PTAB_SIZE
  {
  }

  lemma FrontIsSame(b: seq<Pte>, t: seq<seq<Pte>>, k: nat)
    requires b != [] && k < |t| && t[k] == b
    ensures ToFront(b, 0) == b && t[k := ToFront(b, 0)] == t
  {
    assert ToFront(b, 0) == b;
  }
}
