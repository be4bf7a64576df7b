/** The simulated memory: a page table of hash buckets that move what they find to the front. */
module MemoryModel {

  const PAGE_SIZE: nat := 4096
  const PTAB_SIZE: nat := 32768

  type Byte = b: int | 0 <= b < 256 witness 0

  /** A page table entry. */
  datatype Pte = Pte(tag: nat, page: seq<Byte>)

  datatype Mem = Mem(ptab: seq<seq<Pte>>, pageCount: nat, misses: nat, accesses: nat)

  // ----- addresses -----

  function PtabSet(a: nat): (k: nat)
    ensures k < PTAB_SIZE
  {
    a / PAGE_SIZE % PTAB_SIZE
  }

  function PtabTag(a: nat): nat { a / PAGE_SIZE / PTAB_SIZE }

  function Offset(a: nat): (o: nat)
    ensures o < PAGE_SIZE
  {
    a % PAGE_SIZE
  }

  /** The address of a page from its entry and the bucket that holds it. */
  function PteAddr(tag: nat, idx: nat): nat { tag * PTAB_SIZE * PAGE_SIZE + idx * PAGE_SIZE }

  /** An address is rebuilt from its bucket, tag and offset, and only from these. */
  lemma AddressParts(tag: nat, idx: nat, a: nat)
    requires idx < PTAB_SIZE
    ensures PteAddr(tag, idx) <= a < PteAddr(tag, idx) + PAGE_SIZE <==> PtabSet(a) == idx && PtabTag(a) == tag
    ensures PtabSet(a) == idx && PtabTag(a) == tag ==> a == PteAddr(tag, idx) + Offset(a)
  {
    var p, o := a / PAGE_SIZE, a % PAGE_SIZE;
    assert a == p * PAGE_SIZE + o;
    assert p == p / PTAB_SIZE * PTAB_SIZE + p % PTAB_SIZE;
    var q := tag * PTAB_SIZE + idx;
    assert PteAddr(tag, idx) == q * PAGE_SIZE;
    assert p == q <==> p / PTAB_SIZE == tag && p % PTAB_SIZE == idx;
  }

  // ----- a bucket -----

  /** The position of the entry with a tag, -1 if there is none. */
  function FindTag(b: seq<Pte>, tag: nat): (i: int)
    ensures i == -1 || (0 <= i < |b| && b[i].tag == tag)
    ensures i == -1 ==> forall j :: 0 <= j < |b| ==> b[j].tag != tag
  {
    FindFrom(b, tag, 0)
  }

  function FindFrom(b: seq<Pte>, tag: nat, k: nat): (i: int)
    requires k <= |b|
    ensures i == -1 || (k <= i < |b| && b[i].tag == tag)
    ensures i == -1 ==> forall j :: k <= j < |b| ==> b[j].tag != tag
    decreases |b| - k
  {
    if k == |b| then -1 else if b[k].tag == tag then k else FindFrom(b, tag, k + 1)
  }

  /** Entry `i` moves to the front. */
  function ToFront(b: seq<Pte>, i: nat): (c: seq<Pte>)
    requires i < |b|
    ensures |c| == |b| && c[0] == b[i]
  {
    [b[i]] + b[..i] + b[i + 1..]
  }

  /** No two entries have the same tag. */
  ghost predicate OneEach(b: seq<Pte>) { forall i, j :: 0 <= i < j < |b| ==> b[i].tag != b[j].tag }

  ghost predicate Tidy(b: seq<Pte>) {
    OneEach(b) && forall i :: 0 <= i < |b| ==> |b[i].page| == PAGE_SIZE
  }

  /** The byte at an offset of the page with a tag; 0 where no page is. */
  function Look(b: seq<Pte>, tag: nat, offset: nat): Byte {
    var i := FindTag(b, tag);
    if i >= 0 && offset < |b[i].page| then b[i].page[offset] else 0
  }

  lemma FoundAt(b: seq<Pte>, tag: nat, i: nat)
    requires OneEach(b) && i < |b| && b[i].tag == tag
    ensures FindTag(b, tag) == i
  {
  }

  lemma FrontKeeps(b: seq<Pte>, i: nat, tag: nat)
    requires OneEach(b) && i < |b|
    ensures OneEach(ToFront(b, i)) && (Tidy(b) ==> Tidy(ToFront(b, i)))
    ensures FindTag(ToFront(b, i), tag) >= 0 <==> FindTag(b, tag) >= 0
    ensures forall o: nat :: Look(ToFront(b, i), tag, o) == Look(b, tag, o)
  {
    var c := ToFront(b, i);
    hide FindTag;
    assert forall j :: 0 <= j < |c| ==> c[j] == b[if j == 0 then i else if j <= i then j - 1 else j];
    var k := FindTag(b, tag);
    if k >= 0 {
      var m := if k == i then 0 else if k < i then k + 1 else k;
      assert c[m] == b[k];
      FoundAt(c, tag, m);
    }
  }

  // ----- the memory -----

  function Bucket(m: Mem, a: nat): seq<Pte>
    requires |m.ptab| == PTAB_SIZE
  {
    m.ptab[PtabSet(a)]
  }

  predicate Present(m: Mem, a: nat)
    requires |m.ptab| == PTAB_SIZE
  {
    FindTag(Bucket(m, a), PtabTag(a)) >= 0
  }

  /** What the memory holds at an address. */
  function ByteAt(m: Mem, a: nat): Byte
    requires |m.ptab| == PTAB_SIZE
  {
    Look(Bucket(m, a), PtabTag(a), Offset(a))
  }

  function BytesAt(m: Mem, a: nat, n: nat): (b: seq<Byte>)
    requires |m.ptab| == PTAB_SIZE
    ensures |b| == n
  {
    seq<Byte>(n, i requires 0 <= i < n => ByteAt(m, a + i))
  }

  function Entries(ptab: seq<seq<Pte>>, n: nat): nat
    requires n <= |ptab|
  {
    if n == 0 then 0 else Entries(ptab, n - 1) + |ptab[n - 1]|
  }

  ghost predicate Inv(m: Mem) {
    && |m.ptab| == PTAB_SIZE && (forall k :: 0 <= k < PTAB_SIZE ==> Tidy(m.ptab[k]))
    && m.pageCount == Entries(m.ptab, PTAB_SIZE)
  }

  function Empty(): Mem { Mem(seq(PTAB_SIZE, _ => []), 0, 0, 0) }

  function Translate(m: Mem, a: nat): (n: Mem)
    requires |m.ptab| == PTAB_SIZE
    ensures |n.ptab| == PTAB_SIZE
  {
    var b, k := Bucket(m, a), PtabSet(a);
    var i := FindTag(b, PtabTag(a));
    m.(misses := m.misses + 1, accesses := m.accesses + 1, ptab := if i >= 0 then m.ptab[k := ToFront(b, i)] else m.ptab)
  }

  /** Looks for the page of an address: if it is there, its entry is then the first one. */
  function Page(m: Mem, a: nat): (n: Mem)
    requires |m.ptab| == PTAB_SIZE
    ensures |n.ptab| == PTAB_SIZE
  {
    var b := Bucket(m, a);
    if b != [] && b[0].tag == PtabTag(a) then m.(accesses := m.accesses + 1) else Translate(m, a)
  }

  function BlankPage(): (p: seq<Byte>)
    ensures |p| == PAGE_SIZE
  {
    seq(PAGE_SIZE, _ => 0)
  }

  function NewPage(m: Mem, a: nat): (n: Mem)
    requires |m.ptab| == PTAB_SIZE
    ensures |n.ptab| == PTAB_SIZE
  {
    m.(ptab := m.ptab[PtabSet(a) := [Pte(PtabTag(a), BlankPage())] + Bucket(m, a)], pageCount := m.pageCount + 1)
  }

  /** The macro looks the page up twice if it is there. */
  function Read(m: Mem, a: nat): (Mem, Byte)
    requires |m.ptab| == PTAB_SIZE
  {
    var n := Page(m, a);
    if Present(m, a) then (Page(n, a), ByteAt(n, a)) else (n, 0)
  }

  function Tickle(m: Mem, a: nat): (n: Mem)
    requires |m.ptab| == PTAB_SIZE
    ensures |n.ptab| == PTAB_SIZE
  {
    var n := Page(m, a);
    if Present(m, a) then n else NewPage(n, a)
  }

  function Poke(m: Mem, a: nat, v: Byte): (n: Mem)
    requires |m.ptab| == PTAB_SIZE
    ensures |n.ptab| == PTAB_SIZE
  {
    var b, k, o := Bucket(m, a), PtabSet(a), Offset(a);
    if b == [] || o >= |b[0].page| then m
    else m.(ptab := m.ptab[k := b[0 := b[0].(page := b[0].page[o := v])]])
  }

  function Write(m: Mem, a: nat, v: Byte): (n: Mem)
    requires |m.ptab| == PTAB_SIZE
    ensures |n.ptab| == PTAB_SIZE
  {
    Poke(Page(Tickle(m, a), a), a, v)
  }

  // ----- every access keeps the memory a byte map -----

  lemma {:induction false} EntriesUpdate(ptab: seq<seq<Pte>>, k: nat, b: seq<Pte>, n: nat)
    requires k < |ptab| && n <= |ptab|
    ensures Entries(ptab[k := b], n) == Entries(ptab, n) + if k < n then |b| - |ptab[k]| else 0
  {
    if n > 0 { EntriesUpdate(ptab, k, b, n - 1); }
  }

  /** Same bytes and same pages everywhere. */
  ghost predicate SameBytes(m: Mem, n: Mem)
    requires |m.ptab| == |n.ptab| == PTAB_SIZE
  {
    && (forall a: nat :: ByteAt(n, a) == ByteAt(m, a))
    && (forall a: nat :: Present(n, a) <==> Present(m, a))
  }

  lemma PageKeeps(m: Mem, a: nat)
    requires Inv(m)
    ensures Inv(Page(m, a)) && SameBytes(m, Page(m, a)) && Page(m, a).pageCount == m.pageCount
    ensures Present(m, a) ==> var b := Bucket(Page(m, a), a); b != [] && b[0].tag == PtabTag(a)
  {
    var n, b, k := Page(m, a), Bucket(m, a), PtabSet(a);
    assert Tidy(m.ptab[k]);
    var i := FindTag(b, PtabTag(a));
    if b != [] && b[0].tag == PtabTag(a) {
      assert Tidy(b);
      FoundAt(b, PtabTag(a), 0);
    } else if i >= 0 {
      EntriesUpdate(m.ptab, k, ToFront(b, i), PTAB_SIZE);
      FrontKeeps(b, i, 0);
      hide FindTag, Look, PtabTag, PtabSet, ToFront;
      forall x: nat ensures ByteAt(n, x) == ByteAt(m, x) && (Present(n, x) <==> Present(m, x)) {
        FrontKeeps(b, i, PtabTag(x));
      }
    }
  }

  lemma NewPageKeeps(m: Mem, a: nat)
    requires Inv(m) && !Present(m, a)
    ensures var n := NewPage(m, a);
      && Inv(n) && Present(n, a) && n.pageCount == m.pageCount + 1
      && (forall x: nat :: ByteAt(n, x) == ByteAt(m, x))
      && (forall x: nat :: Present(n, x) <==> Present(m, x) || SamePage(a, x))
  {
    var n, b, k := NewPage(m, a), Bucket(m, a), PtabSet(a);
    var c := [Pte(PtabTag(a), BlankPage())] + b;
    assert forall j :: 0 <= j < |c| ==> c[j] == if j == 0 then Pte(PtabTag(a), BlankPage()) else b[j - 1];
    EntriesUpdate(m.ptab, k, c, PTAB_SIZE);
    assert Tidy(m.ptab[k]);
    assert Tidy(c);
    forall x: nat ensures ByteAt(n, x) == ByteAt(m, x) && (Present(n, x) <==> Present(m, x) || SamePage(a, x)) {
      PushFinds(b, Pte(PtabTag(a), BlankPage()), PtabTag(x));
    }
  }

  /** Two addresses lie in the same page. */
  predicate SamePage(a: nat, x: nat) { PtabSet(a) == PtabSet(x) && PtabTag(a) == PtabTag(x) }

  lemma PushFinds(b: seq<Pte>, e: Pte, tag: nat)
    requires OneEach([e] + b)
    ensures FindTag([e] + b, tag) == if e.tag == tag then 0 else if FindTag(b, tag) >= 0 then FindTag(b, tag) + 1 else -1
  {
    var c := [e] + b;
    var i := FindTag(b, tag);
    if e.tag == tag {
      FoundAt(c, tag, 0);
    } else if i >= 0 {
      assert c[i + 1] == b[i];
      FoundAt(c, tag, i + 1);
    } else {
      assert forall j :: 0 <= j < |c| ==> c[j] == if j == 0 then e else b[j - 1];
    }
  }

  lemma PokeKeeps(m: Mem, a: nat, v: Byte)
    requires Inv(m) && Bucket(m, a) != [] && Bucket(m, a)[0].tag == PtabTag(a)
    ensures var n := Poke(m, a, v);
      && Inv(n) && n.pageCount == m.pageCount
      && (forall x: nat :: ByteAt(n, x) == if x == a then v else ByteAt(m, x))
      && (forall x: nat :: Present(n, x) <==> Present(m, x))
  {
    var n, b, k, o := Poke(m, a, v), Bucket(m, a), PtabSet(a), Offset(a);
    assert Tidy(m.ptab[k]);
    var c := b[0 := b[0].(page := b[0].page[o := v])];
    EntriesUpdate(m.ptab, k, c, PTAB_SIZE);
    assert forall j :: 0 <= j < |c| ==> c[j].tag == b[j].tag;
    assert Tidy(c);
    forall x: nat
      ensures ByteAt(n, x) == if x == a then v else ByteAt(m, x)
      ensures Present(n, x) <==> Present(m, x)
    {
      AddressParts(PtabTag(a), k, a);
      AddressParts(PtabTag(a), k, x);
      var i := FindTag(b, PtabTag(x));
      if i >= 0 { FoundAt(c, PtabTag(x), i); }
    }
  }

  /** A read gives the byte last written, or 0, and changes no byte. */
  lemma ReadKeeps(m: Mem, a: nat)
    requires |m.ptab| == PTAB_SIZE && Inv(m)
    ensures var (n, v) := Read(m, a);
      Inv(n) && v == ByteAt(m, a) && SameBytes(m, n) && n.pageCount == m.pageCount
  {
    PageKeeps(m, a);
    PageKeeps(Page(m, a), a);
    hide Inv, Page, Bucket, FindTag;
  }

  /** A write changes the byte at its address and no other, and allocates at most its own page. */
  lemma WriteKeeps(m: Mem, a: nat, v: Byte)
    requires |m.ptab| == PTAB_SIZE && Inv(m)
    ensures var n := Write(m, a, v);
      && Inv(n) && n.pageCount == m.pageCount + (if Present(m, a) then 0 else 1)
      && (forall x: nat :: ByteAt(n, x) == if x == a then v else ByteAt(m, x))
      && (forall x: nat :: Present(n, x) <==> Present(m, x) || SamePage(a, x))
  {
    hide Inv, Page, Bucket, FindTag, NewPage, Poke, ByteAt, Present, SamePage;
    var n := Page(m, a);
    PageKeeps(m, a);
    if !Present(m, a) { NewPageKeeps(n, a); }
    var t := Tickle(m, a);
    PageKeeps(t, a);
    PokeKeeps(Page(t, a), a, v);
    SamePresent(m, a);
  }

  lemma SamePresent(m: Mem, a: nat)
    requires |m.ptab| == PTAB_SIZE
    ensures forall x: nat :: SamePage(a, x) && Present(m, a) ==> Present(m, x)
  {
  }

  lemma EmptyIs()
    ensures Inv(Empty()) && forall x: nat :: ByteAt(Empty(), x) == 0 && !Present(Empty(), x)
  {
    NoEntries(PTAB_SIZE);
  }

  lemma {:induction false} NoEntries(n: nat)
    requires n <= PTAB_SIZE
    ensures Entries(Empty().ptab, n) == 0
  {
    if n > 0 { NoEntries(n - 1); }
  }
}
