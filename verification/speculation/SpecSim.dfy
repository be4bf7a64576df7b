/** The trace generator on a mispredicted path, changed in place. */
module SpecSim {
  import opened Common
  import opened MemoryModel
  import opened MemorySim
  import Access = MemoryAccess
  import opened SpecModel
  import opened SpecTable
  import Lists = MemoryLists

  class Tracer {
    const memory: Memory
    const store: StoreTable
    const regs: array<int>
    const specRegs: array<int>
    const useSpec: array<bool>
    var specMode: bool

    ghost predicate Apart() {
      && regs != specRegs && regs != store.heads && regs != memory.ptab
      && specRegs != store.heads && specRegs != memory.ptab && store.heads != memory.ptab
    }

    ghost predicate Sound()
      reads this, memory, memory.ptab, store, store.heads
    {
      && Apart() && regs.Length == specRegs.Length == useSpec.Length == NUM_REGS
      && store.Sound() && memory.Sound() && Inv(memory.View())
    }

    ghost function View(): (g: Gen)
      reads this, memory, memory.ptab, store, store.heads, regs, specRegs, useSpec
      requires Sound()
      ensures Shape(g)
    {
      Gen(memory.View(), regs[..], specRegs[..], Used(useSpec[..]), store.View(), store.Pool(), specMode)
    }

    method Gpr(r: nat) returns (v: int)
      requires Sound() && r < NUM_REGS
      ensures v == SpecModel.Gpr(View(), r)
    {
      v := if useSpec[r] then specRegs[r] else regs[r];
    }

    method SetGpr(r: nat, v: int)
      requires Sound() && r < NUM_REGS
      modifies regs, specRegs, useSpec
      ensures Sound() && View() == SpecModel.SetGpr(old(View()), r, v)
    {
      if specMode {
        specRegs[r] := v;
        UsedMore(useSpec[..], r);
        useSpec[r] := true;
      } else {
        regs[r] := v;
      }
      hide Inv;
    }

    /** Non-speculative memory: eight bytes are two words. */
    method BaseLoad(a: nat, n: nat) returns (bytes: seq<Byte>)
      requires Sound() && Supported(n) && a % n == 0
      modifies memory, memory.ptab
      ensures Sound() && View() == old(View()).(mem := BaseRead(old(View()).mem, a, n))
      ensures bytes == BytesAt(old(View()).mem, a, n)
    {
      ghost var m := memory.View();
      WordsFit(a, n);
      ReadKeeps(m, a);
      hide Inv, BytesAt, Read, Offset;
      if n < 8 {
        bytes := memory.ReadTyped(a, n);
      } else {
        bytes := memory.ReadTyped(a, 4);
        ghost var k := memory.View();
        var more := memory.ReadTyped(a + 4, 4);
        TwoWords(m, k, a);
        bytes := bytes + more;
      }
    }

    /** The bytes in the entry at the head of a bucket. */
    method LoadBuffer(a: nat, ent: nat, n: nat) returns (bytes: seq<Byte>)
      requires Sound() && n <= BUFFER_SIZE && |store.chains| == FREE + 1
      requires store.chains[Slot(a)] != [] && store.chains[Slot(a)][0] == ent
      ensures bytes == FrontBytes(View().table[Slot(a)], n)
    {
      SlotInRange(a);
      store.EntryAt(Slot(a), 0);
      bytes := store.ents[ent].page[..n];
    }

    method StoreBuffer(a: nat, ent: nat, data: seq<Byte>)
      requires Sound() && |data| <= BUFFER_SIZE && |store.chains| == FREE + 1
      requires store.chains[Slot(a)] != [] && store.chains[Slot(a)][0] == ent
      modifies store, store.heads
      ensures Sound() && old(View()).table[Slot(a)] != [] && |data| <= |old(View()).table[Slot(a)][0].page|
      ensures View() == HeadFilled(old(View()), a, data)
    {
      var k := Slot(a);
      SlotInRange(a);
      store.EntryAt(k, 0);
      store.FillHead(k, store.ents[ent].tag, Overlay(store.ents[ent].page, data));
      hide Inv, Slot, Overlay;
    }

    /** The entry of an address; a write makes one if there is none. */
    method Fetch(write: bool, a: nat) returns (ent: int)
      requires Sound()
      modifies store, store.heads
      ensures Sound() && View() == if write then WithEntry(old(View()), a) else WithFront(old(View()), a)
      ensures ent == Lists.NONE <==> !write && !Buffered(old(View()), a)
      ensures ent != Lists.NONE ==> ent >= 0 && |store.chains| == FREE + 1 && store.chains[Slot(a)] != [] && store.chains[Slot(a)][0] == ent
    {
      hide Inv, Slot, FindTag, ToFront;
      SlotInRange(a);
      ghost var g := View();
      ent := store.Find(a);
      if ent == Lists.NONE && write {
        FoundNone(g.table[Slot(a)], a);
        ent := store.Allocate(a);
      }
    }

    /** Reads into, or writes from, the caller's buffer; false when the size is not supported. */
    method SpecMemAccess(write: bool, a: nat, p: seq<Byte>, permitted: bool) returns (ok: bool, buffer: seq<Byte>)
      requires Sound()
      modifies memory, memory.ptab, store, store.heads
      ensures Sound()
      ensures var r := if write then SpecStore(old(View()), a, p, permitted) else SpecLoad(old(View()), a, |p|, permitted);
        if ok then r == Done(View(), buffer) else r == BadSize
    {
      hide *;
      var n := |p|;
      ghost var g := View();
      NoAccess(g, a, p, permitted);
      if Refused(a, n, permitted) { return true, Zeros(n); }
      var ent := Fetch(write, a);
      if !Supported(n) { return false, p; }
      SupportedFits(a, n, permitted);
      if write {
        StoreSteps(g, a, p, permitted);
        StoreBuffer(a, ent, p);
        buffer := p;
      } else if ent != Lists.NONE {
        LoadSteps(g, a, n, permitted);
        buffer := LoadBuffer(a, ent, n);
      } else {
        LoadSteps(g, a, n, permitted);
        buffer := BaseLoad(a, n);
      }
      ok := true;
    }

    /** Back to the state before the mispredicted branch; false when there was none. */
    method TracerRecover() returns (ok: bool)
      requires Sound()
      modifies this`specMode, useSpec, store, store.heads
      ensures Sound()
      ensures if ok then Recover(old(View())) == Done(View(), []) else Recover(old(View())) == NotSpeculative
    {
      hide Inv, Entries;
      if !specMode { return false; }
      specMode := false;
      forall r | 0 <= r < NUM_REGS { useSpec[r] := false; }
      assert Used(useSpec[..]) == {};
      store.ReleaseAll();
      ok := true;
    }

    constructor (memory: Memory, regs: array<int>)
      requires memory.Sound() && Inv(memory.View()) && regs.Length == NUM_REGS && regs != memory.ptab
      ensures Sound() && this.memory == memory && this.regs == regs && fresh(store)
      ensures View().mem == memory.View() && View().regs == regs[..] && View().useSpec == {} && !View().specMode
      ensures View().pool == 0 && forall k :: 0 <= k < STORE_HASH_SIZE ==> View().table[k] == []
    {
      this.memory, this.regs, specMode := memory, regs, false;
      store := new StoreTable();
      specRegs := new int[NUM_REGS](_ => 0);
      useSpec := new bool[NUM_REGS](_ => false);
      new;
      hide Inv;
      assert Used(useSpec[..]) == {};
    }
  }

  /** The registers a bit map names. */
  ghost function Used(bits: seq<bool>): set<nat> { set r: nat | r < |bits| && bits[r] }

  lemma UsedMore(bits: seq<bool>, r: nat)
    requires r < |bits|
    ensures Used(bits[r := true]) == Used(bits) + {r}
  {
  }

  /** The generator once bytes are in the entry at the front of a bucket. */
  function HeadFilled(g: Gen, a: nat, data: seq<Byte>): (h: Gen)
    requires Shape(g) && g.table[Slot(a)] != [] && |data| <= |g.table[Slot(a)][0].page|
    ensures Shape(h)
  {
    var b := g.table[Slot(a)];
    g.(table := g.table[Slot(a) := b[0 := b[0].(page := Overlay(b[0].page, data))]])
  }

  /** Accesses that are refused, or of a size that is not supported. */
  lemma NoAccess(g: Gen, a: nat, p: seq<Byte>, permitted: bool)
    requires Shape(g)
    ensures Refused(a, |p|, permitted) ==> SpecLoad(g, a, |p|, permitted) == SpecStore(g, a, p, permitted) == Done(g, Zeros(|p|))
    ensures !Refused(a, |p|, permitted) && !Supported(|p|) ==> SpecLoad(g, a, |p|, permitted) == SpecStore(g, a, p, permitted) == BadSize
  {
    hide Refused, Supported, Buffered, Allocated, WithEntry, WithFront, Fronted, BaseRead, BytesAt, FrontBytes, Overlay, Slot, Zeros;
  }

  /** A store fills the entry at the front once there is one. */
  lemma StoreSteps(g: Gen, a: nat, p: seq<Byte>, permitted: bool)
    requires Shape(g) && !Refused(a, |p|, permitted) && Supported(|p|)
    ensures var h := WithEntry(g, a);
      Shape(h) && h.table[Slot(a)] != [] && (|p| <= |h.table[Slot(a)][0].page| ==> SpecStore(g, a, p, permitted) == Done(HeadFilled(h, a, p), p))
  {
    hide Refused, Supported, Buffered, Allocated, Overlay, Slot;
    var h, k, b := WithEntry(g, a), Slot(a), Allocated(g, a);
    assert h.table[k] == b;
    if |p| <= |b[0].page| {
      var c := b[0 := b[0].(page := Overlay(b[0].page, p))];
      assert h.table[k := c] == g.table[k := c];
    }
  }

  lemma LoadSteps(g: Gen, a: nat, n: nat, permitted: bool)
    requires Shape(g) && !Refused(a, n, permitted) && Supported(n)
    ensures var h := WithFront(g, a);
      && (Buffered(g, a) ==> SpecLoad(g, a, n, permitted) == Done(h, FrontBytes(h.table[Slot(a)], n)))
      && (!Buffered(g, a) ==> SpecLoad(g, a, n, permitted) == Done(h.(mem := BaseRead(h.mem, a, n)), BytesAt(h.mem, a, n)))
  {
    hide Refused, Supported, Buffered, Fronted, BaseRead, BytesAt, FrontBytes, Slot;
    assert WithFront(g, a).table[Slot(a)] == Fronted(g, a);
  }

  lemma SupportedFits(a: nat, n: nat, permitted: bool)
    requires !Refused(a, n, permitted) && Supported(n)
    ensures n <= BUFFER_SIZE && n > 0 && a % n == 0
  {
    hide Access.IsPower;
  }

  lemma FoundNone(b: seq<Pte>, a: nat)
    requires FindTag(b, a) < 0
    ensures Found(b, a) == b
  {
  }

  lemma WordsFit(a: nat, n: nat)
    requires Supported(n) && a % n == 0
    ensures Offset(a) + n <= PAGE_SIZE && (n == 8 ==> Offset(a + 4) + 4 <= PAGE_SIZE && Offset(a) + 4 <= PAGE_SIZE)
  {
  }

  lemma TwoWords(m: Mem, k: Mem, a: nat)
    requires |m.ptab| == PTAB_SIZE && |k.ptab| == PTAB_SIZE && SameBytes(m, k)
    ensures BytesAt(m, a, 4) + BytesAt(k, a + 4, 4) == BytesAt(m, a, 8)
  {
  }
}
