/** The hash table of speculatively written memory and its free list, linked and changed in place. */
module SpecTable {
  import opened Common
  import opened MemoryModel
  import opened MemoryLists
  import opened SpecModel

  /** The number the free list has among the lists of the table. */
  const FREE: nat := STORE_HASH_SIZE

  class StoreTable {
    const heads: array<int>
    var free: int
    var ents: seq<Node>
    ghost var chains: seq<seq<nat>>
    ghost var home: seq<nat>

    ghost function Lists(): Links
      reads this, heads
    {
      Links(heads[..] + [free], ents, chains, home)
    }

    ghost predicate Sound()
      reads this, heads
    {
      && heads.Length == STORE_HASH_SIZE && |chains| == FREE + 1 && Good(Lists())
      && forall w :: 0 <= w < |ents| ==> |ents[w].page| == BUFFER_SIZE
    }

    ghost function View(): (t: seq<seq<Pte>>)
      reads this, heads
      requires Sound()
      ensures |t| == STORE_HASH_SIZE
    {
      Table(Lists())[..FREE]
    }

    ghost function Pool(): nat
      reads this, heads
      requires Sound()
    {
      |chains[FREE]|
    }

    /** Entry `i` of list `k`, and what links to it. */
    lemma EntryAt(k: nat, i: nat)
      requires Sound() && k <= FREE && i < |chains[k]|
      ensures |chains| == FREE + 1 && chains[k][i] < |ents| && |ents[chains[k][i]].page| == BUFFER_SIZE
      ensures k < FREE ==> i < |View()[k]| && View()[k][i] == Value(ents[chains[k][i]])
      ensures ents[chains[k][i]].next == After(chains[k], i)
    {
      assert Spells(Lists().heads[k], ents, chains[k]);
      assert LinkAt(ents, chains[k], i);
    }

    lemma HeadOf(k: nat)
      requires Sound() && k <= FREE
      ensures |chains| == FREE + 1 && heads.Length == FREE && (k < FREE ==> |View()[k]| == |chains[k]|)
      ensures (if k < FREE then heads[k] else free) == if chains[k] == [] then NONE else chains[k][0]
    {
      assert Spells(Lists().heads[k], ents, chains[k]);
    }

    method Relink(k: nat, prev: nat, ent: nat, ghost i: nat)
      requires Sound() && k < FREE && 0 < i < |chains[k]| && chains[k][i] == ent && chains[k][i - 1] == prev
      modifies this`ents, this`chains, heads
      ensures Sound() && Pool() == old(Pool()) && View() == old(View())[k := ToFront(old(View()[k]), i)]
      ensures chains == old(chains)[k := Moved(old(chains)[k], i)]
    {
      RelinkGood(Lists(), k, i);
      ghost var s := Lists();
      ents := ents[prev := ents[prev].(next := ents[ent].next)];
      ents := ents[ent := ents[ent].(next := heads[k])];
      heads[k] := ent;
      chains := chains[k := Moved(chains[k], i)];
      assert heads[..] + [free] == s.heads[k := ent];
      hide Good, Table, ToFront, Moved;
    }

    /** The entry of an address, moved to the head of its bucket; -1 if there is none. */
    method Find(a: nat) returns (ent: int)
      requires Sound()
      modifies this`ents, this`chains, heads
      ensures Sound() && Pool() == old(Pool()) && View() == old(View())[Slot(a) := Found(old(View()[Slot(a)]), a)]
      ensures ent == NONE <==> FindTag(old(View()[Slot(a)]), a) < 0
      ensures ent != NONE ==> |chains| == FREE + 1 && chains[Slot(a)] != [] && chains[Slot(a)][0] == ent
    {
      hide Good, Table, Spells, Owned, LinkAt, Slot, Moved;
      var k := Slot(a);
      HeadOf(k);
      var prev;
      prev, ent := NONE, heads[k];
      ghost var i: nat := 0;
      ghost var v, b := View(), View()[k];
      while ent != NONE
        invariant Sound() && View() == v && Pool() == old(Pool()) && |chains| == FREE + 1
        invariant i <= |b| == |chains[k]| && ent == (if i < |b| then chains[k][i] else NONE)
        invariant prev == if i == 0 then NONE else chains[k][i - 1]
        invariant FindFrom(b, a, i) == FindFrom(b, a, 0)
        decreases |b| - i
      {
        EntryAt(k, i);
        if ents[ent].tag == a {
          if prev != NONE {
            Relink(k, prev, ent, i);
          } else {
            assert ToFront(b, 0) == b;
          }
          return;
        }
        prev, ent := ent, ents[ent].next;
        i := i + 1;
      }
    }

    /** Takes an entry off the free list, or makes one, clears it and puts it at the head of the bucket. */
    method Allocate(a: nat) returns (ent: nat)
      requires Sound()
      modifies this`ents, this`chains, this`home, this`free, heads
      ensures Sound() && Pool() == if old(Pool()) == 0 then 0 else old(Pool()) - 1
      ensures View() == old(View())[Slot(a) := [Pte(a, Zeros(BUFFER_SIZE))] + old(View()[Slot(a)])]
      ensures |chains| == FREE + 1 && chains[Slot(a)] != [] && chains[Slot(a)][0] == ent
    {
      hide Good, Table, Slot;
      HeadOf(FREE);
      ghost var was := View();
      if free == NONE { Calloc(); }
      HeadOf(FREE);
      ent := free;
      var k := Slot(a);
      SlotInRange(a);
      Take(k);
      ghost var e :| View() == was[k := [e] + was[k]];
      FillHead(k, a, Zeros(BUFFER_SIZE));
      assert ([e] + was[k])[0 := Pte(a, Zeros(BUFFER_SIZE))] == [Pte(a, Zeros(BUFFER_SIZE))] + was[k];
    }

    method Calloc()
      requires Sound() && free == NONE
      modifies this`ents, this`chains, this`home, this`free
      ensures Sound() && Pool() == old(Pool()) + 1 && View() == old(View()) && free != NONE
    {
      PushGood(Lists(), FREE, 0, Zeros(BUFFER_SIZE));
      ghost var s := Lists();
      HeadIs(s, FREE);
      ents := ents + [Node(NONE, 0, Zeros(BUFFER_SIZE))];
      free := |ents| - 1;
      chains, home := chains[FREE := [|ents| - 1] + chains[FREE]], home + [FREE];
      assert heads[..] + [free] == s.heads[FREE := |ents| - 1];
      hide Good, Table, Zeros;
    }

    /** The first entry of the free list goes to the head of a bucket. */
    method Take(k: nat)
      requires Sound() && k < FREE && free != NONE
      modifies this`ents, this`chains, this`home, this`free, heads
      ensures Sound() && old(Pool()) > 0 && Pool() == old(Pool()) - 1 && |View()[k]| > 0
      ensures exists e :: View() == old(View())[k := [e] + old(View()[k])]
      ensures old(free) >= 0 && |chains| == FREE + 1 && chains[k] != [] && chains[k][0] == old(free)
    {
      HeadIs(Lists(), FREE);
      PassGood(Lists(), FREE, k);
      ghost var s, t := Lists(), PassedAll(Lists(), FREE, k);
      var ent := free;
      free := ents[ent].next;
      ents := ents[ent := ents[ent].(next := heads[k])];
      heads[k] := ent;
      chains, home := t.chains, t.home;
      assert heads[..] + [free] == s.heads[FREE := s.nodes[ent].next][k := ent];
      hide Good, Table;
      assert View() == old(View())[k := [Table(s)[FREE][0]] + old(View()[k])];
    }

    method FillHead(k: nat, a: nat, data: seq<Byte>)
      requires Sound() && k < FREE && chains[k] != [] && |data| == BUFFER_SIZE
      modifies this`ents
      ensures Sound() && Pool() == old(Pool()) && old(View()[k]) != [] && chains == old(chains)
      ensures View() == old(View())[k := old(View()[k])[0 := Pte(a, data)]]
    {
      EntryAt(k, 0);
      HeadOf(k);
      var w := heads[k];
      FillGood(Lists(), k, a, data);
      ents := ents[w := ents[w].(tag := a, page := data)];
      hide Good, Table;
    }

    /** Puts every entry of a bucket on the free list. */
    method Release(k: nat)
      requires Sound() && k < FREE
      modifies this`ents, this`chains, this`home, this`free, heads
      ensures Sound() && View() == old(View())[k := []] && Pool() == old(Pool()) + |old(View()[k])|
    {
      HeadOf(k);
      var ent := heads[k];
      ghost var s := Lists();
      hide Good, Table, Passed;
      while ent != NONE
        invariant heads.Length == FREE && heads[..] == old(heads[..])
        invariant |s.heads| == |s.chains| == FREE + 1 && Good(s) && s.nodes == ents && s.chains == chains && s.home == home
        invariant s.heads == heads[..][k := ent] + [free]
        invariant forall w :: 0 <= w < |ents| ==> |ents[w].page| == BUFFER_SIZE
        invariant |chains[FREE]| + |chains[k]| == old(Pool()) + |old(View()[k])|
        invariant Table(s)[..FREE] == old(View())[k := Table(s)[k]]
        decreases |chains[k]|
      {
        HeadIs(s, k);
        PassGood(s, k, FREE);
        ghost var t := PassedAll(s, k, FREE);
        var next := ents[ent].next;
        ents := ents[ent := ents[ent].(next := free)];
        free := ent;
        chains, home := t.chains, t.home;
        PassedIs(s, k, FREE);
        s := t;
        ent := next;
      }
      HeadIs(s, k);
      heads[k] := NONE;
      assert Lists() == s;
      assert Table(s)[k] == [];
    }

    method ReleaseAll()
      requires Sound()
      modifies this`ents, this`chains, this`home, this`free, heads
      ensures Sound() && View() == seq(STORE_HASH_SIZE, _ => [])
      ensures Pool() == old(Pool()) + MemoryModel.Entries(old(View()), STORE_HASH_SIZE)
    {
      hide Good, Table;
      ghost var was := View();
      assert Emptied(was, 0) == was;
      var i := 0;
      while i < STORE_HASH_SIZE
        invariant i <= STORE_HASH_SIZE && Sound() && View() == Emptied(was, i)
        invariant Pool() == old(Pool()) + MemoryModel.Entries(was, i)
      {
        Release(i);
        i := i + 1;
        assert Emptied(was, i) == Emptied(was, i - 1)[i - 1 := []];
      }
      assert Emptied(was, i) == seq(STORE_HASH_SIZE, _ => []);
    }

    constructor ()
      ensures Sound() && fresh(heads) && View() == seq(STORE_HASH_SIZE, _ => []) && Pool() == 0
    {
      heads := new int[STORE_HASH_SIZE](_ => NONE);
      free, ents := NONE, [];
      chains, home := seq(FREE + 1, _ => []), [];
      new;
      assert forall k :: 0 <= k < STORE_HASH_SIZE ==> Table(Lists())[k] == [];
    }
  }

  /** The first `i` buckets emptied. */
  function Emptied(table: seq<seq<Pte>>, i: nat): (t: seq<seq<Pte>>)
    ensures |t| == |table|
  {
    seq(|table|, k requires 0 <= k < |table| => if k < i then [] else table[k])
  }

  lemma SlotInRange(a: nat)
    ensures Slot(a) < STORE_HASH_SIZE
  {
  }

  lemma PassedIs(s: Links, k: nat, l: nat)
    requires k < |s.heads| && l < |s.heads| && |s.chains| == |s.heads| && |s.home| == |s.nodes| && k != l
    requires 0 <= s.heads[k] < |s.nodes| && s.chains[k] != []
    ensures var w, t := s.heads[k], PassedAll(s, k, l);
      && t.nodes == s.nodes[w := s.nodes[w].(next := s.heads[l])]
      && t.heads == s.heads[k := s.nodes[w].next][l := w]
  {
  }
}
