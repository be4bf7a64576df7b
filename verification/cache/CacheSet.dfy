/** One set of the cache, in place: its blocks, the links of its way list and its buckets. */
module CacheSets {
  import opened Common
  import opened LinkedOrders
  import opened Orders
  import opened CacheModel
  import opened CacheStore
  import opened CacheLists
  import opened CacheCreate
  import Duel = CacheDuel

  /** A block record: the block and its links. */
  datatype Node = Node(blk: Block, wayNext: int, wayPrev: int, hashNext: int)

  class CacheSet {
    const ways: nat
    const hsize: nat
    const kind: SetKind
    const nodes: array<Node>
    const hash: array<int>
    var wayHead: int
    var wayTail: int
    ghost var order: seq<nat>
    ghost var chains: seq<seq<nat>>

    ghost function Repr(): set<object> { {this, nodes, hash} }

    ghost predicate Sized() {
      ways > 0 && nodes.Length == ways && hash.Length == hsize
    }

    ghost function Blks(): (r: seq<Block>)
      reads nodes
      ensures |r| == nodes.Length && forall w :: 0 <= w < nodes.Length ==> r[w] == nodes[w].blk
    {
      seq(nodes.Length, w requires 0 <= w < nodes.Length reads nodes => nodes[w].blk)
    }

    ghost function Nexts(): (r: seq<int>)
      reads nodes
      ensures |r| == nodes.Length && forall w :: 0 <= w < nodes.Length ==> r[w] == nodes[w].wayNext
    {
      seq(nodes.Length, w requires 0 <= w < nodes.Length reads nodes => nodes[w].wayNext)
    }

    ghost function Prevs(): (r: seq<int>)
      reads nodes
      ensures |r| == nodes.Length && forall w :: 0 <= w < nodes.Length ==> r[w] == nodes[w].wayPrev
    {
      seq(nodes.Length, w requires 0 <= w < nodes.Length reads nodes => nodes[w].wayPrev)
    }

    ghost function HashNexts(): (r: seq<int>)
      reads nodes
      ensures |r| == nodes.Length && forall w :: 0 <= w < nodes.Length ==> r[w] == nodes[w].hashNext
    {
      seq(nodes.Length, w requires 0 <= w < nodes.Length reads nodes => nodes[w].hashNext)
    }

    ghost function LinksView(): Links
      reads this, nodes
    {
      Links(wayHead, wayTail, Nexts(), Prevs())
    }

    /** A new set: every way linked in at the head of the way list and of the bucket of tag 0. */
    constructor (cfg: Config, kind: SetKind)
      requires GoodConfig(cfg)
      ensures Valid() && ways == cfg.assoc && hsize == cfg.HSize() && View() == EmptySet(cfg, kind)
      ensures fresh(nodes) && fresh(hash)
    {
      this.ways, this.hsize, this.kind := cfg.assoc, cfg.HSize(), kind;
      nodes := new Node[cfg.assoc](w => Node(Block(0, false, false, 0, true, RRPV_MAX - 1, Zeros(cfg.bsize)), w - 1,
                                             if w + 1 < cfg.assoc then w + 1 else NONE, w - 1));
      hash := new int[cfg.HSize()](h => if cfg.HSize() > 0 && h == Hash(0, cfg.HSize()) then cfg.assoc - 1 else NONE);
      wayHead, wayTail := cfg.assoc - 1, 0;
      order := Descending(cfg.assoc);
      chains := EmptySet(cfg, kind).chains;
      new;
      DescendingOrder(cfg.assoc);
      assert Blks() == EmptySet(cfg, kind).blks;
      hide Hash;
      forall i | 0 <= i < ways ensures LinkAt(LinksView(), order, i) && NextAt(HashNexts(), order, i) {
      }
    }

    ghost predicate OrderOk()
      reads this, nodes
    {
      IsOrder(order, ways) && Spells(LinksView(), order, ways)
    }

    ghost predicate ChainsOk()
      reads this, hash, nodes
    {
      && |chains| == hsize == hash.Length
      && forall h :: 0 <= h < hsize ==> Chain(hash[h], HashNexts(), chains[h])
    }

    ghost predicate Valid()
      reads this, nodes, hash
    {
      Sized() && OrderOk() && ChainsOk()
    }

    ghost function View(): CSet
      reads this, nodes
    {
      CSet(Blks(), order, chains, kind)
    }

    // ----- one field of one block record -----

    method PutBlk(w: nat, b: Block)
      requires w < nodes.Length
      modifies nodes
      ensures Blks() == old(Blks())[w := b] && Nexts() == old(Nexts()) && Prevs() == old(Prevs()) && HashNexts() == old(HashNexts())
    {
      nodes[w] := nodes[w].(blk := b);
    }

    method PutNext(w: nat, v: int)
      requires w < nodes.Length
      modifies nodes
      ensures Nexts() == old(Nexts())[w := v] && Blks() == old(Blks()) && Prevs() == old(Prevs()) && HashNexts() == old(HashNexts())
    {
      nodes[w] := nodes[w].(wayNext := v);
    }

    method PutPrev(w: nat, v: int)
      requires w < nodes.Length
      modifies nodes
      ensures Prevs() == old(Prevs())[w := v] && Blks() == old(Blks()) && Nexts() == old(Nexts()) && HashNexts() == old(HashNexts())
    {
      nodes[w] := nodes[w].(wayPrev := v);
    }

    method PutHashNext(w: nat, v: int)
      requires w < nodes.Length
      modifies nodes
      ensures HashNexts() == old(HashNexts())[w := v] && Blks() == old(Blks()) && Nexts() == old(Nexts()) && Prevs() == old(Prevs())
    {
      nodes[w] := nodes[w].(hashNext := v);
    }

    // ----- way list -----

    /** Takes the way out of the list and links it in at one end, unless it is there already. */
    method UpdateWayList(w: nat, toHead: bool)
      requires Valid() && w < ways
      modifies this`wayHead, this`wayTail, this`order, nodes
      ensures Valid()
      ensures order == (if toHead then MoveToHead(old(order), w) else MoveToTail(old(order), w)) && Blks() == old(Blks())
    {
      hide Spells, MoveLinks, Chain, InLinks, IsOrder, MoveToHead, MoveToTail;
      ghost var l := LinksView();
      MoveSpells(l, order, ways, w, toHead);
      LinkBounds(l, order, ways, w);
      MoveFacts(order, ways, w);
      Relink(w, toHead);
      order := if toHead then MoveToHead(order, w) else MoveToTail(order, w);
    }

    method Relink(w: nat, toHead: bool)
      requires Sized() && w < ways && InLinks(LinksView(), ways, w)
      modifies this`wayHead, this`wayTail, nodes
      ensures LinksView() == MoveLinks(old(LinksView()), w, toHead) && Blks() == old(Blks()) && HashNexts() == old(HashNexts())
    {
      ghost var l := LinksView();
      if nodes[w].wayPrev == NONE && nodes[w].wayNext == NONE {
        return;
      } else if nodes[w].wayPrev == NONE {
        if toHead {
          return;
        }
        wayHead := nodes[w].wayNext;
        PutPrev(nodes[w].wayNext, NONE);
      } else if nodes[w].wayNext == NONE {
        if !toHead {
          return;
        }
        wayTail := nodes[w].wayPrev;
        PutNext(nodes[w].wayPrev, NONE);
      } else {
        PutNext(nodes[w].wayPrev, nodes[w].wayNext);
        PutPrev(nodes[w].wayNext, nodes[w].wayPrev);
      }
      assert LinksView() == Bypass(l, w);
      LinkWay(w, toHead);
    }

    method LinkWay(w: nat, toHead: bool)
      requires Sized() && w < ways && 0 <= wayHead < ways && 0 <= wayTail < ways
      modifies this`wayHead, this`wayTail, nodes
      ensures LinksView() == LinkIn(old(LinksView()), w, toHead) && Blks() == old(Blks()) && HashNexts() == old(HashNexts())
    {
      if toHead {
        PutNext(w, wayHead);
        PutPrev(w, NONE);
        PutPrev(wayHead, w);
        wayHead := w;
      } else {
        PutPrev(w, wayTail);
        PutNext(w, NONE);
        PutNext(wayTail, w);
        wayTail := w;
      }
    }

    // ----- hash buckets -----

    /** Links a way in at the head of a bucket. */
    method LinkHtab(h: nat, w: nat)
      requires Valid() && h < hsize && w < ways && forall g :: 0 <= g < hsize ==> w !in chains[g]
      modifies this`chains, hash, nodes
      ensures Valid() && chains == old(chains)[h := [w] + old(chains[h])] && Blks() == old(Blks())
    {
      ghost var next := HashNexts();
      forall g | 0 <= g < hsize ensures Chain(if g == h then w else hash[g], next[w := hash[h]], if g == h then [w] + chains[g] else chains[g]) {
        if g == h {
          PushChain(hash[h], next, chains[h], w);
        } else {
          OtherChain(hash[g], next, chains[g], w, hash[h]);
        }
      }
      PutHashNext(w, hash[h]);
      hash[h] := w;
      chains := chains[h := [w] + chains[h]];
      assert HashNexts() == next[w := old(hash[h])];
    }

    /** Walks the bucket for a way and unlinks it. */
    method UnlinkHtab(h: nat, w: nat)
      requires Valid() && h < hsize && w < ways && (forall g :: 0 <= g < hsize ==> Distinct(chains[g]))
      requires w in chains[h] && forall g, v :: 0 <= g < hsize && g != h && v in chains[g] ==> v !in chains[h]
      modifies this`chains, hash, nodes
      ensures Valid() && chains == old(chains)[h := Without(old(chains[h]), w)] && Blks() == old(Blks())
    {
      hide Spells, Without, IsOrder;
      ghost var q := chains[h];
      var prev, ent, i := FindEntry(h, w);
      ghost var next := HashNexts();
      CutChain(hash[h], next, q, i);
      WithoutAt(q, i);
      assert q[..0] + q[1..] == q[1..];
      if prev == NONE {
        hash[h] := nodes[ent].hashNext;
      } else {
        PutHashNext(prev, nodes[ent].hashNext);
      }
      PutHashNext(ent, NONE);
      chains := chains[h := Without(q, w)];
      hide Chain;
      assert HashNexts() == if i == 0 then next[w := NONE] else next[q[i - 1] := next[w]][w := NONE];
      forall g | 0 <= g < hsize && g != h ensures Chain(hash[g], HashNexts(), chains[g]) {
        assert i > 0 ==> q[i - 1] in q;
        OthersKeep(old(hash[g]), next, chains[g], q, i, w);
      }
    }

    /** The entry of a bucket for way `w`, the one before it and its position. */
    method FindEntry(h: nat, w: nat) returns (prev: int, ent: nat, ghost i: nat)
      requires Valid() && h < hsize && w < ways && w in chains[h]
      ensures |chains| == hsize && i < |chains[h]| && chains[h][i] == w == ent && prev == Before(chains[h], i)
      ensures i > 0 ==> 0 <= prev < ways
    {
      ghost var q := chains[h];
      var node;
      i, prev, node := 0, NONE, hash[h];
      while node != NONE && node != w
        invariant 0 <= i <= |q| && node == (if i < |q| then q[i] else NONE) && prev == Before(q, i)
        invariant w !in q[..i]
        decreases |q| - i
      {
        assert NextAt(HashNexts(), q, i);
        assert q[..i + 1] == q[..i] + [q[i]];
        prev, node := node, nodes[node].hashNext;
        i := i + 1;
      }
      assert q == q[..i] + q[i..];
      ent := w;
    }

    // ----- lookup -----

    /** Scans the way list for a valid block with the tag. */
    method ScanWays(tag: nat) returns (r: Option<nat>)
      requires Valid()
      ensures InWays(order, |Blks()|) && r == FindIn(order, Blks(), tag)
    {
      ghost var i := 0;
      var w := wayHead;
      assert order[0..] == order;
      while w != NONE
        invariant 0 <= i <= |order| && w == (if i < |order| then order[i] else NONE)
        invariant FindIn(order, Blks(), tag) == FindIn(order[i..], Blks(), tag)
        decreases |order| - i
      {
        assert LinkAt(LinksView(), order, i);
        if nodes[w].blk.tag == tag && nodes[w].blk.valid {
          return Some(w);
        }
        assert order[i..][1..] == order[i + 1..];
        w := nodes[w].wayNext;
        i := i + 1;
      }
      r := None;
    }

    /** Walks a bucket for a valid block with the tag. */
    method ScanBucket(h: nat, tag: nat) returns (r: Option<nat>)
      requires Valid() && h < hsize
      ensures h < |chains| && InWays(chains[h], |Blks()|) && r == FindIn(chains[h], Blks(), tag)
    {
      ghost var i, q := 0, chains[h];
      var w := hash[h];
      assert q[0..] == q;
      while w != NONE
        invariant 0 <= i <= |q| && w == (if i < |q| then q[i] else NONE)
        invariant FindIn(q, Blks(), tag) == FindIn(q[i..], Blks(), tag)
        decreases |q| - i
      {
        assert NextAt(HashNexts(), q, i);
        if nodes[w].blk.tag == tag && nodes[w].blk.valid {
          return Some(w);
        }
        assert q[i..][1..] == q[i + 1..];
        w := nodes[w].hashNext;
        i := i + 1;
      }
      r := None;
    }

    // ----- victims -----

    /** The NRU scan.  A scan that finds no bit set sets them all and goes on behind the head. */
    method NruVictim() returns (r: Option<nat>)
      requires Valid()
      modifies nodes
      ensures LinksView() == old(LinksView()) && HashNexts() == old(HashNexts())
      ensures old(InWays(order, |Blks()|)) && r.Some? == ChooseNru(old(View())).Some?
      ensures r.Some? ==> r.value < ways && (r.value, Blks()) == ChooseNru(old(View())).value
    {
      ghost var b, i, first := Blks(), 0, true;
      var w := wayHead;
      LinkBoundsAll(LinksView(), order, ways);
      assert order[0..] == order;
      while w != NONE && !nodes[w].blk.nru
        invariant 0 <= i <= ways && w == (if i < ways then order[i] else NONE)
        invariant LinksView() == old(LinksView()) && HashNexts() == old(HashNexts())
        invariant first ==> Blks() == b && i < ways && FirstNru(order, b) == FirstNru(order[i..], b)
        invariant !first ==> i == 1 && FirstNru(order, b) == None && Blks() == AllNru(b)
        decreases if first then 1 else 0, ways - i
      {
        assert LinkAt(LinksView(), order, i);
        if nodes[w].wayNext == NONE {
          assert i == ways - 1;
          FirstNruLast(order, b, i);
          MarkAll();
          w := wayHead;
          i, first := 0, false;
          assert LinkAt(LinksView(), order, 0);
        } else {
          assert order[i..][1..] == order[i + 1..];
        }
        w := nodes[w].wayNext;
        i := i + 1;
      }
      if w == NONE {
        return None;
      }
      FirstNruHere(order, b, i);
      PutBlk(w, nodes[w].blk.(nru := false));
      assert Blks() == (if first then b else AllNru(b))[w := (if first then b else AllNru(b))[w].(nru := false)];
      r := Some(w);
    }

    method MarkAll()
      requires Valid()
      modifies nodes
      ensures Blks() == AllNru(old(Blks()))
      ensures LinksView() == old(LinksView()) && HashNexts() == old(HashNexts())
    {
      ghost var b := Blks();
      for v := 0 to ways
        invariant forall u :: 0 <= u < ways ==> nodes[u].blk == if u < v then b[u].(nru := true) else b[u]
        invariant LinksView() == old(LinksView()) && HashNexts() == old(HashNexts())
      {
        PutBlk(v, nodes[v].blk.(nru := true));
      }
    }

    /** Scans the way list for a block of maximal rank, from the head or from behind it. */
    method ScanRanks(fromHead: bool) returns (w: int, ghost i: nat)
      requires Valid() && InWays(order, |Blks()|)
      ensures var start := if fromHead then 0 else 1;
              var f := FirstRank(Ranks(View()), start, RRPV_MAX);
              start <= |Ranks(View())| && if f.Some? then i == f.value < ways && w == order[i] else w == NONE
    {
      ghost var q, start := Ranks(View()), if fromHead then 0 else 1;
      LinkBoundsAll(LinksView(), order, ways);
      assert LinkAt(LinksView(), order, 0);
      w := if fromHead then wayHead else nodes[wayHead].wayNext;
      i := start;
      while w != NONE && nodes[w].blk.rrpv != RRPV_MAX
        invariant start <= i <= ways && w == (if i < ways then order[i] else NONE)
        invariant FirstRank(q, start, RRPV_MAX) == FirstRank(q, i, RRPV_MAX)
        decreases ways - i
      {
        assert LinkAt(LinksView(), order, i) && q[i] == Blks()[order[i]].rrpv;
        w := nodes[w].wayNext;
        i := i + 1;
      }
    }

    /** The DRRIP search.  A scan without a block of maximal rank ages all and goes on behind the head. */
    method RankVictim() returns (r: Option<nat>)
      requires Valid() && InWays(order, |Blks()|) && (SearchRank(Ranks(View())).Some? || ways == 1)
      modifies nodes
      ensures LinksView() == old(LinksView()) && HashNexts() == old(HashNexts())
      ensures r.Some? == SearchRank(Ranks(old(View()))).Some?
      ensures r.Some? ==> var p := SearchRank(Ranks(old(View()))).value;
                p.0 < ways && r.value == old(order[p.0]) && Blks() == Aged(old(Blks()), p.1)
    {
      hide Chain, SearchRank, FirstRank, BestRank, Scanning, Spells, Ranks, Aged;
      ghost var cs, k := View(), 0;
      ghost var q := Ranks(cs);
      ghost var bound: int := if SearchRank(q).Some? then SearchRank(q).value.1 + 1 else 1;
      AgedNone(cs.blks);
      StartScan(q);
      var w, i := ScanRanks(true);
      ScannedTo(q, k, i, w == NONE);
      while w == NONE && nodes.Length > 1
        invariant 0 <= k && Valid() && LinksView() == old(LinksView()) && HashNexts() == old(HashNexts())
        invariant Blks() == Aged(cs.blks, k) && order == cs.order
        invariant if w == NONE then Scanning(q, k, |q|) else 0 <= i < |q| && w == order[i] && Scanning(q, k, i) && q[i] + k == RRPV_MAX
        decreases bound - k
      {
        PassOver(q, k);
        AgeAll();
        AgedMore(cs.blks, k);
        k := k + 1;
        w, i := ScanRanks(false);
        AgedRanks(cs, View(), k);
        ScannedAged(q, Ranks(View()), k, i, w == NONE);
      }
      if w == NONE {
        OneWayNone(q, k);
        return None;
      }
      FoundHere(q, k, i);
      r := Some(w);
    }

    method AgeAll()
      requires Valid()
      modifies nodes
      ensures Blks() == Aged(old(Blks()), 1)
      ensures LinksView() == old(LinksView()) && HashNexts() == old(HashNexts())
    {
      ghost var b := Blks();
      for v := 0 to ways
        invariant forall u :: 0 <= u < ways ==> nodes[u].blk == if u < v then b[u].(rrpv := b[u].rrpv + 1) else b[u]
        invariant LinksView() == old(LinksView()) && HashNexts() == old(HashNexts())
      {
        PutBlk(v, nodes[v].blk.(rrpv := nodes[v].blk.rrpv + 1));
      }
    }

    // ----- what an access does to its set -----

    /** Data and status of a hit block, and on the slow path its replacement state. */
    method HitWay(policy: Policy, w: nat, cmd: Cmd, ofs: nat, fast: bool)
      requires Valid() && w < ways && ofs + cmd.Size() <= |nodes[w].blk.data|
      modifies this`wayHead, this`wayTail, this`order, nodes
      ensures Valid()
      ensures var cs := old(View());
              var hit := cs.(blks := cs.blks[w := Touched(cs.blks[w], cmd, ofs)]);
              View() == if fast then hit else Promote(policy, hit, w)
    {
      hide Spells, Chain, IsOrder, MoveToHead, MoveToTail;
      ghost var cs := View();
      if cmd.Write? {
        PutBlk(w, nodes[w].blk.(data := Splice(nodes[w].blk.data, ofs, cmd.bytes), dirty := true));
      }
      assert Blks() == cs.blks[w := Touched(cs.blks[w], cmd, ofs)];
      if !fast {
        FirstOfOrder(LinksView(), order, ways, w);
        if nodes[w].wayPrev != NONE && policy == LRU {
          UpdateWayList(w, true);
        }
        if policy == NRU {
          PutBlk(w, nodes[w].blk.(nru := false));
        }
        if policy == DRRIP {
          PutBlk(w, nodes[w].blk.(rrpv := 0));
        }
      }
    }

    method SetBlock(w: nat, b: Block)
      requires Valid() && w < ways
      modifies nodes
      ensures Valid() && View() == old(View()).(blks := old(View()).blks[w := b])
    {
      hide Spells, Chain, IsOrder;
      PutBlk(w, b);
    }

    method ToTail(w: nat)
      requires Valid() && w < ways
      modifies this`wayHead, this`wayTail, this`order, nodes
      ensures Valid() && View() == old(View()).(order := MoveToTail(old(View()).order, w))
    {
      hide Spells, Chain, IsOrder, MoveToTail;
      UpdateWayList(w, false);
    }

    /** Selects the block to replace and updates the replacement state. */
    method Choose(cfg: Config, psel: nat, bipctr: nat, rnd: nat) returns (r: Option<nat>, psel1: nat, bipctr1: nat)
      requires Valid() && GoodConfig(cfg) && SetShape(cfg, View()) && ways == cfg.assoc
      requires CacheModel.Choose(cfg, View(), psel, bipctr, rnd) != Forever
      modifies this`wayHead, this`wayTail, this`order, nodes
      ensures Valid()
      ensures var ch := CacheModel.Choose(cfg, old(View()), psel, bipctr, rnd);
              if r.Some? then ch == Chosen(r.value, View(), psel1, bipctr1) else ch == NoneLeft
    {
      hide Spells, Chain, SearchRank, FirstNru, MoveToHead, MoveToTail;
      ghost var cs := View();
      psel1, bipctr1 := psel, bipctr;
      match cfg.policy {
        case LRU | FIFO =>
          TailIsLast(LinksView(), order, ways);
          r := Some(wayTail);
          UpdateWayList(wayTail, true);
        case Random =>
          r := Some(rnd % cfg.assoc);
        case NRU =>
          r := NruVictim();
        case DRRIP =>
          r := RankVictim();
          if r.Some? {
            psel1, bipctr1 := InsertRrip(r.value, psel, bipctr);
          }
      }
    }

    /** Rank of the block coming in, vote of a leader set, step of the insertion counter. */
    method InsertRrip(w: nat, psel: nat, bipctr: nat) returns (psel1: nat, bipctr1: nat)
      requires w < ways == nodes.Length
      modifies nodes
      ensures Blks() == old(Blks())[w := old(nodes[w].blk).(rrpv := InsertRank(kind, psel, bipctr))]
      ensures LinksView() == old(LinksView()) && HashNexts() == old(HashNexts())
      ensures psel1 == Vote(kind, psel) && bipctr1 == if Bimodal(kind, psel) then StepBip(bipctr) else bipctr
    {
      psel1, bipctr1 := psel, bipctr;
      if kind == SRRIP {
        PutBlk(w, nodes[w].blk.(rrpv := RRPV_MAX - 1));
        if psel <= PSEL_MAX {
          psel1 := psel + 1;
        }
      } else if kind == BRRIP {
        bipctr1 := InsertBrrip(w, bipctr);
        if psel > 0 {
          psel1 := psel - 1;
        }
      } else if psel / PSEL_HALF == 0 {
        PutBlk(w, nodes[w].blk.(rrpv := RRPV_MAX - 1));
      } else {
        bipctr1 := InsertBrrip(w, bipctr);
      }
    }

    method InsertBrrip(w: nat, bipctr: nat) returns (bipctr1: nat)
      requires w < ways == nodes.Length
      modifies nodes
      ensures Blks() == old(Blks())[w := old(nodes[w].blk).(rrpv := BipRank(bipctr))] && bipctr1 == StepBip(bipctr)
      ensures LinksView() == old(LinksView()) && HashNexts() == old(HashNexts())
    {
      if bipctr == 0 {
        PutBlk(w, nodes[w].blk.(rrpv := RRPV_MAX - 1));
      } else {
        PutBlk(w, nodes[w].blk.(rrpv := RRPV_MAX));
      }
      bipctr1 := if bipctr == BIPCTR_MAX then 0 else bipctr + 1;
    }

    /** Gives a way a new block: out of its old bucket, refilled, into its new one. */
    method Replace(cfg: Config, w: nat, b: Block)
      requires Valid() && w < ways == cfg.assoc && hsize == cfg.HSize() && SetOk(cfg, View())
      modifies this`chains, hash, nodes
      ensures Valid()
      ensures var cs := old(View());
              View() == cs.(blks := cs.blks[w := b], chains := Rehash(cfg, cs.chains, w, cs.blks[w].tag, b.tag))
    {
      hide Spells, Chain, IsOrder, Hash, Without, Unique;
      ghost var cs := View();
      if hsize > 0 {
        var h := Hash(nodes[w].blk.tag, hsize);
        BucketFacts(cfg, cs, w, h);
        UnlinkHtab(h, w);
      }
      PutBlk(w, b);
      if hsize > 0 {
        LinkHtab(Hash(b.tag, hsize), w);
      }
    }
  }

  lemma BucketFacts(cfg: Config, cs: CSet, w: nat, h: nat)
    requires SetOk(cfg, cs) && w < cfg.assoc && cfg.HSize() > 0 && h == Hash(cs.blks[w].tag, cfg.HSize())
    ensures h < |cs.chains| && w in cs.chains[h] && (forall g :: 0 <= g < |cs.chains| ==> Distinct(cs.chains[g]))
    ensures forall g, v :: 0 <= g < |cs.chains| && g != h && v in cs.chains[g] ==> v !in cs.chains[h]
    ensures forall v :: v in Without(cs.chains[h], w) <==> v in cs.chains[h] && v != w
  {
    WithoutFacts(cs.chains[h], w);
    forall g, v | 0 <= g < |cs.chains| && g != h && v in cs.chains[g] ensures v !in cs.chains[h] {
      assert InWays(cs.chains[g], cfg.assoc);
    }
  }

  lemma FirstOfOrder(l: Links, q: seq<nat>, n: nat, w: nat)
    requires Spells(l, q, n) && IsOrder(q, n) && w < n
    ensures w < |l.prev| && q != [] && (l.prev[w] != NONE <==> q[0] != w)
  {
    assert w in q;
    var i: nat :| 0 <= i < |q| && q[i] == w;
    assert LinkAt(l, q, i);
  }

  lemma TailIsLast(l: Links, q: seq<nat>, n: nat)
    requires Spells(l, q, n) && IsOrder(q, n)
    ensures |q| == n > 0 && l.tail == q[n - 1] < n
  {
  }

  lemma LinkBoundsAll(l: Links, q: seq<nat>, n: nat)
    requires Spells(l, q, n) && IsOrder(q, n)
    ensures n > 0 && l.head == q[0]
  {
  }

  lemma {:induction false} FirstNruLast(q: seq<nat>, b: seq<Block>, i: nat)
    requires InWays(q, |b|) && i == |q| - 1 && FirstNru(q, b) == FirstNru(q[i..], b) && !b[q[i]].nru
    ensures FirstNru(q, b) == None
  {
    assert q[i..][0] == q[i] && q[i..][1..] == [];
  }

  lemma FirstNruHere(q: seq<nat>, b: seq<Block>, i: nat)
    requires InWays(q, |b|) && i < |q|
    ensures b[q[i]].nru ==> FirstNru(q[i..], b) == Some(q[i])
  {
    assert q[i..][0] == q[i];
  }

  lemma AgedNone(b: seq<Block>)
    ensures Aged(b, 0) == b
  {
  }

  lemma ScannedTo(q: seq<int>, k: nat, i: nat, none: bool)
    requires k == 0 && |q| > 0
    requires var f := FirstRank(q, 0, RRPV_MAX); if f.Some? then i == f.value && !none else none
    ensures if none then Scanning(q, 0, |q|) else i < |q| && Scanning(q, 0, i) && q[i] == RRPV_MAX
  {
  }

  /** After `k` agings the ranks are the old ones plus `k`. */
  lemma AgedRanks(cs: CSet, ct: CSet, k: nat)
    requires InWays(cs.order, |cs.blks|) && ct.order == cs.order && ct.blks == Aged(cs.blks, k)
    ensures |Ranks(ct)| == |Ranks(cs)| && forall i :: 0 <= i < |cs.order| ==> Ranks(ct)[i] == Ranks(cs)[i] + k
  {
  }

  lemma ScannedAged(q: seq<int>, r: seq<int>, k: nat, i: nat, none: bool)
    requires |r| == |q| > 1 && (forall j :: 0 <= j < |q| ==> r[j] == q[j] + k) && k > 0 && Scanning(q, k, 1)
    requires var f := FirstRank(r, 1, RRPV_MAX); if f.Some? then i == f.value && !none else none
    ensures if none then Scanning(q, k, |q|) else i < |q| && Scanning(q, k, i) && q[i] + k == RRPV_MAX
  {
  }

  lemma OneWayNone(q: seq<int>, k: nat)
    requires Scanning(q, k, |q|) && |q| == 1
    ensures SearchRank(q) == None
  {
  }

  lemma AgedMore(b: seq<Block>, k: nat)
    ensures Aged(Aged(b, k), 1) == Aged(b, k + 1)
  {
  }

  /** After `k` agings the current pass has reached position `i`. */
  ghost predicate Scanning(q: seq<int>, k: nat, i: nat) {
    && (k > 0 ==> forall j :: 0 <= j < |q| ==> q[j] != RRPV_MAX)
    && (forall n :: 0 < n < k ==> Duel.NoneAfter(q, n))
    && (forall j :: (if k > 0 then 1 else 0) <= j < i && j < |q| ==> q[j] + k != RRPV_MAX)
    && (k > 0 ==> i >= 1)
  }

  lemma StartScan(q: seq<int>)
    ensures Scanning(q, 0, 0)
  {
  }

  /** A pass to the end without success: the next one starts behind the head. */
  lemma PassOver(q: seq<int>, k: nat)
    requires Scanning(q, k, |q|) && |q| > 0
    ensures Scanning(q, k + 1, 1)
    ensures SearchRank(q).Some? ==> k < SearchRank(q).value.1
  {
    if SearchRank(q).Some? {
      Duel.SearchFinds(q);
      var p, n := SearchRank(q).value.0, SearchRank(q).value.1;
      if n <= k {
        NotPassed(q, k, p, n);
      }
    }
  }

  lemma NotPassed(q: seq<int>, k: nat, p: nat, n: nat)
    requires Scanning(q, k, |q|) && p < |q| && n <= k && (n > 0 ==> p > 0)
    ensures q[p] + n != RRPV_MAX
  {
    if 0 < n < k {
      assert Duel.NoneAfter(q, n);
    }
  }

  lemma NotEarlier(q: seq<int>, k: nat, i: nat, j: nat)
    requires Scanning(q, k, i) && i < |q| && q[i] + k == RRPV_MAX && k > 0 && 0 < j < |q| && q[j] <= RRPV_MAX
    ensures q[j] <= q[i]
  {
    if 0 < RRPV_MAX - q[j] < k {
      NotThen(q, k, i, RRPV_MAX - q[j], j);
    }
  }

  lemma NotThen(q: seq<int>, k: nat, i: nat, n: nat, j: nat)
    requires Scanning(q, k, i) && 0 < n < k && 0 < j < |q|
    ensures q[j] + n != RRPV_MAX
  {
    assert Duel.NoneAfter(q, n);
  }

  lemma FoundHere(q: seq<int>, k: nat, i: nat)
    requires Scanning(q, k, i) && i < |q| && q[i] + k == RRPV_MAX
    ensures SearchRank(q) == Some((i, k))
  {
    if k > 0 {
      assert FirstRank(q, 0, RRPV_MAX) == None;
      var m := BestRank(q, 1);
      assert m.Some? && m.value >= q[i];
      var j: nat :| 1 <= j < |q| && q[j] == m.value;
      NotEarlier(q, k, i, j);
    }
  }

  /** Every way in range, and so are its links and the two ends. */
  ghost predicate InLinks(l: Links, n: nat, w: nat) {
    && |l.next| == |l.prev| == n && w < n && 0 <= l.head < n && 0 <= l.tail < n
    && (l.next[w] != NONE ==> 0 <= l.next[w] < n) && (l.prev[w] != NONE ==> 0 <= l.prev[w] < n)
    && (l.next[w] != NONE ==> l.next[w] != w) && (l.prev[w] != NONE ==> l.prev[w] != w)
  }

  lemma LinkBounds(l: Links, q: seq<nat>, n: nat, w: nat)
    requires Spells(l, q, n) && IsOrder(q, n) && w < n
    ensures InLinks(l, n, w)
  {
    assert w in q;
    var i: nat :| 0 <= i < |q| && q[i] == w;
    assert LinkAt(l, q, i);
  }

  lemma OthersKeep(first: int, next: seq<int>, p: seq<nat>, q: seq<nat>, i: nat, w: nat)
    requires Chain(first, next, p) && w < |next| && i < |q| && q[i] == w && w !in p
    requires i > 0 ==> q[i - 1] < |next| && q[i - 1] !in p
    ensures Chain(first, if i == 0 then next[w := NONE] else next[q[i - 1] := next[w]][w := NONE], p)
  {
    if i > 0 {
      OtherChain(first, next, p, q[i - 1], next[w]);
      OtherChain(first, next[q[i - 1] := next[w]], p, w, NONE);
    } else {
      OtherChain(first, next, p, w, NONE);
    }
  }
}
