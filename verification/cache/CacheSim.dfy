/** The cache in place: accesses, probes and flushes over sets of linked blocks, proved to
    compute the operations on the cache as a value. */
module CacheSim {
  import opened Common
  import opened LinkedOrders
  import opened Orders
  import opened CacheModel
  import opened CacheStore
  import opened CacheAccess
  import opened CacheRuns
  import opened CacheCreate
  import opened CacheSets

  ghost predicate NewSet(cs: CacheSet, cfg: Config, s: nat)
    requires GoodConfig(cfg) && (cfg.policy == DRRIP ==> cfg.nsets / LEADERS > 0)
    reads cs, cs.nodes, cs.hash
  {
    cs.Valid() && cs.ways == cfg.assoc && cs.hsize == cfg.HSize() && cs.View() == EmptySet(cfg, InitialKind(cfg, s))
  }

  class Sim {
    const cfg: Config
    const sets: seq<CacheSet>
    var mem: map<nat, seq<Byte>>
    var lastTagset: nat
    var lastSome: bool
    var lastSet: nat
    var lastWay: nat
    var psel: nat
    var bipctr: nat
    var busFree: int
    var stat: Counters

    /** A new cache of empty sets. */
    constructor (cfg: Config, mem: map<nat, seq<Byte>>)
      requires GoodConfig(cfg) && (cfg.policy == DRRIP ==> cfg.nsets / LEADERS > 0)
      ensures Valid() && View() == Create(cfg, mem) && fresh(Footprint())
    {
      this.cfg, this.mem := cfg, mem;
      lastTagset, lastSome, lastSet, lastWay := 0, false, 0, 0;
      psel, bipctr, busFree, stat := PSEL_INIT, 0, 0, Counters(0, 0, 0, 0, 0);
      var a := NewSets(cfg);
      sets := a;
      new;
      hide Inv, Hash, EmptySet, InitialKind;
      CreateOk(cfg, mem);
      Assembled(mem);
    }

    static method NewSets(cfg: Config) returns (a: seq<CacheSet>)
      requires GoodConfig(cfg) && (cfg.policy == DRRIP ==> cfg.nsets / LEADERS > 0)
      ensures |a| == cfg.nsets && NoSharing(a) && forall s :: 0 <= s < |a| ==> NewSet(a[s], cfg, s)
      ensures forall s :: 0 <= s < |a| ==> fresh(a[s]) && fresh(a[s].nodes) && fresh(a[s].hash)
    {
      hide EmptySet, InitialKind, CacheSet.Valid;
      a := [];
      while |a| < cfg.nsets
        invariant |a| <= cfg.nsets && NoSharing(a) && forall s :: 0 <= s < |a| ==> NewSet(a[s], cfg, s)
        invariant forall s :: 0 <= s < |a| ==> fresh(a[s]) && fresh(a[s].nodes) && fresh(a[s].hash)
      {
        var next := new CacheSet(cfg, InitialKind(cfg, |a|));
        a := a + [next];
      }
    }

    static ghost predicate NoSharing(a: seq<CacheSet>) {
      forall s, t :: 0 <= s < t < |a| ==> a[s] != a[t] && a[s].nodes != a[t].nodes && a[s].hash != a[t].hash
    }

    lemma Assembled(mem: map<nat, seq<Byte>>)
      requires GoodConfig(cfg) && (cfg.policy == DRRIP ==> cfg.nsets / LEADERS > 0)
      requires |sets| == cfg.nsets && NoSharing(sets) && forall s :: 0 <= s < |sets| ==> NewSet(sets[s], cfg, s)
      ensures Separate() && SetsValid() && SetsView() == Create(cfg, mem).sets
    {
      hide EmptySet, InitialKind, CacheSet.View;
      forall s | 0 <= s < |sets| ensures SetsView()[s] == EmptySet(cfg, InitialKind(cfg, s)) && sets[s].Valid() {
        assert NewSet(sets[s], cfg, s);
        InFootprint(s);
      }
    }

    ghost function Footprint(): set<object> {
      set s, o | 0 <= s < |sets| && o in sets[s].Repr() :: o
    }

    /** The sets share nothing and have the cache's geometry. */
    ghost predicate Separate() {
      && |sets| == cfg.nsets && this !in Footprint()
      && (forall s :: 0 <= s < |sets| ==> sets[s].ways == cfg.assoc && sets[s].hsize == cfg.HSize())
      && (forall s, t :: 0 <= s < t < |sets| ==> sets[s].Repr() !! sets[t].Repr())
    }

    ghost function SetsView(): seq<CSet>
      reads Footprint()
    {
      seq(|sets|, s requires 0 <= s < |sets| reads Footprint() => assert forall o :: o in sets[s].Repr() ==> o in Footprint(); sets[s].View())
    }

    ghost function View(): Cache
      reads this, Footprint()
    {
      Cache(cfg, SetsView(), mem, lastTagset, lastSome, lastSet, lastWay, psel, bipctr, busFree, stat)
    }

    ghost predicate SetsValid()
      reads Footprint()
    {
      forall s :: 0 <= s < |sets| ==> (assert forall o :: o in sets[s].Repr() ==> o in Footprint(); sets[s].Valid())
    }

    ghost predicate Valid()
      reads this, Footprint()
    {
      Separate() && SetsValid() && Inv(View())
    }

    lemma InFootprint(s: nat)
      requires s < |sets|
      ensures sets[s].Repr() <= Footprint() && s < |SetsView()| && SetsView()[s] == sets[s].View()
    {
    }

    twostate lemma OneSet(s: nat)
      requires Separate() && old(SetsValid()) && s < |sets|
      ensures old(sets[s].Valid()) && sets[s].ways == cfg.assoc && sets[s].hsize == cfg.HSize()
      ensures sets[s] in Footprint() && sets[s].nodes in Footprint() && sets[s].hash in Footprint()
      ensures old(View()).sets == old(SetsView()) && old(View()).cfg == cfg
      ensures |old(SetsView())| == |sets| == cfg.nsets && old(SetsView())[s] == old(sets[s].View())
      ensures sets[s].nodes.Length == cfg.assoc && old(sets[s].View()).blks == old(sets[s].Blks()) && |old(sets[s].Blks())| == cfg.assoc
      ensures forall w :: 0 <= w < cfg.assoc ==> old(sets[s].Blks())[w] == old(sets[s].nodes[w].blk)
    {
      InFootprint(s);
    }

    lemma ShapeParts()
      requires Shape(View())
      ensures GoodConfig(cfg) && forall s :: 0 <= s < |View().sets| ==> SetShape(cfg, View().sets[s])
    {
    }

    lemma Apart(s: nat, t: nat)
      requires Separate() && s < |sets| && t < |sets| && s != t
      ensures var a, b := sets[s], sets[t];
              a != b && a.nodes != b.nodes && a.hash != b.hash
    {
      assert sets[s].Repr() !! sets[t].Repr();
    }

    twostate predicate Same(t: nat)
      requires t < |sets|
      reads sets[t], sets[t].nodes, sets[t].hash
    {
      sets[t].View() == old(sets[t].View()) && sets[t].Valid() == old(sets[t].Valid())
    }

    /** What remains when only set `s` was touched since. */
    twostate lemma OnlySet(s: nat)
      requires Separate() && old(SetsValid()) && s < |sets| && sets[s].Valid()
      requires forall t :: 0 <= t < |sets| && t != s ==> Same(t)
      ensures SetsValid() && SetsView() == old(SetsView())[s := sets[s].View()]
      ensures unchanged(this) ==> View() == WithSet(old(View()), s, sets[s].View())
    {
      forall t | 0 <= t < |sets|
        ensures sets[t].Valid() && SetsView()[t] == sets[t].View() && old(SetsView())[t] == old(sets[t].View()) && (t == s || Same(t))
      {
        InFootprint(t);
        OneSet(t);
        assert t != s ==> Same(t);
      }
    }

    /** Hash chain or way list, whichever the associativity calls for. */
    method Find(s: nat, tag: nat) returns (r: Option<nat>)
      requires Valid() && s < |sets|
      ensures s < |View().sets| && SetShape(cfg, View().sets[s]) && r == Lookup(cfg, View().sets[s], tag)
      ensures Valid() && View() == old(View())
    {
      hide Hash, FindIn, Inv, Shape, SetShape, SetsOk, Lookup, View, Valid, SetsValid, SetsView, Separate, InWays;
      ShapeHere();
      OneSet(s);
      LookupIs(s, tag);
      if cfg.HSize() > 0 {
        r := sets[s].ScanBucket(Hash(tag, cfg.HSize()), tag);
      } else {
        r := sets[s].ScanWays(tag);
      }
    }

    lemma LookupIs(s: nat, tag: nat)
      requires Separate() && SetsValid() && s < |sets| && s < |View().sets| && SetShape(cfg, View().sets[s])
      ensures var cs := View().sets[s];
              && InWays(cs.order, |cs.blks|) && cs.blks == sets[s].Blks() && cs.order == sets[s].order && cs.chains == sets[s].chains
              && (cfg.HSize() > 0 ==>
                    && Hash(tag, cfg.HSize()) < sets[s].hsize && Hash(tag, cfg.HSize()) < |cs.chains|
                    && InWays(cs.chains[Hash(tag, cfg.HSize())], |cs.blks|)
                    && Lookup(cfg, cs, tag) == FindIn(cs.chains[Hash(tag, cfg.HSize())], cs.blks, tag))
              && (cfg.HSize() == 0 ==> Lookup(cfg, cs, tag) == FindIn(cs.order, cs.blks, tag))
    {
      InFootprint(s);
      hide Hash, FindIn;
    }

    lemma ShapeHere()
      requires Valid()
      ensures Separate() && SetsValid() && Shape(View()) && SetsOk(View()) && View().cfg == cfg && |sets| == cfg.nsets
      ensures GoodConfig(cfg) && |View().sets| == |sets| && forall s :: 0 <= s < |sets| ==> SetShape(cfg, View().sets[s])
    {
    }

    /** The block's part of a hit. */
    method HitSet(s: nat, w: nat, cmd: Cmd, ofs: nat, fast: bool)
      requires Separate() && SetsValid() && s < |sets| && w < cfg.assoc && w < |View().sets[s].blks|
      requires ofs + cmd.Size() <= |View().sets[s].blks[w].data|
      modifies Footprint()
      ensures Separate() && SetsValid()
      ensures var cs := old(View()).sets[s];
              var hit := cs.(blks := cs.blks[w := Touched(cs.blks[w], cmd, ofs)]);
              View() == WithSet(old(View()), s, if fast then hit else Promote(cfg.policy, hit, w))
    {
      OneSet(s);
      hide *;
      sets[s].HitWay(cfg.policy, w, cmd, ofs, fast);
      forall t | 0 <= t < |sets| && t != s ensures Same(t) {
        Apart(s, t);
      }
      OnlySet(s);
    }

    method HitBlock(s: nat, w: nat, cmd: Cmd, addr: nat, env: Env, fast: bool) returns (bytes: seq<Byte>, lat: int)
      requires Valid() && s < |sets| && w < cfg.assoc && Offset(cfg, addr) + cmd.Size() <= cfg.bsize
      modifies this, Footprint()
      ensures Separate() && SetsValid() && Shape(old(View())) && Done(View(), bytes, lat) == Hit(old(View()), s, w, cmd, addr, env, fast)
    {
      hide *;
      ShapeHere();
      OneSet(s);
      ghost var c := View();
      BlockSize(c, s, w);
      HitIs(c, s, w, cmd, addr, env, fast);
      var ofs := Offset(cfg, addr);
      var b := sets[s].nodes[w].blk;
      assert b == c.sets[s].blks[w];
      bytes := Output(b, cmd, ofs);
      HitSet(s, w, cmd, ofs, fast);
      Remember(Base(cfg, addr), s, w);
      lat := Max(cfg.hitLatency, b.ready - env.now);
    }

    method Remember(tagset: nat, s: nat, w: nat)
      requires Separate()
      modifies this`lastTagset, this`lastSome, this`lastSet, this`lastWay, this`stat
      ensures var c := old(View());
              View() == c.(lastTagset := tagset, lastSome := true, lastSet := s, lastWay := w, stat := c.stat.(hits := c.stat.hits + 1))
      ensures old(SetsValid()) ==> SetsValid()
    {
      stat := stat.(hits := stat.hits + 1);
      lastTagset, lastSome, lastSet, lastWay := tagset, true, s, w;
    }

    /** The bus and the memory below, when way `w` of set `s` is to be replaced. */
    method EvictBlock(s: nat, repl: Block, env: Env) returns (lat: int)
      requires Separate()
      modifies this`mem, this`busFree, this`stat
      ensures (View(), lat) == Evict(old(View()), s, repl, env) && SetsView() == old(SetsView())
      ensures old(SetsValid()) ==> SetsValid()
    {
      lat := 0;
      if repl.valid {
        stat := stat.(replacements := stat.replacements + 1);
        lat := lat + Bound(repl.ready - env.now);
        lat := lat + Bound(busFree - (env.now + lat));
        busFree := Max(busFree, env.now + lat) + 1;
        if repl.dirty {
          stat := stat.(writebacks := stat.writebacks + 1);
          var a := MkBaddr(cfg, repl.tag, s);
          lat := lat + env.memLat(true, a, env.now + lat);
          mem := mem[a := repl.data];
        }
      }
    }

    /** Selects the victim of a miss in set `s`; the remembered block is forgotten. */
    method SelectWay(s: nat, env: Env) returns (r: Option<nat>)
      requires Separate() && SetsValid() && s < |sets| && Shape(View())
      requires CacheModel.Choose(cfg, View().sets[s], psel, bipctr, env.rnd) != Forever
      modifies this, Footprint()
      ensures Separate() && SetsValid()
      ensures var c := old(View());
              var ch := CacheModel.Choose(cfg, c.sets[s], c.psel, c.bipctr, env.rnd);
              if r.Some? then ch.Chosen? && r.value == ch.way && View() == Selected(c, s, ch) else ch == NoneLeft
    {
      ViewParts();
      SelectedIs(View(), s, CacheModel.Choose(cfg, View().sets[s], psel, bipctr, env.rnd));
      hide *;
      var psel1, bipctr1;
      r, psel1, bipctr1 := ChooseWay(s, env);
      if r.Some? {
        CountMiss(psel1, bipctr1);
      }
    }

    method CountMiss(psel1: nat, bipctr1: nat)
      requires Separate()
      modifies this`psel, this`bipctr, this`lastTagset, this`lastSome, this`lastSet, this`lastWay, this`stat
      ensures var c := old(View());
              View() == c.(psel := psel1, bipctr := bipctr1, lastTagset := 0, lastSome := false, lastSet := 0, lastWay := 0,
                           stat := c.stat.(misses := c.stat.misses + 1))
      ensures old(SetsValid()) ==> SetsValid()
    {
      psel, bipctr := psel1, bipctr1;
      lastTagset, lastSome, lastSet, lastWay := 0, false, 0, 0;
      stat := stat.(misses := stat.misses + 1);
    }

    method ChooseWay(s: nat, env: Env) returns (r: Option<nat>, psel1: nat, bipctr1: nat)
      requires Separate() && SetsValid() && s < |sets| && Shape(View())
      requires CacheModel.Choose(cfg, View().sets[s], psel, bipctr, env.rnd) != Forever
      modifies Footprint()
      ensures Separate() && SetsValid()
      ensures var c := old(View());
              var ch := CacheModel.Choose(cfg, c.sets[s], c.psel, c.bipctr, env.rnd);
              if r.Some? then ch.Chosen? && (r.value, psel1, bipctr1) == (ch.way, ch.psel, ch.bipctr) && View() == WithSet(c, s, ch.cs)
              else ch == NoneLeft
    {
      ShapeParts();
      OneSet(s);
      ViewParts();
      hide *;
      r, psel1, bipctr1 := sets[s].Choose(cfg, psel, bipctr, env.rnd);
      forall t | 0 <= t < |sets| && t != s ensures Same(t) {
        Apart(s, t);
      }
      OnlySet(s);
    }

    lemma ViewParts()
      ensures View().cfg == cfg && View().psel == psel && View().bipctr == bipctr && View().mem == mem
    {
    }

    method ReplaceWay(s: nat, w: nat, b: Block)
      requires Separate() && SetsValid() && s < |sets| && w < cfg.assoc && s < |View().sets| && SetOk(cfg, View().sets[s])
      modifies Footprint()
      ensures Separate() && SetsValid() && SetShape(cfg, old(View()).sets[s]) && View() == Replaced(old(View()), s, w, b)
    {
      OneSet(s);
      ViewParts();
      SetOkShape(cfg, View().sets[s]);
      hide *;
      ReplacedIs(View(), s, w, b);
      sets[s].Replace(cfg, w, b);
      forall t | 0 <= t < |sets| && t != s ensures Same(t) {
        Apart(s, t);
      }
      OnlySet(s);
    }

    method MissBlock(s: nat, cmd: Cmd, addr: nat, env: Env) returns (fault: Option<Fault>, bytes: seq<Byte>, lat: int)
      requires Valid() && s == SetOf(cfg, addr) && Offset(cfg, addr) + cmd.Size() <= cfg.bsize
      requires Miss(View(), s, cmd, addr, env) != Stop(Endless)
      modifies this, Footprint()
      ensures Shape(old(View()))
      ensures var r := Miss(old(View()), s, cmd, addr, env);
              if fault.None? then Separate() && SetsValid() && r == Done(View(), bytes, lat) else r == Stop(fault.value)
    {
      hide *;
      ShapeHere();
      ViewParts();
      ghost var c := View();
      MissIs(c, s, cmd, addr, env);
      bytes, lat := [], 0;
      var r := SelectWay(s, env);
      if r.None? {
        return Some(NoVictim), [], 0;
      }
      var w := r.value;
      ChosenOk(c, s, env);
      ViewParts();
      OneBlock(s, w);
      var repl := sets[s].nodes[w].blk;
      lat := EvictBlock(s, repl, env);
      ViewParts();
      var t := Filled(cfg, mem, repl, cmd, addr, env, lat);
      bytes, lat := t.1, t.2;
      ReplaceWay(s, w, t.0);
      fault := None;
    }

    lemma OneBlock(s: nat, w: nat)
      requires Separate() && SetsValid() && s < |sets| && w < cfg.assoc
      ensures w < sets[s].nodes.Length && s < |View().sets| && w < |View().sets[s].blks| && sets[s].nodes[w].blk == View().sets[s].blks[w]
    {
      InFootprint(s);
    }

    // ----- the operations -----

    /** One access.  Under DRRIP the victim search must end, which it does in every run whose flushes of
        single blocks are tame. */
    method Access(cmd: Cmd, addr: nat, env: Env) returns (fault: Option<Fault>, bytes: seq<Byte>, lat: int)
      requires Valid() && Shape(View()) && CacheModel.Access(View(), cmd, addr, env) != Stop(Endless)
      modifies this, Footprint()
      ensures Shape(old(View()))
      ensures var r := CacheModel.Access(old(View()), cmd, addr, env);
              if fault.None? then Valid() && r == Done(View(), bytes, lat) else r == Stop(fault.value)
    {
      hide *;
      ShapeHere();
      ValidInv();
      ViewLast();
      ghost var c := View();
      AccessIs(c, cmd, addr, env);
      AccessKeeps(c, cmd, addr, env);
      fault, bytes, lat := None, [], 0;
      if !GoodSize(addr, cmd.Size()) {
        fault := Some(BadSize);
      } else if Offset(cfg, addr) + cmd.Size() > cfg.bsize {
        fault := Some(SpansBlock);
      } else if Base(cfg, addr) == lastTagset {
        if !lastSome {
          fault := Some(NullBlock);
        } else {
          bytes, lat := HitBlock(lastSet, lastWay, cmd, addr, env, true);
          ValidAgain();
        }
      } else {
        var s := SetOf(cfg, addr);
        var w := Find(s, Tag(cfg, addr));
        if w.Some? {
          bytes, lat := HitBlock(s, w.value, cmd, addr, env, false);
          ValidAgain();
        } else {
          fault, bytes, lat := MissBlock(s, cmd, addr, env);
          if fault.None? {
            ValidAgain();
          }
        }
      }
    }

    lemma ViewLast()
      ensures View().lastTagset == lastTagset && View().lastSome == lastSome && View().lastSet == lastSet && View().lastWay == lastWay
    {
    }

    lemma ValidAgain()
      requires Separate() && SetsValid() && Inv(View())
      ensures Valid()
    {
    }

    lemma ValidInv()
      requires Valid()
      ensures Inv(View())
    {
    }

    method Probe(addr: nat) returns (hit: bool)
      requires Valid()
      ensures Shape(View()) && hit == CacheModel.Probe(View(), addr)
    {
      ShapeHere();
      hide Lookup, Shape, Valid, SetsValid;
      var r := Find(SetOf(cfg, addr), Tag(cfg, addr));
      hit := r.Some?;
    }

    /** Invalidates way `w` of set `s`, and writes its block back if it was dirty. */
    method FlushBlock(s: nat, w: nat, lat0: int, env: Env) returns (lat: int)
      requires Separate() && SetsValid() && Shape(View()) && s < |sets| && w < cfg.assoc
      modifies this, Footprint()
      ensures Separate() && SetsValid() && Shape(old(View())) && (View(), lat) == FlushWay(old(View()), s, w, lat0, env)
    {
      hide *;
      OneSet(s);
      ViewParts();
      ghost var c := View();
      FlushWayAt(c, s, w, lat0, env);
      OneBlock(s, w);
      var b := sets[s].nodes[w].blk;
      lat := lat0;
      if b.valid {
        Invalidate(s, w, b);
        lat := WriteBack(s, b, lat, env);
      }
    }

    method Invalidate(s: nat, w: nat, b: Block)
      requires Separate() && SetsValid() && s < |sets| && w < cfg.assoc && s < |View().sets| && w < |View().sets[s].blks|
      modifies Footprint()
      ensures Separate() && SetsValid()
      ensures var c := old(View()); View() == WithSet(c, s, c.sets[s].(blks := c.sets[s].blks[w := b.(valid := false)]))
    {
      OneSet(s);
      hide *;
      sets[s].SetBlock(w, b.(valid := false));
      forall t | 0 <= t < |sets| && t != s ensures Same(t) {
        Apart(s, t);
      }
      OnlySet(s);
    }

    method WriteBack(s: nat, b: Block, lat0: int, env: Env) returns (lat: int)
      requires Separate()
      modifies this`mem, this`stat
      ensures var d := old(View()).(stat := old(View()).stat.(invalidations := old(View()).stat.invalidations + 1));
              var a := MkBaddr(cfg, b.tag, s);
              (View(), lat) == if !b.dirty then (d, lat0)
                               else (d.(mem := d.mem[a := b.data], stat := d.stat.(writebacks := d.stat.writebacks + 1)),
                                     lat0 + env.memLat(true, a, env.now + lat0))
      ensures old(SetsValid()) ==> SetsValid()
    {
      lat := lat0;
      stat := stat.(invalidations := stat.invalidations + 1);
      if b.dirty {
        stat := stat.(writebacks := stat.writebacks + 1);
        var a := MkBaddr(cfg, b.tag, s);
        lat := lat + env.memLat(true, a, env.now + lat);
        mem := mem[a := b.data];
      }
    }

    method Forget()
      requires Separate()
      modifies this`lastTagset, this`lastSome, this`lastSet, this`lastWay
      ensures View() == old(View()).(lastTagset := 0, lastSome := false, lastSet := 0, lastWay := 0) && (old(SetsValid()) ==> SetsValid())
    {
      lastTagset, lastSome, lastSet, lastWay := 0, false, 0, 0;
    }

    method MoveToEnd(s: nat, w: nat)
      requires Separate() && SetsValid() && s < |sets| && w < cfg.assoc && s < |View().sets|
      modifies Footprint()
      ensures Separate() && SetsValid()
      ensures var c := old(View()); View() == WithSet(c, s, c.sets[s].(order := MoveToTail(c.sets[s].order, w)))
    {
      OneSet(s);
      hide *;
      sets[s].ToTail(w);
      forall t | 0 <= t < |sets| && t != s ensures Same(t) {
        Apart(s, t);
      }
      OnlySet(s);
    }

    /** Flushes the block of one address, if it is held, and makes it the next to be replaced. */
    method FlushAddr(addr: nat, env: Env) returns (lat: int)
      requires Valid()
      modifies this, Footprint()
      ensures Valid() && Shape(old(View())) && (View(), lat) == CacheModel.FlushAddr(old(View()), addr, env)
    {
      hide *;
      ShapeHere();
      ValidInv();
      ghost var c := View();
      FlushAddrIsFlat(c, addr, env);
      FlushAddrAt(c, addr, env);
      var s := SetOf(cfg, addr);
      var w := Find(s, Tag(cfg, addr));
      lat := cfg.hitLatency;
      ShapeHere();
      if w.Some? {
        Forget();
        lat := FlushBlock(s, w.value, lat, env);
        FlushedSize(c, s, w.value, cfg.hitLatency, env);
        MoveToEnd(s, w.value);
      }
      ValidAgain();
    }

    /** Flushes every block of a set, in way-list order. */
    method FlushWays(s: nat, lat0: int, env: Env) returns (lat: int)
      requires Separate() && SetsValid() && Shape(View()) && s < |sets|
      modifies this, Footprint()
      ensures Separate() && SetsValid() && Shape(View()) && Shape(old(View()))
      ensures (View(), lat) == FlushSet(old(View()), s, 0, lat0, env)
    {
      hide *;
      ghost var c := View();
      ghost var i := 0;
      lat := lat0;
      OneSet(s);
      SetSize();
      SetParts(s, 0);
      var w := sets[s].wayHead;
      FlushSetAt(c, s, 0, lat0, env);
      while w != NONE
        invariant Separate() && SetsValid() && Shape(c) && Shape(View()) && 0 <= i <= cfg.assoc && s < |View().sets|
        invariant |View().sets[s].order| == cfg.assoc == View().cfg.assoc && |sets| == View().cfg.nsets
        invariant w == (if i < cfg.assoc then View().sets[s].order[i] else NONE) && (w == NONE || 0 <= w < cfg.assoc)
        invariant FlushSet(c, s, 0, lat0, env) == FlushSet(View(), s, i, lat, env)
        decreases cfg.assoc - i
      {
        FlushSetAt(View(), s, i, lat, env);
        lat := FlushBlock(s, w, lat, env);
        SetParts(s, i);
        w := sets[s].nodes[w].wayNext;
        i := i + 1;
      }
      FlushSetAt(View(), s, i, lat, env);
    }

    lemma SetSize()
      requires Shape(View())
      ensures cfg.assoc > 0 && NONE == -1
    {
    }

    lemma SetParts(s: nat, i: nat)
      requires Separate() && SetsValid() && Shape(View()) && s < |sets| && i < cfg.assoc
      ensures s < |View().sets| && |View().sets[s].order| == cfg.assoc == View().cfg.assoc && |sets| == View().cfg.nsets
      ensures sets[s].nodes.Length == cfg.assoc > 0 && sets[s].wayHead == View().sets[s].order[0]
      ensures var q := View().sets[s].order;
              q[i] < cfg.assoc && sets[s].nodes[q[i]].wayNext == (if i + 1 < cfg.assoc then q[i + 1] else NONE)
      ensures forall j :: 0 <= j < cfg.assoc ==> View().sets[s].order[j] < cfg.assoc
    {
      InFootprint(s);
      assert LinkAt(sets[s].LinksView(), sets[s].order, i);
    }

    /** Flushes the whole cache. */
    method Flush(env: Env) returns (lat: int)
      requires Valid()
      modifies this, Footprint()
      ensures Valid() && Shape(old(View())) && (View(), lat) == CacheModel.Flush(old(View()), env)
    {
      hide *;
      ShapeHere();
      ValidInv();
      FlushIsFlat(View(), env);
      FlushAt(View(), env);
      lat := cfg.hitLatency;
      Forget();
      ghost var c := View();
      var s := 0;
      while s < |sets|
        invariant 0 <= s <= |sets| == cfg.nsets && Separate() && SetsValid() && Shape(View()) && View().cfg == cfg
        invariant Shape(c) && c.cfg == cfg && FlushFrom(c, 0, cfg.hitLatency, env) == FlushFrom(View(), s, lat, env)
      {
        FlushFromAt(View(), s, lat, env);
        lat := FlushWays(s, lat, env);
        ViewParts();
        s := s + 1;
      }
      FlushFromAt(View(), s, lat, env);
      ValidAgain();
    }
  }

  lemma AccessIs(c: Cache, cmd: Cmd, addr: nat, env: Env)
    requires Shape(c) && SetsOk(c)
    ensures 0 <= SetOf(c.cfg, addr) < c.cfg.nsets && SetShape(c.cfg, c.sets[SetOf(c.cfg, addr)])
    ensures c.lastSome ==> c.lastSet < c.cfg.nsets && c.lastWay < c.cfg.assoc
    ensures var ofs, s := Offset(c.cfg, addr), SetOf(c.cfg, addr);
            var f := Lookup(c.cfg, c.sets[s], Tag(c.cfg, addr));
            (f.Some? ==> f.value < c.cfg.assoc) &&
            CacheModel.Access(c, cmd, addr, env) ==
              if !GoodSize(addr, cmd.Size()) then Stop(BadSize)
              else if ofs + cmd.Size() > c.cfg.bsize then Stop(SpansBlock)
              else if Base(c.cfg, addr) == c.lastTagset then
                if !c.lastSome then Stop(NullBlock) else Hit(c, c.lastSet, c.lastWay, cmd, addr, env, true)
              else if f.Some? then Hit(c, s, f.value, cmd, addr, env, false) else Miss(c, s, cmd, addr, env)
  {
    hide Hit, Miss, Lookup;
  }

  lemma AccessKeeps(c: Cache, cmd: Cmd, addr: nat, env: Env)
    requires Shape(c)
    ensures var r := CacheModel.Access(c, cmd, addr, env); Inv(c) && r.Done? ==> Inv(r.cache)
  {
    if Inv(c) {
      AccessIsFlat(c, cmd, addr, env);
    }
    hide Inv, CacheModel.Access;
  }

  lemma FlushWayAt(c: Cache, s: nat, w: nat, lat: int, env: Env)
    requires Shape(c) && s < c.cfg.nsets && w < c.cfg.assoc
    ensures s < |c.sets| && w < |c.sets[s].blks|
    ensures var b := c.sets[s].blks[w];
            var d := WithSet(c, s, c.sets[s].(blks := c.sets[s].blks[w := b.(valid := false)]));
            var e := d.(stat := d.stat.(invalidations := d.stat.invalidations + 1));
            var a := MkBaddr(c.cfg, b.tag, s);
            FlushWay(c, s, w, lat, env) ==
              if !b.valid then (c, lat)
              else if !b.dirty then (e, lat)
              else (e.(mem := e.mem[a := b.data], stat := e.stat.(writebacks := e.stat.writebacks + 1)),
                    lat + env.memLat(true, a, env.now + lat))
  {
  }

  lemma FlushAddrAt(c: Cache, addr: nat, env: Env)
    requires Shape(c)
    ensures SetOf(c.cfg, addr) < |c.sets| && SetShape(c.cfg, c.sets[SetOf(c.cfg, addr)])
    ensures var s := SetOf(c.cfg, addr);
            var f := Lookup(c.cfg, c.sets[s], Tag(c.cfg, addr));
            var b := c.(lastTagset := 0, lastSome := false, lastSet := 0, lastWay := 0);
            && Shape(b) && b.cfg == c.cfg
            && (f.None? ==> CacheModel.FlushAddr(c, addr, env) == (c, c.cfg.hitLatency))
            && (f.Some? ==>
                  && f.value < c.cfg.assoc
                  && var (d, lat) := FlushWay(b, s, f.value, c.cfg.hitLatency, env);
                     s < |d.sets| && CacheModel.FlushAddr(c, addr, env) ==
                       (WithSet(d, s, d.sets[s].(order := MoveToTail(d.sets[s].order, f.value))), lat))
  {
    hide Lookup, FlushWay, MoveToTail;
  }

  lemma FlushedSize(c: Cache, s: nat, w: nat, lat: int, env: Env)
    requires Shape(c) && s < c.cfg.nsets && w < c.cfg.assoc
    ensures var b := c.(lastTagset := 0, lastSome := false, lastSet := 0, lastWay := 0);
            Shape(b) && s < |FlushWay(b, s, w, lat, env).0.sets|
  {
  }

  lemma FlushSetAt(c: Cache, s: nat, i: nat, lat: int, env: Env)
    requires Shape(c) && s < c.cfg.nsets && i <= c.cfg.assoc
    ensures s < |c.sets| && |c.sets[s].order| == c.cfg.assoc
    ensures i == c.cfg.assoc ==> FlushSet(c, s, i, lat, env) == (c, lat)
    ensures i < c.cfg.assoc ==>
              && c.sets[s].order[i] < c.cfg.assoc
              && var (d, l) := FlushWay(c, s, c.sets[s].order[i], lat, env);
                 && Shape(d) && d.cfg == c.cfg && s < |d.sets| && d.sets[s].order == c.sets[s].order
                 && FlushSet(c, s, i, lat, env) == FlushSet(d, s, i + 1, l, env)
  {
    if i < c.cfg.assoc {
      FlushWayAt(c, s, c.sets[s].order[i], lat, env);
    }
  }

  lemma FlushFromAt(c: Cache, s: nat, lat: int, env: Env)
    requires Shape(c) && s <= c.cfg.nsets
    ensures s == c.cfg.nsets ==> FlushFrom(c, s, lat, env) == (c, lat)
    ensures s < c.cfg.nsets ==>
              var (d, l) := FlushSet(c, s, 0, lat, env);
              Shape(d) && d.cfg == c.cfg && FlushFrom(c, s, lat, env) == FlushFrom(d, s + 1, l, env)
  {
    hide FlushSet;
  }

  lemma FlushAt(c: Cache, env: Env)
    requires Shape(c)
    ensures var b := c.(lastTagset := 0, lastSome := false, lastSet := 0, lastWay := 0);
            Shape(b) && b.cfg == c.cfg && CacheModel.Flush(c, env) == FlushFrom(b, 0, c.cfg.hitLatency, env)
  {
    hide FlushFrom;
  }

  lemma BlockSize(c: Cache, s: nat, w: nat)
    requires Shape(c) && s < c.cfg.nsets && w < c.cfg.assoc
    ensures |c.sets| == c.cfg.nsets && |c.sets[s].blks| == c.cfg.assoc && |c.sets[s].blks[w].data| == c.cfg.bsize > 0
  {
  }

  lemma HitIs(c: Cache, s: nat, w: nat, cmd: Cmd, addr: nat, env: Env, fast: bool)
    requires Shape(c) && s < c.cfg.nsets && w < c.cfg.assoc && Offset(c.cfg, addr) + cmd.Size() <= c.cfg.bsize
    ensures var cs, ofs := c.sets[s], Offset(c.cfg, addr);
            var hit := cs.(blks := cs.blks[w := Touched(cs.blks[w], cmd, ofs)]);
            var d := WithSet(c, s, if fast then hit else Promote(c.cfg.policy, hit, w));
            Hit(c, s, w, cmd, addr, env, fast) ==
              Done(d.(lastTagset := Base(c.cfg, addr), lastSome := true, lastSet := s, lastWay := w, stat := d.stat.(hits := d.stat.hits + 1)),
                   Output(cs.blks[w], cmd, ofs),
                   Max(c.cfg.hitLatency, cs.blks[w].ready - env.now))
  {
  }

  lemma ChosenOk(c: Cache, s: nat, env: Env)
    requires Shape(c) && SetsOk(c) && s < c.cfg.nsets
    ensures s < |c.sets|
    ensures var ch := CacheModel.Choose(c.cfg, c.sets[s], c.psel, c.bipctr, env.rnd);
            ch.Chosen? ==> ch.way < c.cfg.assoc && SetOk(c.cfg, ch.cs) && s < |Selected(c, s, ch).sets| && Selected(c, s, ch).sets[s] == ch.cs
  {
    ChooseStore(c.cfg, c.sets[s], c.psel, c.bipctr, env.rnd);
  }

  lemma SelectedIs(c: Cache, s: nat, ch: Choice)
    ensures s < |c.sets| && ch.Chosen? ==>
              var d := WithSet(c, s, ch.cs);
              Selected(c, s, ch) == d.(psel := ch.psel, bipctr := ch.bipctr, lastTagset := 0, lastSome := false, lastSet := 0, lastWay := 0,
                                       stat := d.stat.(misses := d.stat.misses + 1))
  {
  }

  lemma SetOkShape(cfg: Config, cs: CSet)
    requires SetOk(cfg, cs)
    ensures SetShape(cfg, cs)
  {
  }

  lemma ReplacedIs(c: Cache, s: nat, w: nat, b: Block)
    requires s < |c.sets| && SetShape(c.cfg, c.sets[s]) && w < c.cfg.assoc
    ensures var cs := c.sets[s];
            Replaced(c, s, w, b) ==
              WithSet(c, s, cs.(blks := cs.blks[w := b], chains := Rehash(c.cfg, cs.chains, w, cs.blks[w].tag, b.tag)))
  {
  }

  lemma MissIs(c: Cache, s: nat, cmd: Cmd, addr: nat, env: Env)
    requires Shape(c) && SetsOk(c) && s < c.cfg.nsets && Offset(c.cfg, addr) + cmd.Size() <= c.cfg.bsize
    ensures var ch := CacheModel.Choose(c.cfg, c.sets[s], c.psel, c.bipctr, env.rnd);
            && (ch == NoneLeft ==> Miss(c, s, cmd, addr, env) == Stop(NoVictim))
            && (ch == Forever ==> Miss(c, s, cmd, addr, env) == Stop(Endless))
            && (ch.Chosen? ==>
                  && ch.way < |ch.cs.blks| && SetShape(c.cfg, ch.cs)
                  && var e := Evict(Selected(c, s, ch), s, ch.cs.blks[ch.way], env);
                     var t := Filled(c.cfg, e.0.mem, ch.cs.blks[ch.way], cmd, addr, env, e.1);
                     s < |e.0.sets| && e.0.sets[s] == ch.cs && e.0.cfg == c.cfg && Miss(c, s, cmd, addr, env) == Done(Replaced(e.0, s, ch.way, t.0), t.1, t.2))
  {
    ChooseStore(c.cfg, c.sets[s], c.psel, c.bipctr, env.rnd);
    hide Evict, CacheModel.Choose, Filled, Replaced, Unique, Chained;
  }
}
