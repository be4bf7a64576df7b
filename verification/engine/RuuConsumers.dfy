/** Consumer links are for different operands, each younger than the producer it waits for. */
module RuuConsumers {
  import opened RuuTypes
  import opened RuuSteps
  import opened RuuChainCodes
  import opened RuuTame
  import opened RuuStill

  ghost predicate Young(c: Core) {
    forall p: nat, k: nat :: p < |c.st| && k in StationCodes(c.st[p]) ==> k > 3 * c.st[p].num + 2
  }

  ghost predicate Single(c: Core) {
    forall k: nat :: ChainCodes(c.st)[k] <= 1
  }

  /** No operand is linked yet from number `lim` on. */
  ghost predicate Below(c: Core, lim: nat) {
    forall k: nat :: k in ChainCodes(c.st) ==> k < lim
  }

  ghost predicate Consumers(c: Core) { Young(c) && Single(c) }

  /** Station by station the same instances, with no more consumers. */
  ghost predicate Loses(c: Core, b: Core) {
    |b.st| == |c.st| && forall p: nat :: p < |c.st| ==>
      b.st[p].num == c.st[p].num && StationCodes(b.st[p]) <= StationCodes(c.st[p])
  }

  lemma LosesConsumers(c: Core, b: Core)
    requires Loses(c, b)
    ensures Consumers(c) ==> Consumers(b)
    ensures forall lim: nat :: Below(c, lim) ==> Below(b, lim)
  {
    forall k: nat ensures ChainCodes(b.st)[k] <= ChainCodes(c.st)[k] {
      hide StationCodes;
      FewerCodes(c.st, b.st, k);
    }
    hide ChainCodes, StationCodes;
  }

  lemma TameLoses(c: Core, b: Core)
    requires Tame(c, b)
    ensures Loses(c, b)
  {
    hide StationCodes;
    assert forall p: nat :: p < |c.st| ==> Ages(c.st[p], b.st[p]);
  }

  lemma RetireLoses(c: Core)
    requires Shape(c) && c.rn > 0 && (c.st[c.rh].eaComp ==> c.ln > 0)
    ensures Loses(c, Retire(c))
  {
    hide Codes;
  }

  // ----- dispatch -----

  /** The creators that dispatch can link to are older than `m`. */
  ghost predicate CreatorsBelow(c: Core, m: nat)
    requires Shape(c)
  {
    forall n: nat :: 0 < n < MD_TOTAL_REGS ==>
      && (n in c.useSpec && c.scv[n].By? ==> c.st[c.scv[n].slot].num < m)
      && (c.cv[n].By? ==> c.st[c.cv[n].slot].num < m)
  }

  /** Operands up to `j` of station `x` are linked. */
  ghost predicate Linked(c: Core, x: nat, j: nat) {
    && Shape(c) && x < |c.st| && Consumers(c) && Below(c, 3 * c.st[x].num + j) && CreatorsBelow(c, c.st[x].num)
  }

  lemma PushStation(s: Station, o: nat, l: Link)
    requires o < 2
    ensures StationCodes(s.(odeps := s.odeps.Set(o, [l] + s.odeps.Get(o)))) == StationCodes(s) + multiset{Code(l)}
  {
    CodesPush(l, s.odeps.Get(o));
    hide Codes, Code;
  }

  /** `b` is `c` with one consumer more, number `m`, on a chain of station `p`. */
  ghost predicate Pushes(c: Core, b: Core, p: nat, m: nat) {
    && |b.st| == |c.st| && p < |c.st|
    && (forall k: nat :: ChainCodes(b.st)[k] == ChainCodes(c.st)[k] + if k == m then 1 else 0)
    && StationCodes(b.st[p]) == StationCodes(c.st[p]) + multiset{m}
    && (forall z: nat :: z < |c.st| && z != p ==> StationCodes(b.st[z]) == StationCodes(c.st[z]))
    && (forall z: nat :: z < |c.st| ==> b.st[z].num == c.st[z].num)
  }

  lemma PushCode(c: Core, x: nat, s: Station, p: nat, t: Station, m: nat)
    requires x < |c.st| && p < |c.st| && p != x && StationCodes(s) == StationCodes(c.st[x])
    requires StationCodes(t) == StationCodes(c.st[p]) + multiset{m} && s.num == c.st[x].num && t.num == c.st[p].num
    ensures Pushes(c, With(With(c, x, s), p, t), p, m)
  {
    hide StationCodes, ChainCodes;
    var d := c.st[x := s];
    forall k: nat ensures ChainCodes(d[p := t])[k] == ChainCodes(c.st)[k] + if k == m then 1 else 0 {
      ChainCodesAt(c.st, x, s, k);
      ChainCodesAt(d, p, t, k);
    }
  }

  lemma PushKeeps(c: Core, b: Core, p: nat, m: nat)
    requires Pushes(c, b, p, m) && Consumers(c) && Below(c, m) && m > 3 * c.st[p].num + 2
    ensures Consumers(b) && Below(b, m + 1)
  {
    hide StationCodes, ChainCodes;
    assert ChainCodes(c.st)[m] == 0;
  }

  /** The creator an operand is linked to. */
  function Head(c: Core, name: Reg): Creator
    requires Shape(c)
  {
    if name == NA then RegFile else if name in c.useSpec then c.scv[name] else c.cv[name]
  }

  lemma LinkConsumers(c: Core, x: nat, k: nat, name: Reg)
    requires Linked(c, x, k) && k < 3
    ensures var r := LinkIdep(c, x, k, name); r.Ok? ==> Linked(r.core, x, k + 1) && r.core.st[x].num == c.st[x].num
  {
    var r := LinkIdep(c, x, k, name);
    if r.Ok? {
      var b := r.core;
      var head := Head(c, name);
      var s := c.st[x];
      assert Below(c, 3 * s.num + k + 1);
      if head.RegFile? {
        LinkNothing(c, x, k, name);
        LosesConsumers(c, b);
      } else {
        LinkOne(c, x, k, name, head.slot, head.odep);
      }
      hide Young, Single, Below, LinkIdep;
      LinkView(c, x, k, name);
    }
  }

  /** The view, and the numbers of the creators in it, stay. */
  lemma LinkView(c: Core, x: nat, k: nat, name: Reg)
    requires Shape(c) && x < |c.st|
    ensures var r := LinkIdep(c, x, k, name);
            r.Ok? ==> r.core.st[x].num == c.st[x].num && forall m: nat :: CreatorsBelow(c, m) ==> CreatorsBelow(r.core, m)
  {
    LinkStill(c, x, k, name);
    var r := LinkIdep(c, x, k, name);
    if r.Ok? {
      var b := r.core;
      assert b.cv == c.cv && b.scv == c.scv && b.useSpec == c.useSpec && Shape(b);
      hide LinkIdep;
      forall m: nat | CreatorsBelow(c, m) ensures CreatorsBelow(b, m) {
      }
    }
  }

  lemma LinkNothing(c: Core, x: nat, k: nat, name: Reg)
    requires Shape(c) && x < |c.st|
    requires Head(c, name).RegFile?
    ensures LinkIdep(c, x, k, name).Ok? && Loses(c, LinkIdep(c, x, k, name).core)
  {
    hide Codes;
  }

  lemma LinkIs(c: Core, x: nat, k: nat, name: Reg, p: nat, o: nat)
    requires Shape(c) && x < |c.st| && Head(c, name) == By(p, o) && p != x
    ensures p < |c.st| && o < 2
    ensures var s := c.st[x].(inames := c.st[x].inames.Set(k, name), ready := c.st[x].ready.Set(k, false),
                              waitOn := c.st[x].waitOn.Set(k, By(p, o)));
            var ps, r := c.st[p], LinkIdep(c, x, k, name);
            r.Ok? ==>
              && c.free != []
              && r.core == With(With(c, x, s), p, ps.(odeps := ps.odeps.Set(o, [NewLink(c, x, k)] + ps.odeps.Get(o)))).(free := c.free[1..])
  {
  }

  lemma LinkOne(c: Core, x: nat, k: nat, name: Reg, p: nat, o: nat)
    requires Linked(c, x, k) && k < 3 && Head(c, name) == By(p, o)
    ensures var r := LinkIdep(c, x, k, name);
            r.Ok? ==> Consumers(r.core) && Below(r.core, 3 * c.st[x].num + k + 1)
  {
    assert p < |c.st| && o < 2 && c.st[p].num < c.st[x].num;
    LinkIs(c, x, k, name, p, o);
    var s := c.st[x].(inames := c.st[x].inames.Set(k, name), ready := c.st[x].ready.Set(k, false),
                      waitOn := c.st[x].waitOn.Set(k, By(p, o)));
    assert StationCodes(s) == StationCodes(c.st[x]);
    var r, m := LinkIdep(c, x, k, name), 3 * c.st[x].num + k;
    if r.Ok? {
      var l := NewLink(c, x, k);
      assert Code(l) == m;
      var t := c.st[p].(odeps := c.st[p].odeps.Set(o, [l] + c.st[p].odeps.Get(o)));
      hide LinkIdep, StationCodes, ChainCodes, Codes, Code, Shape, CreatorsBelow, Young, Single, Below, NewLink;
      PushStation(c.st[p], o, l);
      PushCode(c, x, s, p, t, m);
      PushKeeps(c, With(With(c, x, s), p, t), p, m);
      Refreed(With(With(c, x, s), p, t), r.core.free, m + 1);
    }
  }

  lemma Refreed(b: Core, free: seq<nat>, lim: nat)
    requires Consumers(b) && Below(b, lim)
    ensures Consumers(b.(free := free)) && Below(b.(free := free), lim)
  {
    hide StationCodes, ChainCodes;
  }

  lemma ThreeConsumers(c: Core, x: nat, n0: Reg, n1: Reg, n2: Reg)
    requires Linked(c, x, 0)
    ensures var r := LinkThree(c, x, n0, n1, n2); r.Ok? ==> Linked(r.core, x, 3) && r.core.st[x].num == c.st[x].num
  {
    LinkConsumers(c, x, 0, n0);
    var c0 := LinkIdep(c, x, 0, n0);
    hide LinkIdep, Linked;
    if c0.Ok? {
      LinkedShape(c0.core, x, 1);
      LinkConsumers(c0.core, x, 1, n1);
      var c1 := LinkIdep(c0.core, x, 1, n1);
      if c1.Ok? {
        LinkedShape(c1.core, x, 2);
        LinkConsumers(c1.core, x, 2, n2);
      }
    }
  }

  lemma LinkedShape(c: Core, x: nat, j: nat)
    requires Linked(c, x, j)
    ensures Shape(c) && x < |c.st|
  {
  }

  lemma ClearedCodes(s: Station, o: nat, name: Reg)
    requires o < 2
    ensures StationCodes(s.(onames := s.onames.Set(o, name), odeps := s.odeps.Set(o, []))) <= StationCodes(s)
    ensures StationCodes(s.(onames := s.onames.Set(o, name))) == StationCodes(s)
  {
    assert Codes([]) == multiset{};
    hide Codes;
  }

  lemma InstallIs(c: Core, x: nat, o: nat, name: Reg) returns (s: Station)
    requires Shape(c) && x < |c.st| && o < 2
    ensures StationCodes(s) <= StationCodes(c.st[x]) && s.num == c.st[x].num
    ensures var b := InstallOdep(c, x, o, name);
            && Shape(b) && b.st == c.st[x := s]
            && (b.cv == c.cv || b.cv == c.cv[name := By(x, o)])
            && ((b.scv == c.scv && b.useSpec == c.useSpec)
                || (b.scv == c.scv[name := By(x, o)] && b.useSpec == c.useSpec + {name}))
  {
    ClearedCodes(c.st[x], o, name);
    var b := InstallOdep(c, x, o, name);
    s := b.st[x];
    hide StationCodes;
  }

  lemma InstallConsumers(c: Core, x: nat, o: nat, name: Reg, m: nat)
    requires Shape(c) && x < |c.st| && o < 2 && CreatorsBelow(c, m) && c.st[x].num < m
    ensures var b := InstallOdep(c, x, o, name); Loses(c, b) && CreatorsBelow(b, m)
  {
    hide InstallOdep, StationCodes;
    var s := InstallIs(c, x, o, name);
    var b := InstallOdep(c, x, o, name);
    assert forall z: nat :: z < |c.st| ==> b.st[z].num == c.st[z].num;
    forall n: nat | 0 < n < MD_TOTAL_REGS
      ensures n in b.useSpec && b.scv[n].By? ==> b.st[b.scv[n].slot].num < m
      ensures b.cv[n].By? ==> b.st[b.cv[n].slot].num < m {
    }
  }

  lemma TwoConsumers(c: Core, x: nat, n0: Reg, n1: Reg, m: nat, lim: nat)
    requires Shape(c) && x < |c.st| && CreatorsBelow(c, m) && c.st[x].num < m && Consumers(c) && Below(c, lim)
    ensures var b := InstallTwo(c, x, n0, n1);
            CreatorsBelow(b, m) && Consumers(b) && Below(b, lim) && forall z: nat :: z < |c.st| ==> b.st[z].num == c.st[z].num
  {
    var a := InstallOdep(c, x, 0, n0);
    InstallConsumers(c, x, 0, n0, m);
    InstallConsumers(a, x, 1, n1, m);
    hide InstallOdep, StationCodes;
    LosesConsumers(c, a);
    LosesConsumers(a, InstallTwo(c, x, n0, n1));
  }
}
