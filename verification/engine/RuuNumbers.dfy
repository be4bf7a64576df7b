/** The sequence numbers in flight.  Numbers are lost only when a mispredicted path is squashed,
    and then no more than fit the two queues; so the numbers from the oldest entry to the last
    one given out are bounded by the sizes of the queues. */
module RuuNumbers {
  import opened RuuTypes
  import opened RuuSteps
  import opened RuuInvariants
  import opened RuuNumberSets
  import opened RuuChainCodes
  import opened RuuStill
  import opened RuuTame
  import opened RuuRemovalProof
  import opened RuuCommitStage
  import Events = RuuEventProof

  /** The numbers of the entries in flight. */
  ghost function Nums(c: Core): set<nat> {
    set z: nat | z < |c.st| && Live(c, z) :: c.st[z].num
  }

  /** Those that no recovery will squash. */
  ghost function Firm(c: Core): set<nat> {
    set z: nat | z < |c.st| && Live(c, z) && !c.st[z].specMode :: c.st[z].num
  }

  /** Between an entry and the next younger one fewer numbers are lost than the queues hold, and
      behind an open branch none is. */
  ghost predicate Numbered(c: Core) {
    && c.R + c.L > 0 && Gaps(Nums(c), c.instSeq, c.R + c.L - 1)
    && (c.specMode ==> Dense(Nums(c), Firm(c), c.instSeq))
  }

  ghost function Elements(q: seq<nat>): set<nat> { set x: nat | x in q }

  lemma {:induction false} ElementsSize(q: seq<nat>)
    ensures |Elements(q)| <= |q|
  {
    if q != [] {
      ElementsSize(q[1..]);
      var t := Elements(q[1..]);
      assert Elements(q) == t + {q[0]};
      assert |t + {q[0]}| <= |t| + 1;
    }
  }

  lemma NumsSize(c: Core)
    requires |c.st| == c.R + c.L
    ensures |Nums(c)| <= c.R + c.L
  {
    var q := seq(|c.st|, z requires 0 <= z < |c.st| => c.st[z].num);
    ElementsSize(q);
    forall a | a in Nums(c) ensures a in q {
      var z: nat :| z < |c.st| && Live(c, z) && c.st[z].num == a;
      assert q[z] == a;
    }
    Subset(Nums(c), Elements(q));
  }

  lemma Subset(s: set<nat>, t: set<nat>)
    requires s <= t
    ensures |s| <= |t|
  {
    assert t == s + (t - s);
  }

  /** Steps that leave the program as it is leave its numbers. */
  lemma StillNumbers(c: Core, b: Core)
    requires Shape(c) && Shape(b) && Still(c, b)
    ensures Nums(b) == Nums(c) && Firm(b) == Firm(c) && (Numbered(c) ==> Numbered(b))
  {
    assert forall z: nat :: Live(b, z) <==> Live(c, z);
    forall a: nat ensures (a in Nums(b) <==> a in Nums(c)) && (a in Firm(b) <==> a in Firm(c)) {
      if a in Nums(b) {
        var z: nat :| z < |b.st| && Live(b, z) && b.st[z].num == a;
        assert Live(c, z) && c.st[z].num == a;
      }
      if a in Nums(c) {
        var z: nat :| z < |c.st| && Live(c, z) && c.st[z].num == a;
        assert Live(b, z) && b.st[z].num == a;
      }
      if a in Firm(b) {
        var z: nat :| z < |b.st| && Live(b, z) && !b.st[z].specMode && b.st[z].num == a;
        assert Live(c, z) && c.st[z].num == a;
      }
      if a in Firm(c) {
        var z: nat :| z < |c.st| && Live(c, z) && !c.st[z].specMode && c.st[z].num == a;
        assert Live(b, z) && b.st[z].num == a;
      }
    }
  }

  // ----- commit -----

  lemma OldestNumbers(c: Core, b: Core)
    requires Shape(c) && Shape(b) && Removes(c, b) && Oldest(c, b) && Order(c)
    ensures Nums(b) <= Nums(c) && Firm(b) <= Firm(c) && Firm(b) <= Nums(b)
    ensures AllBefore(Nums(c) - Nums(b), Nums(b)) && Firm(c) - Firm(b) <= Nums(c) - Nums(b)
  {
    assert forall z: nat :: Live(b, z) ==> z < |b.st| && b.st[z] == c.st[z] && b.st[z].num in Nums(b);
    assert forall z: nat :: Live(b, z) && !b.st[z].specMode ==> b.st[z].num in Firm(b);
    forall a: nat, d: nat | a in Nums(c) - Nums(b) && d in Nums(b) ensures a < d {
      var g: nat :| g < |c.st| && Live(c, g) && c.st[g].num == a;
      var z: nat :| z < |b.st| && Live(b, z) && b.st[z].num == d;
      assert Gone(c, b, g);
    }
    forall a: nat | a in Firm(c) - Firm(b) ensures a !in Nums(b) {
      var g: nat :| g < |c.st| && Live(c, g) && !c.st[g].specMode && c.st[g].num == a;
      assert !Live(b, g);
      assert forall z: nat :: Live(b, z) && b.st[z].num == a ==> z == g;
    }
  }

  /** The open branch is still there. */
  lemma BranchFirm(c: Core, b: Core)
    requires Shape(c) && Shape(b) && Removes(c, b) && Oldest(c, b) && Speculation(c, -1) && c.specMode
    ensures Firm(b) != {}
  {
    var x: nat :| IsBranch(c, -1, x);
    assert !Gone(c, b, x);
    assert b.st[x].num in Firm(b);
  }

  lemma OldestKeeps(c: Core, b: Core)
    requires Shape(c) && Shape(b) && Removes(c, b) && Oldest(c, b) && Order(c) && Speculation(c, -1) && Numbered(c)
    requires b.instSeq == c.instSeq && b.specMode == c.specMode && b.R == c.R && b.L == c.L
    ensures Numbered(b)
  {
    OldestNumbers(c, b);
    if c.specMode {
      BranchFirm(c, b);
    }
    hide Removes, Oldest, Order, Speculation, Nums, Firm, Gaps, Dense, AllBefore, Shape;
    DropGaps(Nums(c), Nums(b), c.instSeq, c.R + c.L - 1);
    if c.specMode {
      DropDense(Nums(c), Nums(b), Firm(c), Firm(b), c.instSeq);
    }
  }

  lemma RetireNumbers(c: Core, port: nat -> bool, pool: nat)
    requires Inv(c, pool) && Shape(c) && c.rn > 0 && CommitGate(c, port) == Open && Numbered(c)
    ensures (c.st[c.rh].eaComp ==> c.ln > 0) && Numbered(Retire(c))
  {
    var b := Retire(c);
    RetireSame(c, port);
    Events.IdleSplit(c, pool);
    RetireDrops(c);
    GateOpen(c, port);
    hide *;
    DropsHeadRemoves(c, b);
    OldestKeeps(c, b);
  }

  lemma RetireSame(c: Core, port: nat -> bool)
    requires Shape(c) && c.rn > 0 && CommitGate(c, port) == Open
    ensures (c.st[c.rh].eaComp ==> c.ln > 0) && Shape(Retire(c))
    ensures var b := Retire(c); b.instSeq == c.instSeq && b.specMode == c.specMode && b.R == c.R && b.L == c.L
  {
  }

  // ----- recovery -----

  /** With the trace precise again, exactly the firm entries are left. */
  lemma RecoverLive(c: Core, b: Core, r: nat)
    requires Shape(c) && Shape(b) && Tame(c, b) && Order(c) && Pairs(c) && Pairs(b)
    requires Speculation(c, r) && IsBranch(c, r, r) && Speculation(b, -1) && !b.specMode && Live(b, r)
    ensures forall z: nat :: Live(b, z) <==> Live(c, z) && !c.st[z].specMode
  {
    hide StationCodes;
    assert forall z: nat :: Live(b, z) ==> Live(c, z) && z < |c.st| && !b.st[z].specMode;
    forall z: nat | Live(c, z) && !c.st[z].specMode ensures Live(b, z) {
      var p := if z < c.R then z else c.st[z].partner;
      assert z >= c.R ==> IsPair(c, p, z);
      assert c.st[p].num <= c.st[r].num;
      assert !RuuBefore(c, r, p);
      assert Live(b, p);
      assert Ages(c.st[p], b.st[p]);
      assert z >= c.R ==> IsPair(b, p, b.st[p].partner);
    }
  }

  lemma RecoverFirm(c: Core, b: Core)
    requires Shape(c) && Shape(b) && Tame(c, b)
    requires forall z: nat :: Live(b, z) <==> Live(c, z) && !c.st[z].specMode
    ensures Nums(b) == Firm(c) == Firm(b) && Firm(c) <= Nums(c)
  {
    hide StationCodes;
    forall a: nat ensures (a in Nums(b) <==> a in Firm(c)) && (a in Firm(b) <==> a in Firm(c)) {
      if a in Nums(b) {
        var z: nat :| z < |b.st| && Live(b, z) && b.st[z].num == a;
        assert Ages(c.st[z], b.st[z]);
      }
      if a in Firm(c) {
        var z: nat :| z < |c.st| && Live(c, z) && !c.st[z].specMode && c.st[z].num == a;
        assert Ages(c.st[z], b.st[z]);
      }
    }
  }

  /** The speculative entries are younger than all others. */
  lemma FirmFirst(c: Core, r: nat)
    requires Shape(c) && Order(c) && Pairs(c) && Speculation(c, r) && IsBranch(c, r, r)
    ensures AllBefore(Firm(c), Nums(c) - Firm(c))
  {
    forall a: nat, d: nat | a in Firm(c) && d in Nums(c) - Firm(c) ensures a < d {
      var y: nat :| y < |c.st| && Live(c, y) && !c.st[y].specMode && c.st[y].num == a;
      var z: nat :| z < |c.st| && Live(c, z) && c.st[z].num == d;
      assert c.st[z].specMode;
      var p, q := if y < c.R then y else c.st[y].partner, if z < c.R then z else c.st[z].partner;
      assert (y >= c.R ==> IsPair(c, p, y)) && (z >= c.R ==> IsPair(c, q, z));
      assert c.st[p].num <= c.st[r].num < c.st[q].num;
      assert c.st[p].num <= a <= c.st[p].num + 1 && c.st[q].num <= d;
    }
  }

  lemma RecoverNumbers(c: Core, b: Core, r: nat)
    requires Shape(c) && Shape(b) && Tame(c, b) && Order(c) && Pairs(c) && Pairs(b) && c.specMode
    requires Speculation(c, r) && IsBranch(c, r, r) && Speculation(b, -1) && !b.specMode && Live(b, r) && Numbered(c)
    ensures Numbered(b)
  {
    RecoverLive(c, b, r);
    RecoverFirm(c, b);
    FirmFirst(c, r);
    NumsSize(c);
    hide Order, Pairs, Speculation, Nums, Firm, Gaps, Dense, AllBefore, Shape, Ages;
    RecoverGaps(Nums(c), Firm(c), c.instSeq, c.R + c.L - 1);
  }
}
