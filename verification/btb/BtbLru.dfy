/** The branch target buffer is an LRU map from taken branches to their last targets. */
module BtbLru {
  import opened Common
  import opened Orders
  import opened BtbModel

  /** A branch that is looked up and entered in the buffer: taken, and no return from the stack. */
  predicate Enters(x: Branch, size: nat) { Taken(x) && !(x.ret && size > 0) }

  /** Branch addresses are not 0, and returns are indirect jumps. */
  predicate WellFormed(x: Branch) { x.pc > 0 && (x.ret ==> x.indir) }

  ghost predicate WellFormedRun(xs: seq<Branch>) { forall i :: 0 <= i < |xs| ==> WellFormed(xs[i]) }

  // ----- what a run means -----

  function SetNumber(sets: nat, pc: nat): nat
    requires sets > 0
  {
    pc / BR_SHIFT_SIZE % sets
  }

  /** The branches entered in set `s`, most recent first, each once. */
  function Recent(xs: seq<Branch>, sets: nat, size: nat, s: nat): (q: seq<nat>)
    requires sets > 0
  {
    if xs == [] then []
    else
      var x, q := xs[|xs| - 1], Recent(xs[..|xs| - 1], sets, size, s);
      if Enters(x, size) && SetNumber(sets, x.pc) == s then Use(q, x.pc) else q
  }

  /** Where a branch went when it was entered last. */
  function LastTarget(xs: seq<Branch>, size: nat, pc: nat): nat {
    if xs == [] then 0
    else
      var x := xs[|xs| - 1];
      if Enters(x, size) && x.pc == pc then x.npc else LastTarget(xs[..|xs| - 1], size, pc)
  }

  lemma {:induction false} RecentDistinct(xs: seq<Branch>, sets: nat, size: nat, s: nat)
    requires sets > 0 && WellFormedRun(xs)
    ensures Distinct(Recent(xs, sets, size, s)) && 0 !in Recent(xs, sets, size, s)
  {
    if xs != [] {
      var rest, x := xs[..|xs| - 1], xs[|xs| - 1];
      assert forall i :: 0 <= i < |rest| ==> rest[i] == xs[i];
      RecentDistinct(rest, sets, size, s);
      UseDistinct(Recent(rest, sets, size, s), x.pc);
      WithoutFacts(Recent(rest, sets, size, s), x.pc);
    }
  }

  // ----- one set -----

  /** The entry at position `i` of the list: branch number `i` of the stack with its target. */
  predicate EntryIs(e: Entry, q: seq<nat>, i: nat, target: nat -> nat) {
    if i < |q| then e == Entry(q[i], target(q[i])) else e.addr == 0
  }

  ghost predicate Carries(cs: BSet, q: seq<nat>, target: nat -> nat)
    requires InWays(cs.order, |cs.ways|)
  {
    forall i: nat :: i < |cs.order| ==> EntryIs(cs.ways[cs.order[i]], q, i, target)
  }

  predicate Among(q: seq<nat>, n: nat, pc: nat) { exists i: nat :: i < n && i < |q| && q[i] == pc }

  /** The buffer has a branch exactly if it is among the `n` most recent ones. */
  lemma HitIff(cs: BSet, q: seq<nat>, target: nat -> nat, pc: nat, n: nat)
    requires |cs.ways| == n && IsOrder(cs.order, n) && Carries(cs, q, target) && pc > 0
    ensures FindWay(cs.ways, pc, 0) >= 0 <==> Among(q, n, pc)
    ensures FindWay(cs.ways, pc, 0) >= 0 ==> cs.ways[FindWay(cs.ways, pc, 0)].target == target(pc)
  {
    var f := FindWay(cs.ways, pc, 0);
    if f >= 0 {
      var i := WayAt(cs, q, target, f, n);
    } else {
      forall i: nat | i < n && i < |q| ensures q[i] != pc {
        assert cs.ways[cs.order[i]] == Entry(q[i], target(q[i]));
      }
    }
  }

  lemma WayAt(cs: BSet, q: seq<nat>, target: nat -> nat, w: nat, n: nat) returns (i: nat)
    requires |cs.ways| == n && IsOrder(cs.order, n) && Carries(cs, q, target) && w < n
    ensures i < n && cs.order[i] == w && EntryIs(cs.ways[w], q, i, target)
  {
    assert w in cs.order;
    i :| 0 <= i < |cs.order| && cs.order[i] == w;
  }

  /** No two ways are for the same branch. */
  lemma OneWay(cs: BSet, q: seq<nat>, target: nat -> nat, v: nat, w: nat, n: nat)
    requires |cs.ways| == n && IsOrder(cs.order, n) && Carries(cs, q, target) && Distinct(q) && 0 !in q
    requires v < n && w < n && cs.ways[v].addr == cs.ways[w].addr != 0
    ensures v == w
  {
    var i := WayAt(cs, q, target, v, n);
    var j := WayAt(cs, q, target, w, n);
  }

  /** Entering a branch makes it the most recent one, with its new target. */
  lemma EnterCarries(cs: BSet, q: seq<nat>, t: nat -> nat, u: nat -> nat, x: Branch, correct: bool, n: nat)
    requires |cs.ways| == n > 0 && IsOrder(cs.order, n) && Carries(cs, q, t) && Distinct(q) && 0 !in q && x.pc > 0
    requires u(x.pc) == x.npc && forall a: nat :: a != x.pc ==> u(a) == t(a)
    requires var f := FindWay(cs.ways, x.pc, 0); f >= 0 && correct ==> cs.ways[f].target == x.npc
    ensures var d := Entered(cs, x, correct); IsOrder(d.order, n) && Carries(d, Use(q, x.pc), u)
  {
    var f := FindWay(cs.ways, x.pc, 0);
    if f >= 0 {
      var i := WayAt(cs, q, t, f, n);
      MoveFacts(cs.order, n, f);
      WithoutAt(cs.order, i);
      WithoutAt(q, i);
      HitMoves(cs, q, t, u, x, correct, i, n);
    } else {
      var w := cs.order[n - 1];
      MoveFacts(cs.order, n, w);
      WithoutAt(cs.order, n - 1);
      HitIff(cs, q, t, x.pc, n);
      UseKeepsFirst(q, x.pc, n);
      MissMoves(cs, q, t, u, x, correct, n);
    }
  }

  lemma HitMoves(cs: BSet, q: seq<nat>, t: nat -> nat, u: nat -> nat, x: Branch, correct: bool, i: nat, n: nat)
    requires |cs.ways| == n && IsOrder(cs.order, n) && Carries(cs, q, t) && Distinct(q) && i < n && i < |q| && q[i] == x.pc
    requires FindWay(cs.ways, x.pc, 0) == cs.order[i] && cs.ways[cs.order[i]] == Entry(x.pc, t(x.pc))
    requires u(x.pc) == x.npc && (forall a: nat :: a != x.pc ==> u(a) == t(a)) && (correct ==> t(x.pc) == x.npc)
    requires MoveToHead(cs.order, cs.order[i]) == [cs.order[i]] + (cs.order[..i] + cs.order[i + 1..])
    requires Use(q, x.pc) == [x.pc] + (q[..i] + q[i + 1..])
    ensures var d := Entered(cs, x, correct); InWays(d.order, |d.ways|) && Carries(d, Use(q, x.pc), u)
  {
    hide Use, MoveToHead;
    var d, p := Entered(cs, x, correct), Use(q, x.pc);
    forall j: nat | j < |d.order| ensures d.order[j] < n && EntryIs(d.ways[d.order[j]], p, j, u) {
      var k := if j == 0 then i else if j <= i then j - 1 else j;
      assert d.order[j] == cs.order[k] && EntryIs(cs.ways[cs.order[k]], q, k, t);
    }
  }

  lemma MissMoves(cs: BSet, q: seq<nat>, t: nat -> nat, u: nat -> nat, x: Branch, correct: bool, n: nat)
    requires |cs.ways| == n > 0 && IsOrder(cs.order, n) && Carries(cs, q, t) && Distinct(q) && x.pc > 0
    requires FindWay(cs.ways, x.pc, 0) == -1
    requires u(x.pc) == x.npc && forall a: nat :: a != x.pc ==> u(a) == t(a)
    requires MoveToHead(cs.order, cs.order[n - 1]) == [cs.order[n - 1]] + (cs.order[..n - 1] + cs.order[n..])
    requires var p := Use(q, x.pc);
      && p[0] == x.pc && (|p| == |q| + 1 || (|q| >= n && |p| >= n)) && forall i :: 0 < i < n && i < |p| ==> p[i] == q[i - 1]
    ensures var d := Entered(cs, x, correct); InWays(d.order, |d.ways|) && Carries(d, Use(q, x.pc), u)
  {
    hide Use, MoveToHead;
    var d, p := Entered(cs, x, correct), Use(q, x.pc);
    forall j: nat | j < |d.order| ensures d.order[j] < n && EntryIs(d.ways[d.order[j]], p, j, u) {
      if j > 0 {
        assert d.order[j] == cs.order[j - 1] && EntryIs(cs.ways[cs.order[j - 1]], q, j - 1, t);
        assert cs.ways[cs.order[j - 1]].addr != x.pc;
      }
    }
  }

  // ----- the whole buffer over a run -----

  ghost function Targets(xs: seq<Branch>, size: nat): nat -> nat { pc => LastTarget(xs, size, pc) }

  ghost predicate Refines(b: Pred, xs: seq<Branch>)
    requires Shape(b)
  {
    forall s: nat :: s < |b.sets| ==> Carries(b.sets[s], Recent(xs, |b.sets|, |b.stack|, s), Targets(xs, |b.stack|))
  }

  /** A correct prediction of a taken branch that the buffer has came from the buffer. */
  lemma CorrectIsTarget(b: Pred, x: Branch)
    requires Shape(b) && !UsesStack(b, x) && Taken(x)
    ensures var ways := b.sets[SetOf(b, x.pc)].ways;
      var f := FindWay(ways, x.pc, 0); f >= 0 && Correct(Answer(b, x), x) ==> ways[f].target == x.npc
  {
  }

  lemma ExecuteRefines(b: Pred, xs: seq<Branch>, x: Branch)
    requires Shape(b) && Refines(b, xs) && WellFormedRun(xs) && WellFormed(x)
    ensures Refines(Execute(b, x), xs + [x])
  {
    var c, n, size := Execute(b, x), |b.sets|, |b.stack|;
    var ys := xs + [x];
    assert ys[..|ys| - 1] == xs;
    var s0 := SetOf(b, x.pc);
    if Enters(x, size) {
      CorrectIsTarget(b, x);
      RecentDistinct(xs, n, size, s0);
      EnterCarries(b.sets[s0], Recent(xs, n, size, s0), Targets(xs, size), Targets(ys, size), x, Correct(Answer(b, x), x), b.assoc);
      hide IsOrder, Distinct, Use, FindWay, Answer;
      forall s: nat | s < n && s != s0 ensures Carries(c.sets[s], Recent(ys, n, size, s), Targets(ys, size)) {
        OtherSet(b, xs, ys, x, s);
      }
    } else {
      assert c.sets == b.sets;
      forall s: nat | s < n ensures Carries(c.sets[s], Recent(ys, n, size, s), Targets(ys, size)) {
        SameCarries(b.sets[s], Recent(xs, n, size, s), Targets(xs, size), Targets(ys, size));
      }
    }
  }

  lemma SameCarries(cs: BSet, q: seq<nat>, t: nat -> nat, u: nat -> nat)
    requires InWays(cs.order, |cs.ways|) && Carries(cs, q, t) && forall i: nat :: i < |q| ==> u(q[i]) == t(q[i])
    ensures Carries(cs, q, u)
  {
    forall i: nat | i < |cs.order| ensures EntryIs(cs.ways[cs.order[i]], q, i, u) {
      assert EntryIs(cs.ways[cs.order[i]], q, i, t);
    }
  }

  /** The branches of a set map to it. */
  lemma {:induction false} RecentOfSet(xs: seq<Branch>, sets: nat, size: nat, s: nat)
    requires sets > 0
    ensures forall y :: y in Recent(xs, sets, size, s) ==> SetNumber(sets, y) == s
  {
    if xs != [] {
      var rest, x := xs[..|xs| - 1], xs[|xs| - 1];
      RecentOfSet(rest, sets, size, s);
      var q := Recent(rest, sets, size, s);
      InWithout(q, x.pc);
    }
  }

  lemma {:induction false} InWithout(q: seq<nat>, w: nat)
    ensures forall y :: y in Without(q, w) ==> y in q
  {
    if q != [] { InWithout(q[1..], w); }
  }

  lemma OtherSet(b: Pred, xs: seq<Branch>, ys: seq<Branch>, x: Branch, s: nat)
    requires Shape(b) && Refines(b, xs) && ys == xs + [x] && ys[..|ys| - 1] == xs && Enters(x, |b.stack|)
    requires s < |b.sets| && s != SetOf(b, x.pc)
    ensures Carries(b.sets[s], Recent(ys, |b.sets|, |b.stack|, s), Targets(ys, |b.stack|))
  {
    var n, size := |b.sets|, |b.stack|;
    RecentOfSet(xs, n, size, s);
    SameCarries(b.sets[s], Recent(xs, n, size, s), Targets(xs, size), Targets(ys, size));
  }

  lemma CreateRefines(sets: nat, assoc: nat, size: nat)
    requires sets > 0 && assoc > 0 && Shape(Create(sets, assoc, size))
    ensures var c := Create(sets, assoc, size); |c.sets| == sets && |c.stack| == size && c.assoc == assoc && Refines(c, [])
  {
  }

  /** In every run from a new predictor each set lists, from its most recently used way on, the
      most recently taken distinct branches that map to it and are no returns from the stack,
      each with the target it had last; the other ways are unused. */
  lemma {:induction false} BtbRun(sets: nat, assoc: nat, size: nat, xs: seq<Branch>)
    requires sets > 0 && assoc > 0 && WellFormedRun(xs)
    ensures Shape(Create(sets, assoc, size))
    ensures var b := Run(Create(sets, assoc, size), xs); |b.sets| == sets && |b.stack| == size && b.assoc == assoc && Refines(b, xs)
  {
    CreateShape(sets, assoc, size);
    var c := Create(sets, assoc, size);
    if xs == [] {
      CreateRefines(sets, assoc, size);
    } else {
      var rest, x := xs[..|xs| - 1], xs[|xs| - 1];
      assert forall i :: 0 <= i < |rest| ==> rest[i] == xs[i];
      BtbRun(sets, assoc, size, rest);
      hide Create, Refines, Shape, Execute, WellFormed;
      ExecuteRefines(Run(c, rest), rest, x);
      assert rest + [x] == xs;
    }
  }

  /** What the next lookup answers: for a branch among the most recent ones of its set the target
      it had last, and otherwise no address. */
  lemma LookupAnswers(sets: nat, assoc: nat, size: nat, xs: seq<Branch>, x: Branch)
    requires sets > 0 && assoc > 0 && WellFormedRun(xs) && WellFormed(x) && !(x.ret && size > 0)
    ensures Shape(Create(sets, assoc, size))
    ensures var b, q := Run(Create(sets, assoc, size), xs), Recent(xs, sets, size, SetNumber(sets, x.pc));
      Answer(b, x) ==
        if !x.uncond && !x.dir then 0
        else if Among(q, assoc, x.pc) then LastTarget(xs, size, x.pc) else 1
  {
    BtbRun(sets, assoc, size, xs);
    var b := Run(Create(sets, assoc, size), xs);
    var s := SetOf(b, x.pc);
    HitIff(b.sets[s], Recent(xs, sets, size, s), Targets(xs, size), x.pc, assoc);
    assert Targets(xs, size)(x.pc) == LastTarget(xs, size, x.pc);
    hide Run, Create, Carries, Recent, Among, LastTarget, Targets, FindWay, Refines;
  }
}
