/** The predictor over its arrays: ways linked by number, and the ring of return addresses. */
module BtbSim {
  import opened Common
  import opened LinkedOrders
  import opened Orders
  import opened BtbModel
  import Lru = BtbLru

  /** A way as it is stored: its branch, its target and its neighbours in the list of its set. */
  datatype Ent = Ent(addr: nat, target: nat, next: int, prev: int)

  function WaysOf(row: seq<Ent>): (ways: seq<Entry>)
    ensures |ways| == |row|
  {
    seq(|row|, w requires 0 <= w < |row| => Entry(row[w].addr, row[w].target))
  }

  function LinksOf(row: seq<Ent>, head: int, tail: int): (l: Links)
    ensures |l.next| == |l.prev| == |row|
  {
    Links(head, tail, seq(|row|, w requires 0 <= w < |row| => row[w].next), seq(|row|, w requires 0 <= w < |row| => row[w].prev))
  }

  /** The row after its way `w` moved to the head of the list. */
  function Spliced(row: seq<Ent>, head: int, w: nat): (r: seq<Ent>)
    requires w < |row|
    ensures |r| == |row|
  {
    var p, n := row[w].prev, row[w].next;
    var r1 := if 0 <= p < |row| then row[p := row[p].(next := n)] else row;
    var r2 := if 0 <= n < |row| then r1[n := r1[n].(prev := p)] else r1;
    var r3 := r2[w := r2[w].(next := head, prev := NONE)];
    if 0 <= head < |row| then r3[head := r3[head].(prev := w)] else r3
  }

  lemma SplicedIs(row: seq<Ent>, head: nat, tail: int, w: nat)
    requires w < |row| && head < |row| && 0 <= row[w].prev < |row| && (row[w].next == NONE || 0 <= row[w].next < |row|)
    ensures var m := MoveLinks(LinksOf(row, head, tail), w, true);
      LinksOf(Spliced(row, head, w), m.head, m.tail) == m
    ensures WaysOf(Spliced(row, head, w)) == WaysOf(row)
  {
    var m := MoveLinks(LinksOf(row, head, tail), w, true);
    var l := LinksOf(Spliced(row, head, w), m.head, m.tail);
    assert l.next == m.next;
    assert l.prev == m.prev;
  }

  /** The links of a row spell out an order of its ways. */
  ghost predicate RowSpells(row: seq<Ent>, q: seq<nat>, n: nat) {
    |row| == n > 0 && IsOrder(q, n) && Spells(LinksOf(row, q[0], q[n - 1]), q, n)
  }

  /** Splicing does to the links what moving a member of a linked order does. */
  lemma SplicedLinks(row: seq<Ent>, q: seq<nat>, n: nat, w: nat)
    requires RowSpells(row, q, n) && w < n && w != q[0]
    ensures RowSpells(Spliced(row, q[0], w), MoveToHead(q, w), n) && WaysOf(Spliced(row, q[0], w)) == WaysOf(row)
  {
    var l := LinksOf(row, q[0], q[n - 1]);
    MoveSpells(l, q, n, w, true);
    MoveFacts(q, n, w);
    Neighbours(row, q, n, w);
    SplicedIs(row, q[0], q[n - 1], w);
    var m, p := MoveLinks(l, w, true), MoveToHead(q, w);
    SpellsEnds(m, p, n);
    hide Spells, MoveLinks, Spliced, MoveToHead;
  }

  lemma SpellsEnds(m: Links, p: seq<nat>, n: nat)
    requires Spells(m, p, n) && |p| == n > 0
    ensures m.head == p[0] && m.tail == p[n - 1]
  {
  }

  /** Where a way stands in its list shows in its links. */
  lemma Neighbours(row: seq<Ent>, q: seq<nat>, n: nat, w: nat)
    requires RowSpells(row, q, n) && w < n
    ensures (row[w].prev == NONE <==> w == q[0]) && (row[w].next == NONE <==> w == q[n - 1])
    ensures (row[w].prev == NONE || 0 <= row[w].prev < n) && (row[w].next == NONE || 0 <= row[w].next < n)
  {
    var l := LinksOf(row, q[0], q[n - 1]);
    assert w in q;
    var i: nat :| i < n && q[i] == w;
    InPlaceAt(l, q, n, i, true);
    InPlaceAt(l, q, n, i, false);
    assert LinkAt(l, q, i);
    assert l.prev[w] == row[w].prev && l.next[w] == row[w].next;
  }

  class Predictor {
    const sets: nat
    const assoc: nat
    const data: array2<Ent>
    const stack: array<nat>
    var tos: nat
    ghost var orders: seq<seq<nat>>

    ghost predicate Fits()
      reads this`orders, this`tos
    {
      && data.Length0 == sets > 0 && data.Length1 == assoc > 0 && (stack.Length > 0 ==> tos < stack.Length)
      && |orders| == sets && forall s :: 0 <= s < sets ==> IsOrder(orders[s], assoc)
    }

    ghost function Row(s: nat): (row: seq<Ent>)
      reads data
      requires s < data.Length0
      ensures |row| == data.Length1
    {
      seq(data.Length1, w requires 0 <= w < data.Length1 reads data => data[s, w])
    }

    ghost predicate Linked(s: nat)
      reads this`orders, data
      requires s < data.Length0 && s < |orders|
    {
      RowSpells(Row(s), orders[s], assoc)
    }

    ghost predicate Sound()
      reads this, data
    {
      Fits() && forall s :: 0 <= s < sets ==> Linked(s)
    }

    ghost function View(): (b: Pred)
      reads this, data, stack
      requires Fits()
      ensures Shape(b)
    {
      Pred(assoc, seq(sets, s requires 0 <= s < sets && sets == data.Length0 && sets == |orders| reads this`orders, data => BSet(WaysOf(Row(s)), orders[s])), stack[..], tos)
    }

    /** Stores one way. */
    method Put(s: nat, w: nat, e: Ent)
      requires Fits() && s < sets && w < assoc
      modifies data
      ensures Fits() && Row(s) == old(Row(s))[w := e]
      ensures forall t: nat :: t < sets && t != s ==> Row(t) == old(Row(t))
    {
      data[s, w] := e;
      assert Row(s) == old(Row(s))[w := e];
      forall t: nat | t < sets && t != s ensures Row(t) == old(Row(t)) {
        assert forall v :: 0 <= v < assoc ==> data[t, v] == old(data[t, v]);
      }
    }

    // ----- lookup -----

    method FindEntry(s: nat, pc: nat) returns (w: int)
      requires Fits() && s < sets
      ensures w == FindWay(View().sets[s].ways, pc, 0)
    {
      ghost var ways := View().sets[s].ways;
      var i := 0;
      while i < assoc
        invariant i <= assoc && FindWay(ways, pc, i) == FindWay(ways, pc, 0)
      {
        assert ways[i] == Entry(data[s, i].addr, data[s, i].target);
        if data[s, i].addr == pc { return i; }
        i := i + 1;
      }
      return -1;
    }

    /** A return pops the ring, a call pushes on it. */
    method StackStep(x: Branch) returns (target: nat, usedStack: bool)
      requires Sound()
      modifies this`tos, stack
      ensures Sound() && View() == StackAfter(old(View()), x)
      ensures usedStack == UsesStack(old(View()), x) && (usedStack ==> target == Answer(old(View()), x))
    {
      ghost var b := View();
      hide IsOrder, RowSpells, FindWay, WaysOf, Shape;
      target, usedStack := 0, false;
      if x.ret && stack.Length > 0 {
        target, usedStack := stack[tos], true;
        tos := (tos + stack.Length - 1) % stack.Length;
      } else if x.call && stack.Length > 0 {
        tos := (tos + 1) % stack.Length;
        stack[tos] := x.pc + INST_SIZE;
        assert stack[..] == b.stack[tos := x.pc + INST_SIZE];
      }
      assert View().sets == b.sets;
    }

    method Lookup(x: Branch) returns (answer: nat, usedStack: bool)
      requires Sound()
      modifies this`tos, stack
      ensures Sound() && View() == StackAfter(old(View()), x)
      ensures answer == Answer(old(View()), x) && usedStack == UsesStack(old(View()), x)
    {
      ghost var b := View();
      answer, usedStack := StackStep(x);
      if usedStack { return; }
      SameSets(b, x);
      hide IsOrder, FindWay, RowSpells, StackAfter, Shape;
      var s := x.pc / BR_SHIFT_SIZE % sets;
      var w := FindEntry(s, x.pc);
      if !x.uncond && !x.dir {
        answer := 0;
      } else if w >= 0 {
        WayIs(s, w);
        answer := data[s, w].target;
      } else {
        answer := 1;
      }
    }

    static lemma SameSets(b: Pred, x: Branch)
      requires Shape(b)
      ensures StackAfter(b, x).sets == b.sets
    {
    }

    lemma WayIs(s: nat, w: nat)
      requires Fits() && s < sets && w < assoc
      ensures View().sets[s].ways[w] == Entry(data[s, w].addr, data[s, w].target) && |View().sets[s].ways| == assoc
    {
    }

    // ----- update -----

    /** The scan for the branch, the head and the tail of the list; `doubled` is the assertion
        that the branch is not found twice. */
    method ScanSet(s: nat, pc: nat) returns (w: int, head: int, tail: int, doubled: bool)
      requires Sound() && s < sets
      ensures head == orders[s][0] && tail == orders[s][assoc - 1]
      ensures doubled <==> Twice(View().sets[s].ways, pc)
      ensures !doubled ==> w == FindWay(View().sets[s].ways, pc, 0)
    {
      w, head, tail, doubled := -1, NONE, NONE, false;
      ghost var q, ways := orders[s], View().sets[s].ways;
      var i := 0;
      while i < assoc
        invariant i <= assoc
        invariant doubled <==> exists j: nat, k: nat :: j < k < i && data[s, j].addr == pc && data[s, k].addr == pc
        invariant w == -1 || (0 <= w < i && data[s, w].addr == pc)
        invariant w == -1 ==> forall j: nat :: j < i ==> data[s, j].addr != pc
        invariant head == if q[0] < i then q[0] else NONE
        invariant tail == if q[assoc - 1] < i then q[assoc - 1] else NONE
      {
        assert Linked(s);
        Neighbours(Row(s), q, assoc, i);
        if data[s, i].addr == pc {
          if w != -1 { doubled := true; }
          w := i;
        }
        if data[s, i].prev == NONE { head := i; }
        if data[s, i].next == NONE { tail := i; }
        i := i + 1;
      }
      TwiceIs(s, pc);
      if !doubled { OnlyMatch(s, pc, w); }
    }

    lemma TwiceIs(s: nat, pc: nat)
      requires Fits() && s < sets
      ensures Twice(View().sets[s].ways, pc) <==>
        exists i: nat, j: nat :: i < j < assoc && data[s, i].addr == pc && data[s, j].addr == pc
    {
      var ways := View().sets[s].ways;
      assert forall j: nat :: j < assoc ==> ways[j].addr == data[s, j].addr;
      if Twice(ways, pc) {
        var i: nat, j: nat :| i < j < |ways| && ways[i].addr == pc && ways[j].addr == pc;
        assert data[s, i].addr == pc && data[s, j].addr == pc;
      }
      if i: nat, j: nat :| i < j < assoc && data[s, i].addr == pc && data[s, j].addr == pc {
        assert ways[i].addr == pc && ways[j].addr == pc;
      }
    }

    lemma OnlyMatch(s: nat, pc: nat, w: int)
      requires Fits() && s < sets
      requires w == -1 || (0 <= w < assoc && data[s, w].addr == pc)
      requires w == -1 ==> forall j: nat :: j < assoc ==> data[s, j].addr != pc
      requires !exists i: nat, j: nat :: i < j < assoc && data[s, i].addr == pc && data[s, j].addr == pc
      ensures w == FindWay(View().sets[s].ways, pc, 0)
    {
      var ways := View().sets[s].ways;
      var f := FindWay(ways, pc, 0);
      assert forall j: nat :: j < assoc ==> ways[j].addr == data[s, j].addr;
    }

    /** Splices a way that is not the head out of its list and puts it at the head. */
    method MoveFront(s: nat, w: nat, head: nat)
      requires Sound() && s < sets && w < assoc && head == orders[s][0] && w != head
      modifies this`orders, data
      ensures Sound() && orders == old(orders)[s := MoveToHead(old(orders[s]), w)]
      ensures WaysOf(Row(s)) == WaysOf(old(Row(s)))
      ensures forall t: nat :: t < sets && t != s ==> Row(t) == old(Row(t))
    {
      ghost var row, q := Row(s), orders[s];
      assert Linked(s);
      Neighbours(row, q, assoc, w);
      SplicedLinks(row, q, assoc, w);
      SplicedSteps(row, head, w);
      hide RowSpells, Spliced, MoveToHead;
      var p, n := data[s, w].prev, data[s, w].next;
      assert p == row[w].prev && n == row[w].next;
      Put(s, p, data[s, p].(next := n));
      if n != NONE {
        Put(s, n, data[s, n].(prev := p));
      }
      Put(s, w, data[s, w].(next := head, prev := NONE));
      Put(s, head, data[s, head].(prev := w));
      assert Row(s) == Spliced(row, head, w);
      SplicedOrder(row, q, w);
      orders := orders[s := MoveToHead(q, w)];
      assert forall t: nat :: t < sets && t != s ==> Row(t) == old(Row(t));
      forall t: nat | t < sets ensures Linked(t) { assert old(Linked(t)); }
    }

    static lemma SplicedOrder(row: seq<Ent>, q: seq<nat>, w: nat)
      requires q != [] && w < |row| && RowSpells(Spliced(row, q[0], w), MoveToHead(q, w), |row|)
      ensures IsOrder(MoveToHead(q, w), |row|)
    {
    }

    static lemma SplicedSteps(row: seq<Ent>, head: nat, w: nat)
      requires w < |row| && head < |row| && 0 <= row[w].prev < |row| && (row[w].next == NONE || 0 <= row[w].next < |row|)
      ensures var p, n := row[w].prev, row[w].next;
        var r1 := row[p := row[p].(next := n)];
        var r2 := if n != NONE then r1[n := r1[n].(prev := p)] else r1;
        var r3 := r2[w := r2[w].(next := head, prev := NONE)];
        Spliced(row, head, w) == r3[head := r3[head].(prev := w)]
    {
    }

    /** The way that a taken branch is entered in, moved to the head of its list. */
    method TakeWay(s: nat, pc: nat) returns (w: nat, doubled: bool)
      requires Sound() && s < sets
      modifies this`orders, data
      ensures Sound() && (doubled ==> orders == old(orders) && Twice(View().sets[s].ways, pc))
      ensures WaysOf(Row(s)) == old(WaysOf(Row(s)))
      ensures !doubled ==> var f := FindWay(old(WaysOf(Row(s))), pc, 0);
        w == (if f >= 0 then f else old(orders[s][assoc - 1])) && orders == old(orders)[s := MoveToHead(old(orders[s]), w)]
      ensures w < assoc && forall t: nat :: t < sets && t != s ==> Row(t) == old(Row(t))
    {
      assert View().sets[s].ways == WaysOf(Row(s));
      hide FindWay, RowSpells, MoveToHead, Shape;
      HeadStays(orders[s], assoc);
      if assoc > 1 {
        var f, head, tail;
        f, head, tail, doubled := ScanSet(s, pc);
        w := 0;
        if doubled { return; }
        assert f == FindWay(WaysOf(Row(s)), pc, 0);
        w := if f == -1 then tail else f;
        if w != head {
          MoveFront(s, w, head);
        }
      } else {
        OneWayOnly(orders[s], WaysOf(Row(s)), pc);
        w, doubled := 0, false;
      }
      assert orders == old(orders)[s := MoveToHead(old(orders[s]), w)];
    }

    static lemma HeadStays(q: seq<nat>, n: nat)
      requires n > 0 && IsOrder(q, n)
      ensures MoveToHead(q, q[0]) == q
    {
      WithoutAt(q, 0);
    }

    static lemma OneWayOnly(q: seq<nat>, ways: seq<Entry>, pc: nat)
      requires |ways| == 1 && IsOrder(q, 1)
      ensures q[0] == 0 && FindWay(ways, pc, 0) == if ways[0].addr == pc then 0 else -1
    {
    }

    /** The update; `fault` is the failed assertion that a set holds a branch twice. */
    method UpdateTaken(x: Branch, correct: bool) returns (fault: bool)
      requires Sound()
      modifies this`orders, data
      ensures Sound() && (fault ==> exists t: nat :: t < sets && Twice(old(View()).sets[t].ways, x.pc))
      ensures !fault ==> View() == Entering(old(View()), x, correct)
    {
      ghost var b := View();
      var s := x.pc / BR_SHIFT_SIZE % sets;
      hide IsOrder, FindWay, RowSpells, MoveToHead, Shape, Twice;
      var w;
      w, fault := TakeWay(s, x.pc);
      if fault {
        assert b.sets[s].ways == View().sets[s].ways;
        return;
      }
      ghost var row := Row(s);
      assert WaysOf(row) == b.sets[s].ways;
      assert WaysOf(row)[w] == Entry(row[w].addr, row[w].target) && data[s, w] == row[w];
      var e := data[s, w];
      if e.addr == x.pc {
        if !correct { SetEntry(s, w, e.addr, x.npc); }
      } else {
        SetEntry(s, w, x.pc, x.npc);
      }
      assert View().sets[s].ways == Entered(b.sets[s], x, correct).ways;
      assert View().sets == Entering(b, x, correct).sets;
    }

    /** Changes what a way is for, not how it is linked. */
    method SetEntry(s: nat, w: nat, addr: nat, target: nat)
      requires Sound() && s < sets && w < assoc
      modifies data
      ensures Sound() && WaysOf(Row(s)) == old(WaysOf(Row(s)))[w := Entry(addr, target)]
      ensures forall t: nat :: t < sets && t != s ==> Row(t) == old(Row(t))
    {
      ghost var row, q := Row(s), orders[s];
      hide IsOrder;
      assert Linked(s);
      Put(s, w, data[s, w].(addr := addr, target := target));
      assert LinksOf(Row(s), q[0], q[assoc - 1]).next == LinksOf(row, q[0], q[assoc - 1]).next;
      assert LinksOf(Row(s), q[0], q[assoc - 1]).prev == LinksOf(row, q[0], q[assoc - 1]).prev;
      hide Spells;
      forall t: nat | t < sets ensures Linked(t) { assert old(Linked(t)); }
    }

    /** One branch looked up and updated at once; `fault` is the failed assertion. */
    method ExecuteBranch(x: Branch) returns (fault: bool)
      requires Sound()
      modifies this`tos, this`orders, stack, data
      ensures Sound() && (fault ==> exists t: nat :: t < sets && Twice(old(View()).sets[t].ways, x.pc))
      ensures !fault ==> View() == Execute(old(View()), x)
    {
      ghost var b := View();
      var answer, usedStack := Lookup(x);
      SameSets(b, x);
      ExecuteIs(b, x);
      hide IsOrder, Shape, StackAfter, Answer, Twice, Entering, Execute, RowSpells;
      fault := false;
      if !(x.indir && usedStack) && Taken(x) {
        fault := UpdateTaken(x, Correct(answer, x));
      }
    }

    /** A whole run from a new predictor: the assertion never fails. */
    method Simulate(xs: seq<Branch>) returns (fault: bool)
      requires Sound() && View() == Create(sets, assoc, stack.Length) && Lru.WellFormedRun(xs)
      modifies this`tos, this`orders, stack, data
      ensures !fault && Sound() && Shape(old(View())) && View() == Run(old(View()), xs)
    {
      ghost var c, size := View(), stack.Length;
      hide Shape, IsOrder, Execute, Create, RowSpells;
      var i := 0;
      fault := false;
      while i < |xs|
        invariant i <= |xs| && !fault && Sound() && Shape(c) && View() == Run(c, xs[..i])
      {
        var done := xs[..i];
        assert Lru.WellFormedRun(done);
        NeverTwice(sets, assoc, size, done, xs[i].pc);
        assert Lru.WellFormed(xs[i]);
        fault := ExecuteBranch(xs[i]);
        assert xs[..i + 1][..i] == done;
        i := i + 1;
      }
      assert xs[..i] == xs;
    }

    constructor (s: nat, a: nat, size: nat)
      requires s > 0 && a > 0
      ensures fresh(data) && fresh(stack) && Sound() && View() == Create(s, a, size)
      ensures sets == s && assoc == a && stack.Length == size
    {
      sets, assoc := s, a;
      data := new Ent[s, a]((i, w) => Ent(0, 0, if w + 1 < a then w + 1 else NONE, if w > 0 then w - 1 else NONE));
      stack := new nat[size](_ => 0);
      tos := if size > 0 then size - 1 else 0;
      orders := seq(s, _ => Ascending(a));
      new;
      AscendingOrder(a);
      forall t: nat | t < s ensures Linked(t) && WaysOf(Row(t)) == seq(a, _ => Entry(0, 0)) {
        NewRow(Row(t), a);
      }
      assert stack[..] == seq(size, _ => 0);
      assert View().sets == Create(s, a, size).sets;
    }
  }

  lemma NewRow(row: seq<Ent>, a: nat)
    requires a > 0 && |row| == a
    requires forall w: nat :: w < a ==> row[w] == Ent(0, 0, if w + 1 < a then w + 1 else NONE, if w > 0 then w - 1 else NONE)
    ensures RowSpells(row, Ascending(a), a) && WaysOf(row) == seq(a, _ => Entry(0, 0))
  {
    AscendingOrder(a);
    var q := Ascending(a);
    var l := LinksOf(row, q[0], q[a - 1]);
    forall i | 0 <= i < a ensures LinkAt(l, q, i) {
    }
  }

  lemma ExecuteIs(b: Pred, x: Branch)
    requires Shape(b)
    ensures Shape(StackAfter(b, x)) && SetOf(StackAfter(b, x), x.pc) == SetOf(b, x.pc)
    ensures Execute(b, x) ==
      if (x.indir && UsesStack(b, x)) || !Taken(x) then StackAfter(b, x)
      else Entering(StackAfter(b, x), x, Correct(Answer(b, x), x))
  {
    hide Entered, Answer;
  }

  /** In a run no set ever holds a branch twice. */
  lemma NeverTwice(s: nat, a: nat, size: nat, xs: seq<Branch>, pc: nat)
    requires s > 0 && a > 0 && Lru.WellFormedRun(xs)
    ensures Shape(Create(s, a, size))
    ensures var b := Run(Create(s, a, size), xs); pc > 0 ==> forall t: nat :: t < |b.sets| ==> !Twice(b.sets[t].ways, pc)
  {
    Lru.BtbRun(s, a, size, xs);
    var b := Run(Create(s, a, size), xs);
    if pc > 0 {
      forall t: nat | t < |b.sets| ensures !Twice(b.sets[t].ways, pc) {
        Lru.RecentDistinct(xs, s, size, t);
        OnceOnly(b.sets[t], Lru.Recent(xs, s, size, t), Lru.Targets(xs, size), pc, a);
      }
    }
  }

  lemma OnceOnly(cs: BSet, q: seq<nat>, target: nat -> nat, pc: nat, n: nat)
    requires |cs.ways| == n && IsOrder(cs.order, n) && Lru.Carries(cs, q, target) && Distinct(q) && 0 !in q && pc > 0
    ensures !Twice(cs.ways, pc)
  {
    forall i: nat, j: nat | i < j < n ensures !(cs.ways[i].addr == pc && cs.ways[j].addr == pc) {
      if cs.ways[i].addr == cs.ways[j].addr != 0 { Lru.OneWay(cs, q, target, i, j, n); }
    }
  }

  /** Two ways are for the same branch. */
  ghost predicate Twice(ways: seq<Entry>, pc: nat) {
    exists i: nat, j: nat :: i < j < |ways| && ways[i].addr == pc && ways[j].addr == pc
  }

  /** The buffer after a branch is entered. */
  function Entering(b: Pred, x: Branch, correct: bool): Pred
    requires Shape(b)
  {
    var s := SetOf(b, x.pc);
    b.(sets := b.sets[s := Entered(b.sets[s], x, correct)])
  }
}
