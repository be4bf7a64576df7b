/** The branch target buffer and the return-address stack of the branch predictor. */
module BtbModel {
  import opened Common
  import opened Orders

  const BR_SHIFT_SIZE: nat := 8
  const INST_SIZE: nat := 8

  /** A way: the branch it is for, 0 while it is unused, and where that branch went. */
  datatype Entry = Entry(addr: nat, target: nat)

  /** `order` is the list of ways from the most to the least recently used. */
  datatype BSet = BSet(ways: seq<Entry>, order: seq<nat>)

  /** `stack` is the ring of return addresses, empty if there is none, with its top at `tos`. */
  datatype Pred = Pred(assoc: nat, sets: seq<BSet>, stack: seq<nat>, tos: nat)

  /** An executed branch: its address, where it went, what kind it is, and what the direction
      predictor says of it. */
  datatype Branch = Branch(pc: nat, npc: nat, uncond: bool, call: bool, ret: bool, indir: bool, dir: bool)

  predicate Taken(x: Branch) { x.npc != x.pc + INST_SIZE }

  predicate PowerOfTwo(n: nat) { n == 1 || (n > 1 && n % 2 == 0 && PowerOfTwo(n / 2)) }

  ghost predicate Shape(b: Pred) {
    && b.assoc > 0 && |b.sets| > 0 && (|b.stack| > 0 ==> b.tos < |b.stack|)
    && forall s :: 0 <= s < |b.sets| ==> |b.sets[s].ways| == b.assoc && IsOrder(b.sets[s].order, b.assoc)
  }

  function SetOf(b: Pred, pc: nat): (s: nat)
    requires |b.sets| > 0
    ensures s < |b.sets|
  {
    pc / BR_SHIFT_SIZE % |b.sets|
  }

  /** The first way from `k` on that is for this branch. */
  function FindWay(ways: seq<Entry>, pc: nat, k: nat): (w: int)
    requires k <= |ways|
    ensures w == -1 || (k <= w < |ways| && ways[w].addr == pc && forall j :: k <= j < w ==> ways[j].addr != pc)
    ensures w == -1 ==> forall j :: k <= j < |ways| ==> ways[j].addr != pc
    decreases |ways| - k
  {
    if k == |ways| then -1 else if ways[k].addr == pc then k else FindWay(ways, pc, k + 1)
  }

  // ----- lookup -----

  predicate UsesStack(b: Pred, x: Branch) { x.ret && |b.stack| > 0 }

  /** The return-address stack after a lookup: returns pop, calls push. */
  function StackAfter(b: Pred, x: Branch): (c: Pred)
    requires Shape(b)
    ensures Shape(c) && c.sets == b.sets && c.assoc == b.assoc && |c.stack| == |b.stack|
  {
    if UsesStack(b, x) then b.(tos := (b.tos + |b.stack| - 1) % |b.stack|)
    else if x.call && |b.stack| > 0 then
      var t := (b.tos + 1) % |b.stack|;
      b.(tos := t, stack := b.stack[t := x.pc + INST_SIZE])
    else b
  }

  /** What the lookup answers: an address, 1 for taken to an unknown address, 0 for not taken. */
  function Answer(b: Pred, x: Branch): nat
    requires Shape(b)
  {
    if UsesStack(b, x) then b.stack[b.tos]
    else
      var ways := b.sets[SetOf(b, x.pc)].ways;
      var w := FindWay(ways, x.pc, 0);
      if !x.uncond && !x.dir then 0 else if w >= 0 then ways[w].target else 1
  }

  /** The next address predicted from an answer. */
  function Predicted(answer: nat, x: Branch): nat { if answer == 0 then x.pc + INST_SIZE else answer }

  predicate Correct(answer: nat, x: Branch) { Predicted(answer, x) == x.npc }

  // ----- update -----

  /** The set after a taken branch: its way, or the least recently used one, moves to the head. */
  function Entered(cs: BSet, x: Branch, correct: bool): (d: BSet)
    requires |cs.ways| > 0 && IsOrder(cs.order, |cs.ways|)
    ensures |d.ways| == |cs.ways|
  {
    var f := FindWay(cs.ways, x.pc, 0);
    var w := if f >= 0 then f else cs.order[|cs.order| - 1];
    var e := cs.ways[w];
    var e1 := if e.addr == x.pc then (if correct then e else e.(target := x.npc)) else Entry(x.pc, x.npc);
    BSet(cs.ways[w := e1], MoveToHead(cs.order, w))
  }

  /** A return that used the stack changes nothing more; neither does a branch not taken. */
  function Update(b: Pred, x: Branch, usedStack: bool, correct: bool): (c: Pred)
    requires Shape(b)
    ensures Shape(c) && c.assoc == b.assoc && |c.sets| == |b.sets| && c.stack == b.stack && c.tos == b.tos
  {
    if (x.indir && usedStack) || !Taken(x) then b
    else
      var s := SetOf(b, x.pc);
      var d := Entered(b.sets[s], x, correct);
      var f := FindWay(b.sets[s].ways, x.pc, 0);
      MoveFacts(b.sets[s].order, b.assoc, if f >= 0 then f else b.sets[s].order[b.assoc - 1]);
      b.(sets := b.sets[s := d])
  }

  /** One branch of the run: looked up, then updated at once. */
  function Execute(b: Pred, x: Branch): (c: Pred)
    requires Shape(b)
    ensures Shape(c) && c.assoc == b.assoc && |c.sets| == |b.sets| && |c.stack| == |b.stack|
  {
    Update(StackAfter(b, x), x, UsesStack(b, x), Correct(Answer(b, x), x))
  }

  function Ascending(n: nat): (q: seq<nat>)
    ensures |q| == n && forall i :: 0 <= i < n ==> q[i] == i
  {
    seq(n, i requires 0 <= i < n => i)
  }

  function Create(sets: nat, assoc: nat, size: nat): Pred {
    Pred(assoc, seq(sets, _ => BSet(seq(assoc, _ => Entry(0, 0)), Ascending(assoc))), seq(size, _ => 0), if size > 0 then size - 1 else 0)
  }

  lemma AscendingOrder(n: nat)
    ensures IsOrder(Ascending(n), n)
  {
    var q := Ascending(n);
    forall w | 0 <= w < n ensures w in q { assert q[w] == w; }
  }

  lemma CreateShape(sets: nat, assoc: nat, size: nat)
    requires sets > 0 && assoc > 0
    ensures Shape(Create(sets, assoc, size))
  {
    AscendingOrder(assoc);
  }

  /** Where the run stands after its first branches. */
  function Run(b: Pred, xs: seq<Branch>): (c: Pred)
    requires Shape(b)
    ensures Shape(c) && c.assoc == b.assoc && |c.sets| == |b.sets| && |c.stack| == |b.stack|
  {
    if xs == [] then b else Execute(Run(b, xs[..|xs| - 1]), xs[|xs| - 1])
  }
}
