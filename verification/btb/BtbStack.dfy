/** The return-address stack predicts the matching call, as deep as it has entries. */
module BtbStack {
  import opened Orders
  import opened BtbModel

  predicate Pops(x: Branch) { x.ret }
  predicate Pushes(x: Branch) { !x.ret && x.call }

  /** The return addresses of the calls not returned from, the last one last. */
  function OpenCalls(xs: seq<Branch>): seq<nat> {
    if xs == [] then []
    else
      var x, q := xs[|xs| - 1], OpenCalls(xs[..|xs| - 1]);
      if Pops(x) then (if q == [] then [] else q[..|q| - 1])
      else if Pushes(x) then q + [x.pc + INST_SIZE] else q
  }

  /** How many of the last open calls a ring of `size` entries still holds. */
  function Intact(xs: seq<Branch>, size: nat): (n: nat)
    ensures n <= size
  {
    if xs == [] then 0
    else
      var x, n := xs[|xs| - 1], Intact(xs[..|xs| - 1], size);
      if Pops(x) then (if n > 0 then n - 1 else 0)
      else if Pushes(x) then (if n < size then n + 1 else n) else n
  }

  /** The ring index `i` places below the top. */
  function Below(tos: nat, size: nat, i: nat): int { if i <= tos then tos - i else tos + size - i }

  ghost predicate RingHolds(b: Pred, open: seq<nat>, n: nat)
    requires Shape(b)
  {
    && n <= |open| && n <= |b.stack|
    && forall i: nat :: i < n ==> b.stack[Below(b.tos, |b.stack|, i)] == open[|open| - 1 - i]
  }

  lemma PushHolds(b: Pred, x: Branch, open: seq<nat>, n: nat)
    requires Shape(b) && |b.stack| > 0 && Pushes(x) && RingHolds(b, open, n)
    ensures RingHolds(StackAfter(b, x), open + [x.pc + INST_SIZE], if n < |b.stack| then n + 1 else n)
  {
    var c, p, size := StackAfter(b, x), open + [x.pc + INST_SIZE], |b.stack|;
    NextTop(b.tos, size);
    forall i: nat | i < (if n < size then n + 1 else n)
      ensures c.stack[Below(c.tos, size, i)] == p[|p| - 1 - i]
    {
      if i > 0 {
        assert Below(c.tos, size, i) == Below(b.tos, size, i - 1);
      }
    }
  }

  lemma NextTop(t: nat, size: nat)
    requires t < size
    ensures (t + 1) % size == if t + 1 == size then 0 else t + 1
    ensures (t + size - 1) % size == if t == 0 then size - 1 else t - 1
  {
    if t > 0 {
      var u := t - 1;
      assert t + size - 1 == u + size;
      AddMod(u, size);
    }
  }

  lemma AddMod(u: nat, size: nat)
    requires u < size
    ensures (u + size) % size == u
  {
  }

  lemma PopHolds(b: Pred, x: Branch, open: seq<nat>, n: nat)
    requires Shape(b) && |b.stack| > 0 && Pops(x) && RingHolds(b, open, n)
    ensures RingHolds(StackAfter(b, x), if open == [] then [] else open[..|open| - 1], if n > 0 then n - 1 else 0)
    ensures n > 0 ==> open != [] && Answer(b, x) == open[|open| - 1]
  {
    var c, size := StackAfter(b, x), |b.stack|;
    NextTop(b.tos, size);
    if n > 0 {
      assert b.stack[Below(b.tos, size, 0)] == open[|open| - 1];
      var p := open[..|open| - 1];
      forall i: nat | i < n - 1 ensures c.stack[Below(c.tos, size, i)] == p[|p| - 1 - i] {
        assert Below(c.tos, size, i) == Below(b.tos, size, i + 1);
      }
    }
  }

  /** Updates leave the ring alone. */
  lemma ExecuteRing(b: Pred, x: Branch, open: seq<nat>, n: nat)
    requires Shape(b) && RingHolds(StackAfter(b, x), open, n)
    ensures RingHolds(Execute(b, x), open, n)
  {
  }

  lemma QuietHolds(b: Pred, x: Branch, open: seq<nat>, n: nat)
    requires Shape(b) && |b.stack| > 0 && !Pops(x) && !Pushes(x) && RingHolds(b, open, n)
    ensures RingHolds(StackAfter(b, x), open, n)
  {
  }

  lemma {:induction false} RingRun(b: Pred, xs: seq<Branch>)
    requires Shape(b) && |b.stack| > 0
    ensures RingHolds(Run(b, xs), OpenCalls(xs), Intact(xs, |b.stack|))
  {
    hide RingHolds, Execute, StackAfter, Shape;
    if xs == [] {
      NoneHeld(b);
    } else {
      var rest, x := xs[..|xs| - 1], xs[|xs| - 1];
      RingRun(b, rest);
      var c, open, n := Run(b, rest), OpenCalls(rest), Intact(rest, |b.stack|);
      if Pops(x) {
        PopHolds(c, x, open, n);
      } else if Pushes(x) {
        PushHolds(c, x, open, n);
      } else {
        QuietHolds(c, x, open, n);
      }
      ExecuteRing(c, x, OpenCalls(xs), Intact(xs, |b.stack|));
    }
  }

  lemma NoneHeld(b: Pred)
    requires Shape(b)
    ensures RingHolds(b, [], 0)
  {
  }

  // ----- nested calls -----

  /** Calls minus returns. */
  function Depth(w: seq<Branch>): int {
    if w == [] then 0
    else Depth(w[..|w| - 1]) + if Pops(w[|w| - 1]) then -1 else if Pushes(w[|w| - 1]) then 1 else 0
  }

  /** Within `w` no more returns than calls come first, and never more than `room` calls are open. */
  predicate Nested(w: seq<Branch>, room: int) {
    0 <= Depth(w) <= room && (w == [] || Nested(w[..|w| - 1], room))
  }

  /** While nested calls come and go, the call before them stays open, and in the ring. */
  lemma {:induction false} CallStaysOpen(xs: seq<Branch>, call: Branch, w: seq<Branch>, size: nat)
    requires size > 0 && Pushes(call) && Nested(w, size - 1)
    ensures var ys := xs + [call] + w;
      && Intact(ys, size) >= 1 + Depth(w)
      && |OpenCalls(ys)| == |OpenCalls(xs)| + 1 + Depth(w) && OpenCalls(ys)[|OpenCalls(xs)|] == call.pc + INST_SIZE
    decreases |w|
  {
    var ys := xs + [call] + w;
    if w == [] {
      assert ys == xs + [call] && ys[..|ys| - 1] == xs;
    } else {
      CallStaysOpen(xs, call, w[..|w| - 1], size);
      assert ys[..|ys| - 1] == xs + [call] + w[..|w| - 1];
      assert ys[|ys| - 1] == w[|w| - 1];
    }
  }

  /** A return is predicted to go behind its call, whatever came before it and however calls were
      nested in between, as long as fewer than `size` of them were open at once. */
  lemma ReturnMatchesCall(b: Pred, xs: seq<Branch>, call: Branch, w: seq<Branch>, x: Branch)
    requires Shape(b) && |b.stack| > 0 && Pushes(call) && Pops(x) && Nested(w, |b.stack| - 1) && Depth(w) == 0
    ensures Answer(Run(b, xs + [call] + w), x) == call.pc + INST_SIZE
  {
    hide Run, OpenCalls, Intact, Answer, RingHolds, Nested, StackAfter, Shape;
    var ys := xs + [call] + w;
    CallStaysOpen(xs, call, w, |b.stack|);
    RingRun(b, ys);
    PopHolds(Run(b, ys), x, OpenCalls(ys), Intact(ys, |b.stack|));
  }
}
