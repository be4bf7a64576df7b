/** Orders: lists of different numbers, an order of all numbers below n, and moving a member
    to one end. */
module Orders {

  predicate InWays(list: seq<nat>, n: nat) { forall i :: 0 <= i < |list| ==> list[i] < n }

  function Without(q: seq<nat>, w: nat): seq<nat> {
    if q == [] then [] else (if q[0] == w then [] else [q[0]]) + Without(q[1..], w)
  }

  function MoveToHead(q: seq<nat>, w: nat): seq<nat> { [w] + Without(q, w) }
  function MoveToTail(q: seq<nat>, w: nat): seq<nat> { Without(q, w) + [w] }

  predicate Distinct(q: seq<nat>) { forall i, j :: 0 <= i < j < |q| ==> q[i] != q[j] }

  /** A permutation of the ways. */
  predicate IsOrder(q: seq<nat>, n: nat) {
    |q| == n && InWays(q, n) && Distinct(q) && forall w :: 0 <= w < n ==> w in q
  }

  lemma {:induction false} WithoutFacts(q: seq<nat>, w: nat)
    requires Distinct(q)
    ensures Distinct(Without(q, w)) && (forall x :: x in Without(q, w) <==> x in q && x != w)
    ensures |Without(q, w)| == if w in q then |q| - 1 else |q|
  {
    if q != [] {
      WithoutFacts(q[1..], w);
      var r := Without(q[1..], w);
      assert q == [q[0]] + q[1..];
      assert q[0] !in q[1..];
      if q[0] != w {
        assert Without(q, w) == [q[0]] + r;
        PrependDistinct(q[0], r);
      }
    }
  }

  lemma PrependDistinct(x: nat, q: seq<nat>)
    requires Distinct(q) && x !in q
    ensures Distinct([x] + q)
  {
  }

  lemma AppendDistinct(q: seq<nat>, x: nat)
    requires Distinct(q) && x !in q
    ensures Distinct(q + [x])
  {
  }

  lemma MoveFacts(q: seq<nat>, n: nat, w: nat)
    requires IsOrder(q, n) && w < n
    ensures IsOrder(MoveToHead(q, w), n) && IsOrder(MoveToTail(q, w), n)
  {
    WithoutFacts(q, w);
    var r := Without(q, w);
    PrependDistinct(w, r);
    AppendDistinct(r, w);
    forall i | 0 <= i < |r| ensures r[i] < n {
      assert r[i] in r;
    }
  }

  /** The members used so far, most recent first, each once. */
  function Use(stack: seq<nat>, tag: nat): seq<nat> { [tag] + Without(stack, tag) }

  lemma {:induction false} WithoutAt(q: seq<nat>, i: nat)
    requires Distinct(q) && i < |q|
    ensures Without(q, q[i]) == q[..i] + q[i + 1..]
  {
    if i == 0 {
      WithoutAbsent(q[1..], q[0]);
    } else {
      WithoutAt(q[1..], i - 1);
      assert q[1..][..i - 1] == q[1..i] && q[1..][i..] == q[i + 1..];
      assert q[..i] == [q[0]] + q[1..i];
    }
  }

  lemma {:induction false} WithoutAbsent(q: seq<nat>, w: nat)
    requires w !in q
    ensures Without(q, w) == q
  {
    if q != [] {
      WithoutAbsent(q[1..], w);
    }
  }

  lemma UseDistinct(stack: seq<nat>, tag: nat)
    requires Distinct(stack)
    ensures Distinct(Use(stack, tag))
  {
    WithoutFacts(stack, tag);
    PrependDistinct(tag, Without(stack, tag));
  }

  /** A member that is not among the first `n` pushes these one place down. */
  lemma UseKeepsFirst(stack: seq<nat>, tag: nat, n: nat)
    requires Distinct(stack) && n > 0 && forall j :: 0 <= j < |stack| && j < n ==> stack[j] != tag
    ensures var u := Use(stack, tag);
      && u[0] == tag && (|u| == |stack| + 1 || (|stack| >= n && |u| >= n))
      && (forall i :: 0 < i < n && i < |u| ==> u[i] == stack[i - 1])
  {
    if tag in stack {
      var j :| 0 <= j < |stack| && stack[j] == tag;
      WithoutAt(stack, j);
    } else {
      WithoutAbsent(stack, tag);
    }
  }
}
