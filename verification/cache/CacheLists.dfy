/** The hash buckets of a set as singly linked lists. */
module CacheLists {
  import opened Common
  import opened LinkedOrders
  import opened Orders
  import opened CacheModel
  import opened CacheStore

  // ----- singly linked hash bucket -----

  datatype Bucket = Bucket(first: int, next: seq<int>)

  /** The bucket is the list `q`; `next` is shared by the buckets of a set. */
  ghost predicate Chain(first: int, next: seq<int>, q: seq<nat>) {
    && InWays(q, |next|) && first == (if q == [] then NONE else q[0])
    && forall i :: 0 <= i < |q| ==> NextAt(next, q, i)
  }

  ghost predicate NextAt(next: seq<int>, q: seq<nat>, i: nat) {
    i < |q| && q[i] < |next| && next[q[i]] == After(q, i)
  }

  lemma PushChain(first: int, next: seq<int>, q: seq<nat>, w: nat)
    requires Chain(first, next, q) && w < |next| && w !in q
    ensures Chain(w, next[w := first], [w] + q)
  {
    var p, m := [w] + q, next[w := first];
    forall i | 0 <= i < |p| ensures NextAt(m, p, i) {
      if i > 0 {
        assert p[i] == q[i - 1] && q[i - 1] in q && NextAt(next, q, i - 1);
      }
    }
  }

  lemma OtherChain(first: int, next: seq<int>, q: seq<nat>, w: nat, v: int)
    requires Chain(first, next, q) && w < |next| && w !in q
    ensures Chain(first, next[w := v], q)
  {
    var m := next[w := v];
    forall i | 0 <= i < |q| ensures NextAt(m, q, i) {
      assert q[i] in q && NextAt(next, q, i);
    }
  }

  /** The chain without its entry `i`: the entry before it, or the bucket, skips it. */
  lemma CutChain(first: int, next: seq<int>, q: seq<nat>, i: nat)
    requires Chain(first, next, q) && Distinct(q) && i < |q|
    ensures var w := q[i];
            if i == 0 then Chain(next[w], next[w := NONE], q[1..])
            else Chain(first, next[q[i - 1] := next[w]][w := NONE], q[..i] + q[i + 1..])
  {
    var w := q[i];
    assert NextAt(next, q, i);
    var r := if i == 0 then q[1..] else q[..i] + q[i + 1..];
    var m := if i == 0 then next[w := NONE] else next[q[i - 1] := next[w]][w := NONE];
    forall j | 0 <= j < |r| ensures NextAt(m, r, j) {
      var k := if j < i then j else j + 1;
      assert r[j] == q[k] && NextAt(next, q, k);
    }
  }
}
