/** Orders kept as doubly linked lists. A link is a member's number, or -1 for none. */
module LinkedOrders {
  import opened Orders

  const NONE := -1

  // ----- doubly linked way list -----

  datatype Links = Links(head: int, tail: int, next: seq<int>, prev: seq<int>)

  function After(q: seq<nat>, i: nat): int { if i + 1 < |q| then q[i + 1] else NONE }
  function Before(q: seq<nat>, i: nat): int { if 0 < i <= |q| then q[i - 1] else NONE }

  /** Head, tail and links spell out `q`. */
  ghost predicate Spells(l: Links, q: seq<nat>, n: nat) {
    && |l.next| == |l.prev| == n && InWays(q, n) && q != [] && l.head == q[0] && l.tail == q[|q| - 1]
    && forall i :: 0 <= i < |q| ==> LinkAt(l, q, i)
  }

  /** The links of the way at position `i`. */
  ghost predicate LinkAt(l: Links, q: seq<nat>, i: nat) {
    i < |q| && q[i] < |l.next| == |l.prev| && l.next[q[i]] == After(q, i) && l.prev[q[i]] == Before(q, i)
  }

  function SetNext(l: Links, w: int, v: int): Links
  {
    if 0 <= w < |l.next| then l.(next := l.next[w := v]) else l
  }

  function SetPrev(l: Links, w: int, v: int): Links
  {
    if 0 <= w < |l.prev| then l.(prev := l.prev[w := v]) else l
  }

  /** Whether the way is already where it should go. */
  predicate InPlace(l: Links, w: nat, toHead: bool)
    requires w < |l.next| == |l.prev|
  {
    if toHead then l.prev[w] == NONE else l.next[w] == NONE
  }

  /** Takes the way out: its neighbours, or head or tail, close the gap. */
  function Bypass(l: Links, w: nat): Links
    requires w < |l.next| == |l.prev|
  {
    var p, n := l.prev[w], l.next[w];
    if p == NONE then SetPrev(l.(head := n), n, NONE)
    else if n == NONE then SetNext(l.(tail := p), p, NONE)
    else SetPrev(SetNext(l, p, n), n, p)
  }

  /** Links the way in at the head or the tail. */
  function LinkIn(l: Links, w: nat, toHead: bool): Links
    requires w < |l.next| == |l.prev|
  {
    if toHead then SetPrev(SetPrev(SetNext(l, w, l.head), w, NONE), l.head, w).(head := w)
    else SetNext(SetNext(SetPrev(l, w, l.tail), w, NONE), l.tail, w).(tail := w)
  }

  function MoveLinks(l: Links, w: nat, toHead: bool): Links
    requires w < |l.next| == |l.prev|
  {
    if InPlace(l, w, toHead) then l else LinkIn(Bypass(l, w), w, toHead)
  }

  lemma BypassSpells(l: Links, q: seq<nat>, n: nat, i: nat)
    requires Spells(l, q, n) && Distinct(q) && i < |q| && |q| > 1
    ensures Spells(Bypass(l, q[i]), q[..i] + q[i + 1..], n)
  {
    var r, m := q[..i] + q[i + 1..], Bypass(l, q[i]);
    assert LinkAt(l, q, i);
    forall j | 0 <= j < |r| ensures LinkAt(m, r, j) {
      var k := if j < i then j else j + 1;
      assert r[j] == q[k] && LinkAt(l, q, k);
    }
    if i == 0 {
      assert r == q[1..];
    } else if i == |q| - 1 {
      assert r == q[..i];
    }
  }

  lemma LinkInSpells(l: Links, r: seq<nat>, n: nat, w: nat, toHead: bool)
    requires Spells(l, r, n) && w < n && w !in r && Distinct(r)
    ensures Spells(LinkIn(l, w, toHead), if toHead then [w] + r else r + [w], n)
  {
    if toHead {
      LinkInHead(l, r, n, w);
    } else {
      LinkInTail(l, r, n, w);
    }
  }

  lemma LinkInHead(l: Links, r: seq<nat>, n: nat, w: nat)
    requires Spells(l, r, n) && w < n && w !in r && Distinct(r)
    ensures Spells(LinkIn(l, w, true), [w] + r, n)
  {
    var m, q := LinkIn(l, w, true), [w] + r;
    assert r[0] in r;
    assert m == l.(head := w, next := l.next[w := r[0]], prev := l.prev[w := NONE][r[0] := w]);
    forall j | 0 <= j < |q| ensures LinkAt(m, q, j) {
      if j > 0 {
        assert q[j] == r[j - 1] && r[j - 1] in r && LinkAt(l, r, j - 1);
      }
    }
  }

  lemma LinkInTail(l: Links, r: seq<nat>, n: nat, w: nat)
    requires Spells(l, r, n) && w < n && w !in r && Distinct(r)
    ensures Spells(LinkIn(l, w, false), r + [w], n)
  {
    var m, q, t := LinkIn(l, w, false), r + [w], r[|r| - 1];
    assert t in r;
    assert m == l.(tail := w, prev := l.prev[w := t], next := l.next[w := NONE][t := w]);
    forall j | 0 <= j < |q| ensures LinkAt(m, q, j) {
      if j < |r| {
        assert q[j] == r[j] && r[j] in r && LinkAt(l, r, j);
      }
    }
  }

  lemma InPlaceAt(l: Links, q: seq<nat>, n: nat, i: nat, toHead: bool)
    requires Spells(l, q, n) && i < |q|
    ensures q[i] < |l.next| == |l.prev| && (InPlace(l, q[i], toHead) <==> i == if toHead then 0 else |q| - 1)
  {
    assert LinkAt(l, q, i);
  }

  lemma MoveAt(l: Links, q: seq<nat>, n: nat, i: nat, toHead: bool)
    requires Spells(l, q, n) && Distinct(q) && i < |q|
    ensures var r := q[..i] + q[i + 1..];
            q[i] < |l.next| == |l.prev| && Spells(MoveLinks(l, q[i], toHead), if toHead then [q[i]] + r else r + [q[i]], n)
  {
    var r, w := q[..i] + q[i + 1..], q[i];
    InPlaceAt(l, q, n, i, toHead);
    assert w !in r && Distinct(r);
    hide Spells, Bypass, LinkIn, InPlace;
    if i == (if toHead then 0 else |q| - 1) {
      assert q == if toHead then [w] + r else r + [w];
    } else {
      BypassSpells(l, q, n, i);
      BypassSize(l, w, n);
      LinkInSpells(Bypass(l, w), r, n, w, toHead);
    }
  }

  lemma BypassSize(l: Links, w: nat, n: nat)
    requires w < |l.next| == |l.prev|
    ensures |Bypass(l, w).next| == |Bypass(l, w).prev| == |l.next|
  {
  }

  /** Relinking a way moves it in the order that the links spell out. */
  lemma MoveSpells(l: Links, q: seq<nat>, n: nat, w: nat, toHead: bool)
    requires Spells(l, q, n) && IsOrder(q, n) && w < n
    ensures w < |l.next| == |l.prev| && Spells(MoveLinks(l, w, toHead), if toHead then MoveToHead(q, w) else MoveToTail(q, w), n)
  {
    assert w in q;
    var i: nat :| 0 <= i < |q| && q[i] == w;
    hide Spells, MoveLinks;
    WithoutAt(q, i);
    MoveAt(l, q, n, i, toHead);
  }
}
