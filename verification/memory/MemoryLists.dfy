/** Bucket lists: entries linked by number, one list per bucket. */
module MemoryLists {
  import opened MemoryModel

  const NONE := -1

  /** A page table entry and the next one in its bucket, -1 for none. */
  datatype Node = Node(next: int, tag: nat, page: seq<Byte>)

  /** The heads and nodes, with the entries of each bucket in order and the bucket of each entry. */
  datatype Links = Links(heads: seq<int>, nodes: seq<Node>, chains: seq<seq<nat>>, home: seq<nat>)

  function After(q: seq<nat>, i: nat): int { if i + 1 < |q| then q[i + 1] else NONE }

  predicate LinkAt(nodes: seq<Node>, q: seq<nat>, i: nat) { i < |q| && q[i] < |nodes| && nodes[q[i]].next == After(q, i) }

  /** The list from `first` is `q`. */
  ghost predicate Spells(first: int, nodes: seq<Node>, q: seq<nat>) {
    first == (if q == [] then NONE else q[0]) && forall i :: 0 <= i < |q| ==> LinkAt(nodes, q, i)
  }

  /** The entries of the list are different, and all of them belong to bucket `k`. */
  ghost predicate Owned(home: seq<nat>, q: seq<nat>, k: nat) {
    && (forall i :: 0 <= i < |q| ==> q[i] < |home| && home[q[i]] == k)
    && (forall i, j :: 0 <= i < j < |q| ==> q[i] != q[j])
  }

  ghost predicate Good(s: Links) {
    && |s.heads| == |s.chains| && |s.home| == |s.nodes|
    && (forall k :: 0 <= k < |s.chains| ==> Spells(s.heads[k], s.nodes, s.chains[k]))
    && (forall k :: 0 <= k < |s.chains| ==> Owned(s.home, s.chains[k], k))
  }

  function Value(n: Node): Pte { Pte(n.tag, n.page) }

  ghost function Entries(nodes: seq<Node>, q: seq<nat>): (b: seq<Pte>)
    ensures |b| == |q|
  {
    seq(|q|, i requires 0 <= i < |q| => if q[i] < |nodes| then Value(nodes[q[i]]) else Pte(0, []))
  }

  ghost function Table(s: Links): (t: seq<seq<Pte>>)
    ensures |t| == |s.chains|
  {
    seq(|s.chains|, k requires 0 <= k < |s.chains| => Entries(s.nodes, s.chains[k]))
  }

  /** Entry `w` leaves the place after `prev` and goes to the head of bucket `k`. */
  function Relinked(s: Links, k: nat, prev: nat, w: nat): Links
    requires k < |s.heads| && prev < |s.nodes| && w < |s.nodes|
  {
    var nodes := s.nodes[prev := s.nodes[prev].(next := s.nodes[w].next)];
    s.(nodes := nodes[w := nodes[w].(next := s.heads[k])], heads := s.heads[k := w])
  }

  function Moved(q: seq<nat>, i: nat): (r: seq<nat>)
    requires i < |q|
    ensures |r| == |q| && r[0] == q[i]
  {
    [q[i]] + q[..i] + q[i + 1..]
  }

  lemma RelinkSpells(s: Links, k: nat, i: nat)
    requires Good(s) && k < |s.chains| && 0 < i < |s.chains[k]|
    ensures var q := s.chains[k];
      && q[i - 1] < |s.nodes| && q[i] < |s.nodes|
      && Spells(q[i], Relinked(s, k, q[i - 1], q[i]).nodes, Moved(q, i))
  {
    var q := s.chains[k];
    assert Spells(s.heads[k], s.nodes, q) && Owned(s.home, q, k);
    assert LinkAt(s.nodes, q, i) && LinkAt(s.nodes, q, i - 1);
    var r, m := Moved(q, i), Relinked(s, k, q[i - 1], q[i]).nodes;
    forall j | 0 <= j < |r| ensures LinkAt(m, r, j) {
      var o := if j == 0 then i else if j <= i then j - 1 else j;
      assert r[j] == q[o] && LinkAt(s.nodes, q, o);
    }
  }

  /** Changing the links of entries of one bucket leaves the other lists alone. */
  lemma OtherSpells(s: Links, nodes: seq<Node>, k: nat, l: nat)
    requires Good(s) && k < |s.chains| && l < |s.chains| && l != k && |nodes| >= |s.nodes|
    requires forall w :: 0 <= w < |s.nodes| && s.home[w] != k ==> nodes[w].next == s.nodes[w].next
    ensures Spells(s.heads[l], nodes, s.chains[l])
  {
    var q := s.chains[l];
    assert Spells(s.heads[l], s.nodes, q) && Owned(s.home, q, l);
    forall i | 0 <= i < |q| ensures LinkAt(nodes, q, i) { assert LinkAt(s.nodes, q, i); }
  }

  lemma SameEntries(nodes: seq<Node>, m: seq<Node>, q: seq<nat>)
    requires |m| >= |nodes| && forall w :: 0 <= w < |nodes| ==> Value(m[w]) == Value(nodes[w])
    requires forall i :: 0 <= i < |q| ==> q[i] < |nodes|
    ensures Entries(m, q) == Entries(nodes, q)
  {
  }

  /** Relinking moves the entry to the front of its bucket, and no other entry. */
  lemma RelinkGood(s: Links, k: nat, i: nat)
    requires Good(s) && k < |s.chains| && 0 < i < |s.chains[k]|
    ensures var q := s.chains[k];
      && q[i - 1] < |s.nodes| && q[i] < |s.nodes|
      && var t := Relinked(s, k, q[i - 1], q[i]).(chains := s.chains[k := Moved(q, i)]);
         Good(t) && Table(t) == Table(s)[k := ToFront(Table(s)[k], i)]
  {
    RelinkSpells(s, k, i);
    var q := s.chains[k];
    var t := Relinked(s, k, q[i - 1], q[i]).(chains := s.chains[k := Moved(q, i)]);
    assert Owned(s.home, q, k);
    MovedOwned(s.home, q, k, i);
    hide Moved;
    forall l | 0 <= l < |s.chains| ensures Spells(t.heads[l], t.nodes, t.chains[l]) && Owned(t.home, t.chains[l], l) {
      if l != k { OtherSpells(s, t.nodes, k, l); }
    }
    RelinkTable(s, k, i, t);
  }

  lemma MovedOwned(home: seq<nat>, q: seq<nat>, k: nat, i: nat)
    requires Owned(home, q, k) && i < |q|
    ensures Owned(home, Moved(q, i), k)
  {
    var r := Moved(q, i);
    assert forall j :: 0 <= j < |r| ==> r[j] == q[if j == 0 then i else if j <= i then j - 1 else j];
  }

  lemma RelinkTable(s: Links, k: nat, i: nat, t: Links)
    requires Good(s) && k < |s.chains| && 0 < i < |s.chains[k]| && |t.nodes| == |s.nodes|
    requires forall w :: 0 <= w < |s.nodes| ==> Value(t.nodes[w]) == Value(s.nodes[w])
    requires t.chains == s.chains[k := Moved(s.chains[k], i)]
    ensures Table(t) == Table(s)[k := ToFront(Table(s)[k], i)]
  {
    hide Spells, Moved, ToFront, Value;
    forall l | 0 <= l < |s.chains| ensures Table(t)[l] == Table(s)[k := ToFront(Table(s)[k], i)][l] {
      assert Owned(s.home, s.chains[l], l);
      SameEntries(s.nodes, t.nodes, s.chains[l]);
      if l == k { MovedEntries(t.nodes, s.chains[k], i); }
    }
  }

  lemma MovedEntries(nodes: seq<Node>, q: seq<nat>, i: nat)
    requires i < |q|
    ensures Entries(nodes, Moved(q, i)) == ToFront(Entries(nodes, q), i)
  {
  }

  function Pushed(s: Links, k: nat, tag: nat, page: seq<Byte>): Links
    requires k < |s.heads|
  {
    s.(nodes := s.nodes + [Node(s.heads[k], tag, page)], heads := s.heads[k := |s.nodes|])
  }

  /** A new entry goes to the head of its bucket. */
  lemma PushGood(s: Links, k: nat, tag: nat, page: seq<Byte>)
    requires Good(s) && k < |s.chains|
    ensures var t := Pushed(s, k, tag, page).(chains := s.chains[k := [|s.nodes|] + s.chains[k]], home := s.home + [k]);
      Good(t) && Table(t) == Table(s)[k := [Pte(tag, page)] + Table(s)[k]]
  {
    var q, w := s.chains[k], |s.nodes|;
    var t := Pushed(s, k, tag, page).(chains := s.chains[k := [w] + q], home := s.home + [k]);
    var r := [w] + q;
    assert Spells(s.heads[k], s.nodes, q) && Owned(s.home, q, k);
    forall j | 0 <= j < |r| ensures LinkAt(t.nodes, r, j) {
      if j > 0 { assert r[j] == q[j - 1] && LinkAt(s.nodes, q, j - 1); }
    }
    forall l | 0 <= l < |s.chains| ensures Spells(t.heads[l], t.nodes, t.chains[l]) && Owned(t.home, t.chains[l], l) {
      if l != k { OtherSpells(s, t.nodes, k, l); assert Owned(s.home, s.chains[l], l); }
    }
    forall l | 0 <= l < |s.chains| ensures Table(t)[l] == Table(s)[k := [Pte(tag, page)] + Table(s)[k]][l] {
      assert Owned(s.home, s.chains[l], l);
      SameEntries(s.nodes, t.nodes, s.chains[l]);
      if l == k { assert Entries(t.nodes, r) == [Pte(tag, page)] + Entries(t.nodes, q); }
    }
  }

  /** Filling the first entry of a bucket changes that entry and no other. */
  lemma FillGood(s: Links, k: nat, tag: nat, page: seq<Byte>)
    requires Good(s) && k < |s.chains| && s.chains[k] != []
    ensures s.chains[k][0] < |s.nodes|
    ensures var w := s.chains[k][0];
      var t := s.(nodes := s.nodes[w := s.nodes[w].(tag := tag, page := page)]);
      Good(t) && Table(t) == Table(s)[k := Table(s)[k][0 := Pte(tag, page)]]
  {
    var q := s.chains[k];
    var w := q[0];
    assert Spells(s.heads[k], s.nodes, q) && Owned(s.home, q, k);
    assert LinkAt(s.nodes, q, 0);
    var t := s.(nodes := s.nodes[w := s.nodes[w].(tag := tag, page := page)]);
    forall l | 0 <= l < |s.chains| ensures Spells(t.heads[l], t.nodes, t.chains[l]) {
      var p := s.chains[l];
      assert Spells(s.heads[l], s.nodes, p);
      forall i | 0 <= i < |p| ensures LinkAt(t.nodes, p, i) { assert LinkAt(s.nodes, p, i); }
    }
    forall l | 0 <= l < |s.chains|
      ensures Table(t)[l] == Table(s)[k := Table(s)[k][0 := Pte(tag, page)]][l]
    {
      assert Owned(s.home, s.chains[l], l);
      if l == k {
        assert Entries(t.nodes, q) == Entries(s.nodes, q)[0 := Value(t.nodes[w])];
      } else {
        assert Entries(t.nodes, s.chains[l]) == Entries(s.nodes, s.chains[l]);
      }
    }
  }

  /** The first entry of list `k` goes to the head of list `l`. */
  function Passed(s: Links, k: nat, l: nat): Links
    requires k < |s.heads| && l < |s.heads| && 0 <= s.heads[k] < |s.nodes|
  {
    var w := s.heads[k];
    s.(nodes := s.nodes[w := s.nodes[w].(next := s.heads[l])], heads := s.heads[k := s.nodes[w].next][l := w])
  }

  ghost function PassedAll(s: Links, k: nat, l: nat): Links
    requires k < |s.heads| && l < |s.heads| && |s.chains| == |s.heads| && |s.home| == |s.nodes|
    requires 0 <= s.heads[k] < |s.nodes| && s.chains[k] != []
  {
    var w: nat := s.heads[k];
    Passed(s, k, l).(chains := s.chains[k := s.chains[k][1..]][l := [w] + s.chains[l]], home := s.home[w := l])
  }

  lemma HeadIs(s: Links, k: nat)
    requires Good(s) && k < |s.chains|
    ensures s.heads[k] == if s.chains[k] == [] then NONE else s.chains[k][0]
    ensures s.chains[k] != [] ==> s.chains[k][0] < |s.nodes|
    ensures s.chains[k] != [] ==> s.nodes[s.chains[k][0]].next == if |s.chains[k]| > 1 then s.chains[k][1] else NONE
  {
    assert Spells(s.heads[k], s.nodes, s.chains[k]);
    if s.chains[k] != [] { assert LinkAt(s.nodes, s.chains[k], 0); }
  }

  lemma PassSpells(s: Links, k: nat, l: nat)
    requires Good(s) && k < |s.chains| && l < |s.chains| && k != l && s.chains[k] != []
    ensures 0 <= s.heads[k] < |s.nodes|
    ensures var t := PassedAll(s, k, l);
      Spells(t.heads[k], t.nodes, t.chains[k]) && Spells(t.heads[l], t.nodes, t.chains[l])
  {
    HeadIs(s, k);
    var q, r, w := s.chains[k], s.chains[l], s.chains[k][0];
    assert Spells(s.heads[k], s.nodes, q) && Owned(s.home, q, k);
    assert Spells(s.heads[l], s.nodes, r) && Owned(s.home, r, l);
    var t := PassedAll(s, k, l);
    forall j | 0 <= j < |q| - 1 ensures LinkAt(t.nodes, q[1..], j) { assert LinkAt(s.nodes, q, j + 1); }
    var p := [w] + r;
    forall j | 0 <= j < |p| ensures LinkAt(t.nodes, p, j) {
      if j > 0 { assert p[j] == r[j - 1] && LinkAt(s.nodes, r, j - 1); }
    }
  }

  lemma PassOwned(s: Links, k: nat, l: nat, m: nat)
    requires Good(s) && k < |s.chains| && l < |s.chains| && k != l && m < |s.chains| && s.chains[k] != []
    ensures 0 <= s.heads[k] < |s.nodes| && Owned(PassedAll(s, k, l).home, PassedAll(s, k, l).chains[m], m)
  {
    HeadIs(s, k);
    assert Owned(s.home, s.chains[m], m) && Owned(s.home, s.chains[k], k) && Owned(s.home, s.chains[l], l);
  }

  /** Passing an entry on keeps every list in order: one loses its head, the other gains it. */
  lemma PassGood(s: Links, k: nat, l: nat)
    requires Good(s) && k < |s.chains| && l < |s.chains| && k != l && s.chains[k] != []
    ensures 0 <= s.heads[k] < |s.nodes|
    ensures var t, b := PassedAll(s, k, l), Table(s);
      Good(t) && Table(t) == b[k := b[k][1..]][l := [b[k][0]] + b[l]]
  {
    HeadIs(s, k);
    PassSpells(s, k, l);
    var w, t := s.chains[k][0], PassedAll(s, k, l);
    forall m | 0 <= m < |s.chains| ensures Spells(t.heads[m], t.nodes, t.chains[m]) && Owned(t.home, t.chains[m], m) {
      PassOwned(s, k, l, m);
      if m != k && m != l { PassOther(s, k, l, m); }
    }
    PassTable(s, k, l);
  }

  lemma PassOther(s: Links, k: nat, l: nat, m: nat)
    requires Good(s) && k < |s.chains| && l < |s.chains| && k != l && m < |s.chains| && m != k && m != l && s.chains[k] != []
    ensures 0 <= s.heads[k] < |s.nodes|
    ensures var t := PassedAll(s, k, l); Spells(t.heads[m], t.nodes, t.chains[m])
  {
    HeadIs(s, k);
    assert Owned(s.home, s.chains[k], k);
    OtherSpells(s, Passed(s, k, l).nodes, k, m);
  }

  lemma PassTable(s: Links, k: nat, l: nat)
    requires Good(s) && k < |s.chains| && l < |s.chains| && k != l && s.chains[k] != []
    ensures 0 <= s.heads[k] < |s.nodes|
    ensures var t, b := PassedAll(s, k, l), Table(s); Table(t) == b[k := b[k][1..]][l := [b[k][0]] + b[l]]
  {
    HeadIs(s, k);
    var t, b := PassedAll(s, k, l), Table(s);
    forall m | 0 <= m < |s.chains| ensures Table(t)[m] == b[k := b[k][1..]][l := [b[k][0]] + b[l]][m] {
      assert Owned(s.home, s.chains[m], m);
      SameEntries(s.nodes, t.nodes, s.chains[m]);
      if m == k {
        assert Entries(t.nodes, s.chains[k][1..]) == Entries(s.nodes, s.chains[k])[1..];
      } else if m == l {
        assert Entries(t.nodes, [s.chains[k][0]] + s.chains[l]) == [b[k][0]] + Entries(t.nodes, s.chains[l]);
      }
    }
  }
}
