/** The consumer links of the machine as a bag of numbers, one for each operand of an
    instance: no two links are made for the same operand, so the bag has no duplicates. */
module RuuChainCodes {
  import opened RuuTypes
  import opened RuuInvariants

  /** The operand a link was made for: its instance and its operand number. */
  function Code(l: Link): nat { 3 * l.inst + l.x }

  function Codes(q: seq<Link>): multiset<nat> {
    if q == [] then multiset{} else multiset{Code(q[0])} + Codes(q[1..])
  }

  function StationCodes(s: Station): multiset<nat> { Codes(s.odeps.a) + Codes(s.odeps.b) }

  function ChainCodes(st: seq<Station>): multiset<nat> {
    if st == [] then multiset{} else ChainCodes(st[..|st| - 1]) + StationCodes(st[|st| - 1])
  }

  lemma {:induction false} CodesSize(q: seq<Link>)
    ensures |Codes(q)| == |Ids(q)| == |q|
  {
    if q != [] {
      CodesSize(q[1..]);
    }
  }

  lemma {:induction false} ChainCodesSize(st: seq<Station>)
    ensures |ChainCodes(st)| == |ChainIds(st)|
  {
    if st != [] {
      var s := st[|st| - 1];
      ChainCodesSize(st[..|st| - 1]);
      CodesSize(s.odeps.a);
      CodesSize(s.odeps.b);
    }
  }

  lemma CodesHead(q: seq<Link>)
    requires q != []
    ensures Codes(q) == Codes(q[1..]) + multiset{Code(q[0])}
  {
    var r := Codes(q[1..]);
    assert Codes(q) == multiset{Code(q[0])} + r;
    hide Codes;
  }

  lemma CodesPush(l: Link, q: seq<Link>)
    ensures Codes([l] + q) == Codes(q) + multiset{Code(l)}
  {
    assert ([l] + q)[1..] == q;
    CodesHead([l] + q);
  }

  lemma {:induction false} CodeIn(q: seq<Link>, k: nat)
    ensures k in Codes(q) <==> exists l :: l in q && Code(l) == k
  {
    if q != [] {
      CodeIn(q[1..], k);
      assert q == [q[0]] + q[1..];
    }
  }

  lemma {:induction false} ChainCodeIn(st: seq<Station>, k: nat) returns (p: nat)
    requires k in ChainCodes(st)
    ensures p < |st| && k in StationCodes(st[p])
  {
    var n := |st| - 1;
    if k in StationCodes(st[n]) {
      p := n;
    } else {
      p := ChainCodeIn(st[..n], k);
    }
  }

  /** The bag when one station is replaced, number by number. */
  lemma {:induction false} ChainCodesAt(st: seq<Station>, x: nat, s: Station, k: nat)
    requires x < |st|
    ensures ChainCodes(st[x := s])[k] + StationCodes(st[x])[k] == ChainCodes(st)[k] + StationCodes(s)[k]
  {
    hide StationCodes;
    var n := |st| - 1;
    var t, pre := st[x := s], st[..n];
    if x == n {
      assert t[..n] == pre;
    } else {
      assert t[..n] == pre[x := s];
      ChainCodesAt(pre, x, s, k);
    }
  }

  /** Station by station no chain has gained a link. */
  lemma {:induction false} FewerCodes(st: seq<Station>, tt: seq<Station>, k: nat)
    requires |tt| == |st| && forall p :: 0 <= p < |st| ==> StationCodes(tt[p]) <= StationCodes(st[p])
    ensures ChainCodes(tt)[k] <= ChainCodes(st)[k]
  {
    if st != [] {
      hide StationCodes;
      var n := |st| - 1;
      FewerCodes(st[..n], tt[..n], k);
      assert StationCodes(tt[n]) <= StationCodes(st[n]);
    }
  }
}
