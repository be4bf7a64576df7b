/** Finite sets of sequence numbers: how far apart their members can be. */
module RuuNumberSets {

  /** No member of `s` lies between `a` and `n`, or at `n`. */
  ghost predicate Alone(s: set<nat>, a: nat, n: nat) {
    a in s && a < n && forall k: nat :: a < k <= n ==> k !in s
  }

  /** Up to `top` no member has more than `g` numbers behind it before the next. */
  ghost predicate Gaps(s: set<nat>, top: nat, g: nat) {
    forall a: nat, n: nat :: Alone(s, a, n) && n <= top ==> n <= a + g
  }

  ghost predicate Above(f: set<nat>, n: nat) {
    forall a: nat :: a in f ==> a < n
  }

  /** Every number above all of `f`, up to `top`, is in `s`. */
  ghost predicate Dense(s: set<nat>, f: set<nat>, top: nat) {
    forall n: nat :: Above(f, n) && n <= top ==> n in s
  }

  ghost predicate AllBefore(s: set<nat>, t: set<nat>) {
    forall a: nat, b: nat :: a in s && b in t ==> a < b
  }

  // ----- the smallest leave -----

  lemma DropGaps(s: set<nat>, t: set<nat>, top: nat, g: nat)
    requires t <= s && AllBefore(s - t, t) && Gaps(s, top, g)
    ensures Gaps(t, top, g)
  {
    forall a: nat, n: nat | Alone(t, a, n) && n <= top ensures n <= a + g {
      assert forall k: nat :: a < k <= n && k in s ==> k in s - t;
      assert Alone(s, a, n);
    }
  }

  lemma DropDense(s: set<nat>, t: set<nat>, f: set<nat>, e: set<nat>, top: nat)
    requires t <= s && e <= f && e <= t && e != {} && f - e <= s - t && AllBefore(s - t, t) && Dense(s, f, top)
    ensures Dense(t, e, top)
  {
    var b :| b in e;
    forall n: nat | Above(e, n) && n <= top ensures n in t {
      forall a: nat | a in f ensures a < n {
        if a !in e {
          assert a in s - t && b in t;
        }
      }
      assert Above(f, n);
      assert n in s && b in t && b < n;
      assert n in s - t ==> n < b;
    }
  }

  // ----- a new one -----

  lemma AddGaps(s: set<nat>, top: nat, g: nat)
    requires (forall a :: a in s ==> a <= top) && Gaps(s, top, g)
    ensures Gaps(s + {top + 1}, top + 1, g)
  {
    var t := s + {top + 1};
    forall a: nat, n: nat | Alone(t, a, n) && n <= top + 1 ensures n <= a + g {
      assert top + 1 in t;
      assert n <= top && a in s;
      assert Alone(s, a, n);
    }
  }

  /** One or two new numbers, in a row. */
  lemma ExtendGaps(s: set<nat>, top: nat, m: nat, g: nat)
    requires (forall a :: a in s ==> a <= top) && Gaps(s, top, g) && (m == top + 1 || m == top + 2)
    ensures Gaps(s + {top + 1, m}, m, g)
  {
    AddGaps(s, top, g);
    if m == top + 1 {
      assert s + {top + 1, m} == s + {top + 1};
    } else {
      AddGaps(s + {top + 1}, top + 1, g);
      assert s + {top + 1, m} == s + {top + 1} + {top + 2};
    }
  }

  lemma ExtendDense(s: set<nat>, f: set<nat>, top: nat, m: nat)
    requires Dense(s, f, top) && (m == top + 1 || m == top + 2)
    ensures Dense(s + {top + 1, m}, f, m)
  {
  }

  lemma TopDense(s: set<nat>, f: set<nat>, top: nat)
    requires top in f
    ensures Dense(s, f, top)
  {
  }

  // ----- all but `f` leave, from the top -----

  lemma RecoverGaps(s: set<nat>, f: set<nat>, top: nat, g: nat)
    requires f <= s && AllBefore(f, s - f) && |s| <= g + 1 && Gaps(s, top, g) && Dense(s, f, top)
    ensures Gaps(f, top, g)
  {
    forall a: nat, n: nat | Alone(f, a, n) && n <= top ensures n <= a + g {
      if w: nat :| w in f && w >= n {
        assert forall k: nat :: a < k <= n && k in s ==> k in s - f;
        assert Alone(s, a, n);
      } else {
        forall m: nat | a < m <= n ensures m in s {
          assert Above(f, m);
        }
        Fills(s - {a}, a, n);
      }
    }
  }

  /** A set with every number of an interval is as large. */
  lemma {:induction false} Fills(s: set<nat>, a: nat, n: nat)
    requires a <= n && forall m: nat :: a < m <= n ==> m in s
    ensures n - a <= |s|
    decreases n - a
  {
    if a < n {
      Fills(s - {n}, a, n - 1);
    }
  }

  // ----- how far the members reach -----

  ghost predicate Near(s: set<nat>, n: nat, g: nat) {
    exists a: nat :: a in s && a <= n <= a + g
  }

  /** The largest member up to `n`. */
  lemma {:induction false} Nearest(s: set<nat>, lo: nat, n: nat) returns (a: nat)
    requires lo in s && lo <= n
    ensures a in s && lo <= a <= n && (a == n || Alone(s, a, n))
    decreases n - lo
  {
    if n in s {
      a := n;
    } else {
      a := Nearest(s, lo, n - 1);
    }
  }

  lemma {:induction false} Reach(s: set<nat>, lo: nat, top: nat, g: nat)
    requires lo <= top + 1 && forall n: nat :: lo <= n <= top ==> Near(s, n, g)
    ensures top + 1 - lo <= |s| * (g + 1)
    decreases |s|
  {
    if lo <= top {
      assert Near(s, top, g);
      var a: nat :| a in s && a <= top <= a + g;
      var t := s - {a};
      assert |t| == |s| - 1;
      if a <= lo {
        Times(|s|, g + 1);
      } else {
        forall n: nat | lo <= n <= a - 1 ensures Near(t, n, g) {
          assert Near(s, n, g);
          var b: nat :| b in s && b <= n <= b + g;
          assert b in t;
        }
        Reach(t, lo, a - 1, g);
        assert |s| * (g + 1) == |t| * (g + 1) + (g + 1);
      }
    }
  }

  lemma Times(n: nat, k: nat)
    requires n > 0
    ensures k <= n * k
  {
  }

  /** The numbers from a member on, up to `top`, are at most `|s|` times `g + 1`. */
  lemma Span(s: set<nat>, lo: nat, top: nat, g: nat)
    requires lo in s && lo <= top && Gaps(s, top, g)
    ensures top + 1 - lo <= |s| * (g + 1)
  {
    forall n: nat | lo <= n <= top ensures Near(s, n, g) {
      var a := Nearest(s, lo, n);
      assert a in s && a <= n <= a + g;
    }
    Reach(s, lo, top, g);
  }

  /** A bag without duplicates, all of whose members lie above `a` and up to `n`. */
  lemma BagBetween(b: multiset<nat>, a: nat, n: nat)
    requires a <= n && (forall k: nat :: b[k] <= 1) && (forall k: nat :: k in b ==> a < k <= n)
    ensures |b| <= n - a
  {
    var s := set k | k in b;
    assert b == multiset(s);
    Within(s, a, n);
  }

  lemma {:induction false} Within(s: set<nat>, a: nat, n: nat)
    requires a <= n && forall k :: k in s ==> a < k <= n
    ensures |s| <= n - a
    decreases n - a
  {
    if a == n {
      assert s == {};
    } else {
      Within(s - {n}, a, n - 1);
    }
  }
}
