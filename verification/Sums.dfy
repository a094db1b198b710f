/** Sums over finite sets, whatever the order in which the elements are taken. */
module Sums {
  ghost function SumOver<K(!new)>(ks: set<K>, f: K -> int): int
    decreases |ks|
  {
    if ks == {} then 0 else var k :| k in ks; f(k) + SumOver(ks - {k}, f)
  }

  lemma {:induction false} SumWithout<K(!new)>(ks: set<K>, f: K -> int, x: K)
    requires x in ks
    ensures SumOver(ks, f) == f(x) + SumOver(ks - {x}, f)
    decreases |ks|
  {
    var k :| k in ks && SumOver(ks, f) == f(k) + SumOver(ks - {k}, f);
    if k != x {
      SumWithout(ks - {k}, f, x);
      SumWithout(ks - {x}, f, k);
      assert ks - {k} - {x} == ks - {x} - {k};
    }
  }

  lemma {:induction false} SumSame<K(!new)>(ks: set<K>, f: K -> int, g: K -> int)
    requires forall k :: k in ks ==> f(k) == g(k)
    ensures SumOver(ks, f) == SumOver(ks, g)
    decreases |ks|
  {
    if ks != {} {
      var k :| k in ks;
      SumWithout(ks, f, k);
      SumWithout(ks, g, k);
      SumSame(ks - {k}, f, g);
    }
  }

  /** Changing f at one point of the set changes the sum by that much. */
  lemma SumChange<K(!new)>(ks: set<K>, f: K -> int, g: K -> int, x: K)
    requires x in ks && forall k :: k in ks && k != x ==> f(k) == g(k)
    ensures SumOver(ks, g) == SumOver(ks, f) - f(x) + g(x)
  {
    SumWithout(ks, f, x);
    SumWithout(ks, g, x);
    SumSame(ks - {x}, f, g);
  }

  lemma {:induction false} SumScale<K(!new)>(ks: set<K>, f: K -> int, g: K -> int, c: int)
    requires forall k :: k in ks ==> g(k) == f(k) * c
    ensures SumOver(ks, g) == SumOver(ks, f) * c
    decreases |ks|
  {
    if ks != {} {
      var k :| k in ks;
      SumWithout(ks, f, k);
      SumWithout(ks, g, k);
      SumScale(ks - {k}, f, g, c);
      assert (f(k) + SumOver(ks - {k}, f)) * c == f(k) * c + SumOver(ks - {k}, f) * c;
    }
  }

  lemma {:induction false} SumOfZeros<K(!new)>(ks: set<K>, f: K -> int)
    requires forall k :: k in ks ==> f(k) == 0
    ensures SumOver(ks, f) == 0
    decreases |ks|
  {
    if ks != {} {
      var k :| k in ks;
      SumWithout(ks, f, k);
      SumOfZeros(ks - {k}, f);
    }
  }

  lemma {:induction false} SumUnion<K(!new)>(a: set<K>, b: set<K>, f: K -> int)
    requires a !! b
    ensures SumOver(a + b, f) == SumOver(a, f) + SumOver(b, f)
    decreases |a|
  {
    if a == {} {
      assert a + b == b;
    } else {
      var k :| k in a;
      SumWithout(a, f, k);
      SumWithout(a + b, f, k);
      assert (a + b) - {k} == (a - {k}) + b;
      SumUnion(a - {k}, b, f);
    }
  }
}
