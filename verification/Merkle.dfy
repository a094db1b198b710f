/** The Merkle commitment: trees built level by level with an unpaired last node promoted, proofs
    read off the levels. The parent hash is an arbitrary function, so "binding" always means: equal,
    or here are two different pairs with the same parent. */
module Merkle {
  import opened Basics

  // ── levels ─────────────────────────────────────────────────────────

  /** The next level up. */
  function Up<T>(h: (T, T) -> T, xs: seq<T>): (r: seq<T>)
    ensures |r| == (|xs| + 1) / 2
    decreases |xs|
  {
    if |xs| <= 1 then xs else [h(xs[0], xs[1])] + Up(h, xs[2..])
  }

  /** All levels, leaves first. */
  function Levels<T>(h: (T, T) -> T, xs: seq<T>): (r: seq<seq<T>>)
    ensures xs == [] <==> r == []
    ensures xs != [] ==> r[0] == xs && |r[|r| - 1]| == 1
    ensures forall i :: 0 <= i < |r| ==> r[i] != []
    decreases |xs|
  {
    if xs == [] then [] else if |xs| == 1 then [xs] else [xs] + Levels(h, Up(h, xs))
  }

  /** The root; the zero hash when there is nothing to commit to. */
  function Root<T>(h: (T, T) -> T, zero: T, xs: seq<T>): T {
    var levels := Levels(h, xs);
    if levels == [] then zero else levels[|levels| - 1][0]
  }

  // ── proofs ─────────────────────────────────────────────────────────

  datatype Step<+T> = Left(hash: T) | Right(hash: T)

  /** The sibling of node i on its level; a promoted node has none. */
  function Sibling<T>(xs: seq<T>, i: nat): seq<Step<T>>
    requires i < |xs|
  {
    if i % 2 == 1 then [Left(xs[i - 1])] else if i + 1 < |xs| then [Right(xs[i + 1])] else []
  }

  /** The sibling path of leaf i, from the bottom. */
  function Proof<T>(h: (T, T) -> T, xs: seq<T>, i: nat): seq<Step<T>>
    requires i < |xs|
    decreases |xs|
  {
    if |xs| == 1 then [] else Sibling(xs, i) + Proof(h, Up(h, xs), i / 2)
  }

  function Join<T>(h: (T, T) -> T, node: T, s: Step<T>): T {
    match s case Left(x) => h(x, node) case Right(x) => h(node, x)
  }

  /** What a verifier computes from a leaf and its proof. */
  function Fold<T>(h: (T, T) -> T, leaf: T, proof: seq<Step<T>>): T
    decreases |proof|
  {
    if proof == [] then leaf else Fold(h, Join(h, leaf, proof[0]), proof[1..])
  }

  lemma {:induction false} UpAt<T>(h: (T, T) -> T, xs: seq<T>, k: nat)
    requires k < (|xs| + 1) / 2
    ensures Up(h, xs)[k] == if 2 * k + 1 < |xs| then h(xs[2 * k], xs[2 * k + 1]) else xs[2 * k]
    decreases |xs|
  {
    if |xs| > 1 && k > 0 {
      UpAt(h, xs[2..], k - 1);
    }
  }

  lemma {:induction false} RootUp<T>(h: (T, T) -> T, zero: T, xs: seq<T>)
    requires |xs| > 1
    ensures Root(h, zero, xs) == Root(h, zero, Up(h, xs))
  {
    var rest := Levels(h, Up(h, xs));
    assert Levels(h, xs)[|rest|] == rest[|rest| - 1];
  }

  /** One step up: the sibling joined on gives the node above. */
  lemma FoldSibling<T>(h: (T, T) -> T, xs: seq<T>, i: nat, rest: seq<Step<T>>)
    requires i < |xs| && |xs| > 1
    ensures Fold(h, xs[i], Sibling(xs, i) + rest) == Fold(h, Up(h, xs)[i / 2], rest)
  {
    UpAt(h, xs, i / 2);
    var s := Sibling(xs, i);
    if s == [] { assert s + rest == rest; } else { assert (s + rest)[1..] == rest; }
  }

  /** Every generated proof folds to the root. */
  lemma {:induction false} ProofFolds<T>(h: (T, T) -> T, zero: T, xs: seq<T>, i: nat)
    requires i < |xs|
    ensures Fold(h, xs[i], Proof(h, xs, i)) == Root(h, zero, xs)
    decreases |xs|
  {
    if |xs| > 1 {
      ProofFolds(h, zero, Up(h, xs), i / 2);
      FoldSibling(h, xs, i, Proof(h, Up(h, xs), i / 2));
      RootUp(h, zero, xs);
    }
  }

  // ── the same root as the recursive definition ──────────────────────

  /** The largest power of two below n. */
  function SplitPoint(n: nat): (k: nat)
    requires n > 1
    ensures 0 < k < n <= 2 * k
    ensures n > 2 ==> k % 2 == 0
    decreases n
  {
    if n == 2 then 1 else 2 * SplitPoint((n + 1) / 2)
  }

  /** The split one level up is at half the point. */
  lemma SplitPointUp(n: nat)
    requires n > 2
    ensures SplitPoint((n + 1) / 2) == SplitPoint(n) / 2
  {
  }

  function Pow2(e: nat): nat { if e == 0 then 1 else 2 * Pow2(e - 1) }

  lemma {:induction false} SplitPointIsPower(n: nat) returns (e: nat)
    requires n > 1
    ensures SplitPoint(n) == Pow2(e)
    decreases n
  {
    if n == 2 { e := 0; } else { e := SplitPointIsPower((n + 1) / 2); e := e + 1; }
  }

  /** The tree hash of section 2.1 of RFC 6962, without that section's leaf and node prefixes:
      split at the largest power of two below the length. */
  function TreeHash<T>(h: (T, T) -> T, xs: seq<T>): T
    requires xs != []
    decreases |xs|
  {
    if |xs| == 1 then xs[0]
    else
      var k := SplitPoint(|xs|);
      h(TreeHash(h, xs[..k]), TreeHash(h, xs[k..]))
  }

  lemma UpOfPrefixAt<T>(h: (T, T) -> T, xs: seq<T>, j: nat, i: nat)
    requires 2 * j <= |xs| && i < j
    ensures Up(h, xs)[i] == Up(h, xs[..2 * j])[i]
  {
    UpAt(h, xs, i);
    UpAt(h, xs[..2 * j], i);
  }

  lemma UpOfPrefix<T>(h: (T, T) -> T, xs: seq<T>, j: nat)
    requires 2 * j <= |xs|
    ensures Up(h, xs)[..j] == Up(h, xs[..2 * j])
  {
    var all, part := Up(h, xs), Up(h, xs[..2 * j]);
    forall i | 0 <= i < j ensures all[i] == part[i] { UpOfPrefixAt(h, xs, j, i); }
  }

  lemma UpOfSuffixAt<T>(h: (T, T) -> T, xs: seq<T>, j: nat, i: nat)
    requires 2 * j <= |xs| && i < (|xs| - 2 * j + 1) / 2
    ensures j + i < |Up(h, xs)| && Up(h, xs)[j + i] == Up(h, xs[2 * j..])[i]
  {
    var k := j + i;
    var ys := xs[2 * j..];
    assert 2 * k == 2 * j + 2 * i && ys[2 * i] == xs[2 * k];
    UpAt(h, xs, k);
    UpAt(h, ys, i);
  }

  lemma UpOfSuffix<T>(h: (T, T) -> T, xs: seq<T>, j: nat)
    requires 2 * j <= |xs|
    ensures Up(h, xs)[j..] == Up(h, xs[2 * j..])
  {
    var all, part := Up(h, xs), Up(h, xs[2 * j..]);
    forall i | 0 <= i < |part| ensures j + i < |all| && all[j + i] == part[i] { UpOfSuffixAt(h, xs, j, i); }
  }

  lemma {:induction false} TreeHashUp<T>(h: (T, T) -> T, xs: seq<T>)
    requires xs != []
    ensures TreeHash(h, Up(h, xs)) == TreeHash(h, xs)
    decreases |xs|
  {
    if |xs| > 2 {
      var k := SplitPoint(|xs|);
      var up := Up(h, xs);
      SplitPointUp(|xs|);
      UpOfPrefix(h, xs, k / 2);
      UpOfSuffix(h, xs, k / 2);
      TreeHashUp(h, xs[..k]);
      TreeHashUp(h, xs[k..]);
      assert TreeHash(h, up) == h(TreeHash(h, up[..k / 2]), TreeHash(h, up[k / 2..]));
    }
  }

  /** The level-by-level tree computes the recursive tree hash, for every list and every parent. */
  lemma {:induction false} LevelsComputeTreeHash<T>(h: (T, T) -> T, zero: T, xs: seq<T>)
    requires xs != []
    ensures Root(h, zero, xs) == TreeHash(h, xs)
    decreases |xs|
  {
    if |xs| > 1 {
      LevelsComputeTreeHash(h, zero, Up(h, xs));
      TreeHashUp(h, xs);
      RootUp(h, zero, xs);
    }
  }

  // ── size of the tree ───────────────────────────────────────────────

  /** The least e with n <= 2^e. */
  function CeilLog2(n: nat): (e: nat)
    requires n >= 1
    decreases n
  {
    if n == 1 then 0 else 1 + CeilLog2((n + 1) / 2)
  }

  lemma {:induction false} CeilLog2Is(n: nat)
    requires n >= 1
    ensures n <= Pow2(CeilLog2(n)) && (n > 1 ==> Pow2(CeilLog2(n) - 1) < n)
    decreases n
  {
    if n > 1 { CeilLog2Is((n + 1) / 2); }
  }

  /** There are ceil(log2 n) + 1 levels, and no proof has more than ceil(log2 n) steps. */
  lemma {:induction false} TreeSize<T>(h: (T, T) -> T, xs: seq<T>, i: nat)
    requires i < |xs|
    ensures |Levels(h, xs)| == CeilLog2(|xs|) + 1
    ensures |xs| <= Pow2(CeilLog2(|xs|)) && (|xs| > 1 ==> Pow2(CeilLog2(|xs|) - 1) < |xs|)
    ensures |Proof(h, xs, i)| <= CeilLog2(|xs|)
    decreases |xs|
  {
    CeilLog2Is(|xs|);
    if |xs| > 1 { TreeSize(h, Up(h, xs), i / 2); }
  }

  // ── shape of proofs ────────────────────────────────────────────────

  /** Left/right directions of a proof: true for a sibling on the left. */
  function Directions<T>(proof: seq<Step<T>>): seq<bool> {
    seq(|proof|, j requires 0 <= j < |proof| => proof[j].Left?)
  }

  function FirstDirection(n: nat, i: nat): seq<bool> {
    if i % 2 == 1 then [true] else if i + 1 < n then [false] else []
  }

  /** The directions for leaf i of n. They depend on nothing else. */
  function Shape(n: nat, i: nat): seq<bool>
    requires i < n
    decreases n
  {
    if n == 1 then [] else FirstDirection(n, i) + Shape((n + 1) / 2, i / 2)
  }

  lemma {:induction false} ProofHasShape<T>(h: (T, T) -> T, xs: seq<T>, i: nat)
    requires i < |xs|
    ensures Directions(Proof(h, xs, i)) == Shape(|xs|, i)
    decreases |xs|
  {
    if |xs| > 1 {
      ProofHasShape(h, Up(h, xs), i / 2);
      assert Directions(Sibling(xs, i)) == FirstDirection(|xs|, i);
    }
  }

  /** The last direction of a shape says on which side of the top split the leaf lies; what comes
      before it is the shape of the leaf in its half. */
  lemma {:induction false} ShapeSplits(n: nat, i: nat)
    requires 1 < n && i < n
    ensures var k := SplitPoint(n);
            Shape(n, i) == if i < k then Shape(k, i) + [false] else Shape(n - k, i - k) + [true]
    decreases n
  {
    if n > 2 {
      var k := SplitPoint(n);
      SplitPointUp(n);
      ShapeSplits((n + 1) / 2, i / 2);
      if i < k { LowerHalf(n, i, k); } else { UpperHalf(n, i, k); }
    }
  }

  lemma LowerHalf(n: nat, i: nat, k: nat)
    requires i < k < n && k % 2 == 0
    requires Shape((n + 1) / 2, i / 2) == Shape(k / 2, i / 2) + [false]
    ensures Shape(n, i) == Shape(k, i) + [false]
  {
    assert (k + 1) / 2 == k / 2;
    assert FirstDirection(k, i) == FirstDirection(n, i);
    Regroup(FirstDirection(n, i), Shape(k / 2, i / 2), [false]);
  }

  lemma UpperHalf(n: nat, i: nat, k: nat)
    requires 0 < k <= i < n && k % 2 == 0
    requires Shape((n + 1) / 2, i / 2) == Shape((n + 1) / 2 - k / 2, i / 2 - k / 2) + [true]
    ensures Shape(n, i) == Shape(n - k, i - k) + [true]
  {
    var m := n - k;
    assert (m + 1) / 2 == (n + 1) / 2 - k / 2 && (i - k) / 2 == i / 2 - k / 2 && (i - k) % 2 == i % 2;
    assert FirstDirection(m, i - k) == FirstDirection(n, i);
    Regroup(FirstDirection(n, i), Shape((m + 1) / 2, (i - k) / 2), [true]);
    if m == 1 {
      assert FirstDirection(n, i) == [];
      assert [] + Shape(1, 0) == Shape(1, 0);
    }
  }

  ghost predicate IsSuffix(a: seq<bool>, b: seq<bool>) {
    |a| <= |b| && b[|b| - |a|..] == a
  }

  lemma DropLast(a: seq<bool>, x: bool, b: seq<bool>, y: bool)
    requires IsSuffix(a + [x], b + [y])
    ensures x == y && IsSuffix(a, b)
  {
    var d := |b| - |a|;
    assert (b + [y])[d..][|a|] == (a + [x])[|a|];
    forall i | 0 <= i < |a| ensures b[d..][i] == a[i] {
      assert (b + [y])[d..][i] == (a + [x])[i];
    }
  }

  /** The same directions read from the top: on which side of each split the leaf lies. */
  function Path(n: nat, i: nat): seq<bool>
    requires i < n
    decreases n
  {
    if n == 1 then []
    else
      var k := SplitPoint(n);
      if i < k then Path(k, i) + [false] else Path(n - k, i - k) + [true]
  }

  lemma {:induction false} ShapeIsPath(n: nat, i: nat)
    requires i < n
    ensures Shape(n, i) == Path(n, i)
    decreases n
  {
    if n > 1 {
      var k := SplitPoint(n);
      ShapeSplits(n, i);
      if i < k { ShapeIsPath(k, i); } else { ShapeIsPath(n - k, i - k); }
    }
  }

  lemma {:induction false} PathsAreSuffixFree(n: nat, i: nat, j: nat)
    requires i < n && j < n && i != j
    ensures !IsSuffix(Path(n, i), Path(n, j))
    decreases n
  {
    var k := SplitPoint(n);
    var a := if i < k then Path(k, i) else Path(n - k, i - k);
    var b := if j < k then Path(k, j) else Path(n - k, j - k);
    if IsSuffix(Path(n, i), Path(n, j)) {
      DropLast(a, i >= k, b, j >= k);
      if i < k { PathsAreSuffixFree(k, i, j); } else { PathsAreSuffixFree(n - k, i - k, j - k); }
    }
  }

  /** No proof shape for n leaves is a suffix of another one; in particular shapes are distinct. */
  lemma ShapesAreSuffixFree(n: nat, i: nat, j: nat)
    requires i < n && j < n && i != j
    ensures !IsSuffix(Shape(n, i), Shape(n, j))
  {
    ShapeIsPath(n, i);
    ShapeIsPath(n, j);
    PathsAreSuffixFree(n, i, j);
  }

  // ── binding ────────────────────────────────────────────────────────

  /** Two pairs of nodes. */
  datatype Pairs<T> = Pairs(a: T, b: T, c: T, d: T)

  /** The pairs differ and have the same parent. */
  ghost predicate Collide<T(!new)>(h: (T, T) -> T, p: Pairs<T>) {
    (p.a != p.c || p.b != p.d) && h(p.a, p.b) == h(p.c, p.d)
  }

  lemma LevelBinds<T(!new)>(h: (T, T) -> T, xs: seq<T>, ys: seq<T>) returns (p: Pairs<T>)
    requires |xs| == |ys| && xs != ys && Up(h, xs) == Up(h, ys)
    ensures Collide(h, p)
  {
    var i :| 0 <= i < |xs| && xs[i] != ys[i];
    var k := i / 2;
    UpAt(h, xs, k);
    UpAt(h, ys, k);
    p := Pairs(xs[2 * k], xs[2 * k + 1], ys[2 * k], ys[2 * k + 1]);
  }

  /** Binding: two lists of the same length with the same root are equal, or the two trees hold an
      explicit collision of the parent function. */
  lemma {:induction false} RootBinds<T(!new)>(h: (T, T) -> T, zero: T, xs: seq<T>, ys: seq<T>)
    returns (p: Option<Pairs<T>>)
    requires |xs| == |ys| && Root(h, zero, xs) == Root(h, zero, ys)
    ensures xs == ys || (p.Some? && Collide(h, p.value))
    decreases |xs|
  {
    if xs == ys {
      p := None;
    } else if |xs| == 1 {
      p := None;
    } else if Up(h, xs) == Up(h, ys) {
      var q := LevelBinds(h, xs, ys);
      p := Some(q);
    } else {
      RootUp(h, zero, xs);
      RootUp(h, zero, ys);
      p := RootBinds(h, zero, Up(h, xs), Up(h, ys));
    }
  }

  /** For any two lengths there are lists of these lengths with one tree hash. */
  lemma {:induction false} SameTree<T>(h: (T, T) -> T, m: nat, n: nat, x: T) returns (xs: seq<T>, ys: seq<T>)
    requires m >= 1 && n >= 1
    ensures |xs| == m && |ys| == n && TreeHash(h, xs) == TreeHash(h, ys)
    decreases m + n
  {
    if m == 1 {
      ys := seq(n, i => x);
      xs := [TreeHash(h, ys)];
    } else if n == 1 {
      xs := seq(m, i => x);
      ys := [TreeHash(h, xs)];
    } else {
      var k, l := SplitPoint(m), SplitPoint(n);
      var a, b := SameTree(h, k, l, x);
      var c, d := SameTree(h, m - k, n - l, x);
      xs, ys := a + c, b + d;
      assert xs[..k] == a && xs[k..] == c && ys[..l] == b && ys[l..] == d;
    }
  }

  /** Equal lengths are needed: for any two lengths, whatever the parent function, there are lists of
      these lengths with one root. */
  lemma LengthsMatter<T>(h: (T, T) -> T, zero: T, m: nat, n: nat, x: T) returns (xs: seq<T>, ys: seq<T>)
    requires m >= 1 && n >= 1
    ensures |xs| == m && |ys| == n && Root(h, zero, xs) == Root(h, zero, ys)
  {
    xs, ys := SameTree(h, m, n, x);
    LevelsComputeTreeHash(h, zero, xs);
    LevelsComputeTreeHash(h, zero, ys);
  }

  /** Lists of these lengths with one root are the same list. */
  ghost predicate Binding<T(!new)>(h: (T, T) -> T, zero: T, m: nat, n: nat) {
    forall xs, ys :: |xs| == m && |ys| == n && Root(h, zero, xs) == Root(h, zero, ys) ==> xs == ys
  }

  /** With a parent function free of collisions, the root binds two lists exactly if their lengths
      are the same. */
  lemma BindingIff<T(!new)>(h: (T, T) -> T, zero: T, m: nat, n: nat, x: T)
    requires m >= 1 && n >= 1 && forall p :: !Collide(h, p)
    ensures Binding(h, zero, m, n) <==> m == n
  {
    if m == n {
      forall xs, ys | |xs| == m && |ys| == n && Root(h, zero, xs) == Root(h, zero, ys) ensures xs == ys {
        var p := RootBinds(h, zero, xs, ys);
      }
    } else {
      var xs, ys := LengthsMatter(h, zero, m, n, x);
    }
  }

  /** The node above leaf i determines leaf i and its sibling, up to a collision. */
  lemma NodeBinds<T(!new)>(h: (T, T) -> T, xs: seq<T>, i: nat, leaf: T, s: Step<T>) returns (p: Pairs<T>)
    requires i < |xs| && [s.Left?] == FirstDirection(|xs|, i)
    requires Join(h, leaf, s) == Up(h, xs)[i / 2] && leaf != xs[i]
    ensures Collide(h, p)
  {
    UpAt(h, xs, i / 2);
    assert [s.Left?][0] == FirstDirection(|xs|, i)[0];
    p := if s.Left? then Pairs(s.hash, leaf, xs[i - 1], xs[i]) else Pairs(leaf, s.hash, xs[i], xs[i + 1]);
  }

  lemma SplitDirections<T>(proof: seq<Step<T>>, first: seq<bool>, rest: seq<bool>)
    requires Directions(proof) == first + rest && |first| <= 1
    ensures first == [] ==> Directions(proof) == rest
    ensures first != [] ==> proof != [] && [proof[0].Left?] == first && Directions(proof[1..]) == rest
  {
    if first != [] {
      assert |Directions(proof)| == |proof|;
      assert Directions(proof)[0] == first[0];
      assert Directions(proof[1..]) == Directions(proof)[1..] == rest;
    }
  }

  /** The same as `Directions(proof) == Shape(n, i)`, step by step. */
  ghost predicate Fits<T>(proof: seq<Step<T>>, n: nat, i: nat)
    requires i < n
    decreases n
  {
    if n == 1 then proof == []
    else if FirstDirection(n, i) == [] then Fits(proof, (n + 1) / 2, i / 2)
    else proof != [] && [proof[0].Left?] == FirstDirection(n, i) && Fits(proof[1..], (n + 1) / 2, i / 2)
  }

  lemma {:induction false} ShapeFits<T>(proof: seq<Step<T>>, n: nat, i: nat)
    requires i < n && Directions(proof) == Shape(n, i)
    ensures Fits(proof, n, i)
    decreases n
  {
    if n == 1 {
      assert |proof| == |Directions(proof)| == 0;
    } else {
      SplitDirections(proof, FirstDirection(n, i), Shape((n + 1) / 2, i / 2));
      ShapeFits(if FirstDirection(n, i) == [] then proof else proof[1..], (n + 1) / 2, i / 2);
    }
  }

  /** A node without a sibling moves up unchanged. */
  lemma Promoted<T>(h: (T, T) -> T, xs: seq<T>, i: nat)
    requires i < |xs| && |xs| > 1 && FirstDirection(|xs|, i) == []
    ensures Up(h, xs)[i / 2] == xs[i]
  {
    UpAt(h, xs, i / 2);
  }

  /** One level up, the rest of a fitting proof fits. */
  lemma FitsUp<T>(proof: seq<Step<T>>, n: nat, i: nat)
    requires i < n && n > 1 && Fits(proof, n, i)
    ensures FirstDirection(n, i) == [] ==> Fits(proof, (n + 1) / 2, i / 2)
    ensures FirstDirection(n, i) != [] ==>
              proof != [] && [proof[0].Left?] == FirstDirection(n, i) && Fits(proof[1..], (n + 1) / 2, i / 2)
  {
  }

  lemma {:induction false} FittingProofBinds<T(!new)>(h: (T, T) -> T, zero: T, xs: seq<T>, i: nat, leaf: T, proof: seq<Step<T>>)
    returns (p: Option<Pairs<T>>)
    requires i < |xs| && Fits(proof, |xs|, i) && Fold(h, leaf, proof) == Root(h, zero, xs)
    ensures leaf == xs[i] || (p.Some? && Collide(h, p.value))
    decreases |xs|
  {
    p := None;
    if |xs| > 1 {
      var up := Up(h, xs);
      FitsUp(proof, |xs|, i);
      RootUp(h, zero, xs);
      if FirstDirection(|xs|, i) == [] {
        Promoted(h, xs, i);
        p := FittingProofBinds(h, zero, up, i / 2, leaf, proof);
      } else {
        var node := Join(h, leaf, proof[0]);
        p := FittingProofBinds(h, zero, up, i / 2, node, proof[1..]);
        if node == up[i / 2] && leaf != xs[i] {
          var q := NodeBinds(h, xs, i, leaf, proof[0]);
          p := Some(q);
        }
      }
    }
  }

  /** Inclusion: whoever shows, for a leaf, a proof of the shape that belongs to index i, and reaches
      the root, has shown leaf i, or an explicit collision. */
  lemma ProofBinds<T(!new)>(h: (T, T) -> T, zero: T, xs: seq<T>, i: nat, leaf: T, proof: seq<Step<T>>)
    returns (p: Option<Pairs<T>>)
    requires i < |xs| && Directions(proof) == Shape(|xs|, i)
    requires Fold(h, leaf, proof) == Root(h, zero, xs)
    ensures leaf == xs[i] || (p.Some? && Collide(h, p.value))
  {
    ShapeFits(proof, |xs|, i);
    p := FittingProofBinds(h, zero, xs, i, leaf, proof);
  }

  // ── the loops of the service ───────────────────────────────────────

  /** Builds every level once, replacing `level` by the next one until a single node is left; n
      leaves take n - 1 parent hashes. */
  method BuildLevels<T>(h: (T, T) -> T, leaves: seq<T>) returns (levels: seq<seq<T>>, ghost hashed: nat)
    ensures levels == Levels(h, leaves)
    ensures hashed == if leaves == [] then 0 else |leaves| - 1
  {
    if |leaves| == 0 { return [], 0; }
    hashed := 0;
    var level := leaves;
    levels := [level];
    ghost var below: seq<seq<T>> := [];
    while |level| > 1
      invariant level != [] && levels == below + [level]
      invariant Levels(h, leaves) == below + Levels(h, level)
      invariant hashed == |leaves| - |level|
      decreases |level|
    {
      var next, more := BuildNext(h, level);
      hashed := hashed + more;
      LevelsGrow(h, below, level, next);
      below := levels;
      level := next;
      levels := levels + [level];
    }
  }

  lemma LevelsGrow<T>(h: (T, T) -> T, below: seq<seq<T>>, level: seq<T>, next: seq<T>)
    requires |level| > 1 && next == Up(h, level)
    ensures below + Levels(h, level) == below + [level] + Levels(h, next)
  {
  }

  /** Pairs neighbours; an unpaired last node moves up unchanged. */
  method BuildNext<T>(h: (T, T) -> T, level: seq<T>) returns (next: seq<T>, ghost hashed: nat)
    ensures next == Up(h, level) && hashed == |level| / 2
  {
    next, hashed := [], 0;
    for k := 0 to (|level| + 1) / 2
      invariant hashed == Min(k, |level| / 2)
      invariant |next| == k && forall j :: 0 <= j < k ==> next[j] == Up(h, level)[j]
    {
      UpAt(h, level, k);
      var i := 2 * k;
      if i + 1 == |level| { next := next + [level[i]]; }
      else { next, hashed := next + [h(level[i], level[i + 1])], hashed + 1; }
    }
  }

  /** Reads the proof for one leaf off the cached levels; None when the index is out of range. */
  method ProofFromLevels<T>(h: (T, T) -> T, ghost leaves: seq<T>, levels: seq<seq<T>>, start: int)
    returns (r: Option<seq<Step<T>>>)
    requires levels == Levels(h, leaves)
    ensures r == if 0 <= start < |leaves| then Some(Proof(h, leaves, start)) else None
  {
    if |levels| == 0 || start < 0 || start >= |levels[0]| { return None; }
    var proof: seq<Step<T>> := [];
    var index: nat := start;
    ghost var here := leaves;
    assert levels[0..] == levels;
    assert [] + Proof(h, leaves, start) == Proof(h, leaves, start);
    for l := 0 to |levels| - 1
      invariant index < |here| && levels[l..] == Levels(h, here)
      invariant Proof(h, leaves, start) == proof + Proof(h, here, index)
    {
      OneLevel(h, here, levels, l, proof, index);
      var step := SiblingAt(levels[l], index);
      proof := proof + step;
      index := index / 2;
      here := Up(h, here);
    }
    AtTheTop(h, here, levels, index);
    assert proof + [] == proof;
    return Some(proof);
  }

  /** The branch that looks for the sibling. */
  method SiblingAt<T>(level: seq<T>, index: nat) returns (step: seq<Step<T>>)
    requires index < |level|
    ensures step == Sibling(level, index)
  {
    if index % 2 == 1 { return [Left(level[index - 1])]; }
    if index + 1 < |level| { return [Right(level[index + 1])]; }
    return [];
  }

  lemma OneLevel<T>(h: (T, T) -> T, here: seq<T>, levels: seq<seq<T>>, l: nat, proof: seq<Step<T>>, index: nat)
    requires index < |here| && l < |levels| - 1 && levels[l..] == Levels(h, here)
    ensures levels[l] == here && |here| > 1 && levels[l + 1..] == Levels(h, Up(h, here))
    ensures index / 2 < |Up(h, here)|
    ensures proof + Proof(h, here, index) == proof + Sibling(here, index) + Proof(h, Up(h, here), index / 2)
  {
    assert levels[l..][0] == levels[l];
    assert levels[l + 1..] == levels[l..][1..];
    Regroup(proof, Sibling(here, index), Proof(h, Up(h, here), index / 2));
  }

  lemma AtTheTop<T>(h: (T, T) -> T, here: seq<T>, levels: seq<seq<T>>, index: nat)
    requires levels != [] && index < |here| && levels[|levels| - 1..] == Levels(h, here)
    ensures Proof(h, here, index) == []
  {
    assert |here| > 1 ==> |Levels(h, here)| > 1;
  }
}
