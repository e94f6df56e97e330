/** `walk_class_hierarchy`: a depth-first walk over the subclasses of a class, with one list of encountered
    classes for all branches.
 */
module ClassWalks {
  /** The direct subclasses of each class, in order; a class may have several bases. */
  type Graph = map<nat, seq<nat>>

  /** Subclasses are classes too. */
  predicate Complete(g: Graph) {
    forall c, i :: c in g && 0 <= i < |g[c]| ==> g[c][i] in g
  }

  /** Inheritance has no cycles: the classes can be numbered so that subclasses come first. */
  ghost predicate Numbered(g: Graph, rank: map<nat, nat>) {
    && (forall c :: c in g ==> c in rank)
    && (forall c, i :: c in g && 0 <= i < |g[c]| && g[c][i] in rank && c in rank ==> rank[g[c][i]] < rank[c])
  }

  ghost predicate Acyclic(g: Graph) {
    exists rank: map<nat, nat> :: Numbered(g, rank)
  }

  /** A chain of subclasses. */
  predicate Chain(g: Graph, p: seq<nat>) {
    && p != []
    && (forall i :: 0 <= i < |p| ==> p[i] in g)
    && (forall i :: 0 <= i < |p| - 1 ==> p[i + 1] in g[p[i]])
  }

  /** A strict descendant. */
  ghost predicate Descends(g: Graph, a: nat, d: nat) {
    exists p: seq<nat> :: Chain(g, p) && |p| >= 2 && p[0] == a && p[|p| - 1] == d
  }

  lemma {:induction false} ChildDescends(g: Graph, a: nat, i: nat)
    requires Complete(g) && a in g && i < |g[a]|
    ensures Descends(g, a, g[a][i])
  {
    var p := [a, g[a][i]];
    assert Chain(g, p);
  }

  lemma {:induction false} DescendsThrough(g: Graph, a: nat, b: nat, d: nat)
    requires Descends(g, a, b) && Descends(g, b, d)
    ensures Descends(g, a, d)
  {
    var p: seq<nat> :| Chain(g, p) && |p| >= 2 && p[0] == a && p[|p| - 1] == b;
    var q: seq<nat> :| Chain(g, q) && |q| >= 2 && q[0] == b && q[|q| - 1] == d;
    var r := p + q[1..];
    forall i | 0 <= i < |r| - 1 ensures r[i + 1] in g[r[i]] {
      if i >= |p| - 1 {
        assert r[i] == q[i - (|p| - 1)];
        assert r[i + 1] == q[i - (|p| - 1) + 1];
      }
    }
    assert Chain(g, r);
  }

  /** Everything has been yielded after all of its own subclasses. */
  predicate Ordered(g: Graph, y: seq<nat>) {
    forall i, c :: 0 <= i < |y| && y[i] in g && c in g[y[i]] ==> c in y[..i]
  }

  /** No class is yielded twice. */
  predicate Once(y: seq<nat>) {
    forall i, j :: 0 <= i < j < |y| ==> y[i] != y[j]
  }

  /** What is below a chain's start is yielded before it. */
  lemma {:induction false} ChainYielded(g: Graph, y: seq<nat>, p: seq<nat>, n: nat)
    requires Ordered(g, y) && Chain(g, p) && n <= |y| && p[0] in y[..n]
    ensures p[|p| - 1] in y[..n]
    decreases |p|
  {
    if |p| > 1 {
      var i :| 0 <= i < n && y[i] == p[0];
      assert p[1] in y[..i];
      var q := p[1..];
      assert Chain(g, q);
      ChainYielded(g, y, q, i);
      assert q[|q| - 1] in y[..i];
    }
  }

  /** Every class comes after all of its own strict descendants. */
  lemma {:induction false} MostDerivedFirst(g: Graph, y: seq<nat>, i: nat, d: nat)
    requires Ordered(g, y) && i < |y| && Descends(g, y[i], d)
    ensures d in y[..i]
  {
    var p: seq<nat> :| Chain(g, p) && |p| >= 2 && p[0] == y[i] && p[|p| - 1] == d;
    var q := p[1..];
    assert Chain(g, q);
    assert q[0] in g[y[i]];
    ChainYielded(g, y, q, i);
  }

  /** With all direct subclasses, all strict descendants have been yielded. */
  lemma {:induction false} AllYielded(g: Graph, y: seq<nat>, c: nat, d: nat)
    requires Ordered(g, y) && c in g && (forall x :: x in g[c] ==> x in y) && Descends(g, c, d)
    ensures d in y
  {
    var p: seq<nat> :| Chain(g, p) && |p| >= 2 && p[0] == c && p[|p| - 1] == d;
    var q := p[1..];
    assert Chain(g, q);
    assert y[..|y|] == y;
    ChainYielded(g, y, q, |y|);
  }

  /** A descendant has a smaller number. */
  lemma {:induction false} ChainFalls(g: Graph, rank: map<nat, nat>, p: seq<nat>)
    requires Numbered(g, rank) && Chain(g, p)
    ensures p[|p| - 1] in rank && p[0] in rank && (|p| >= 2 ==> rank[p[|p| - 1]] < rank[p[0]])
    decreases |p|
  {
    if |p| >= 2 {
      var q := p[1..];
      assert Chain(g, q);
      ChainFalls(g, rank, q);
      var i :| 0 <= i < |g[p[0]]| && g[p[0]][i] == p[1];
    }
  }

  lemma {:induction false} DescendsFalls(g: Graph, rank: map<nat, nat>, a: nat, d: nat)
    requires Numbered(g, rank) && Descends(g, a, d)
    ensures a in rank && d in rank && rank[d] < rank[a]
  {
    var p: seq<nat> :| Chain(g, p) && |p| >= 2 && p[0] == a && p[|p| - 1] == d;
    ChainFalls(g, rank, p);
  }

  /** The classes that are not encountered yet. */
  function White(g: Graph, encountered: seq<nat>): set<nat> {
    set c | c in g && c !in encountered
  }

  lemma {:induction false} WhiteShrinks(g: Graph, a: seq<nat>, b: seq<nat>)
    requires a <= b
    ensures |White(g, b)| <= |White(g, a)|
    ensures forall s :: s in g && s !in a && s in b ==> |White(g, b)| < |White(g, a)|
  {
    assert White(g, b) <= White(g, a);
    CardMono(White(g, b), White(g, a));
    forall s | s in g && s !in a && s in b ensures |White(g, b)| < |White(g, a)| {
      CardMono(White(g, b), White(g, a) - {s});
    }
  }

  lemma {:induction false} CardMono(a: set<nat>, b: set<nat>)
    requires a <= b
    ensures |a| <= |b|
  {
    assert b == a + (b - a);
  }

  lemma {:induction false} OrderedOn(g: Graph, y: seq<nat>, s: nat)
    requires Ordered(g, y) && s in g && (forall x :: x in g[s] ==> x in y) && Once(y) && s !in y
    ensures Ordered(g, y + [s]) && Once(y + [s])
  {
    var z := y + [s];
    forall i, c | 0 <= i < |z| && z[i] in g && c in g[z[i]] ensures c in z[..i] {
      if i < |y| {
        assert z[..i] == y[..i];
      } else {
        assert z[..i] == y;
      }
    }
  }

  class Walker {
    const g: Graph
    ghost const rank: map<nat, nat>
    var encountered: seq<nat>
    var yielded: seq<nat>

    constructor (g: Graph, ghost rank: map<nat, nat>)
      ensures this.g == g && this.rank == rank && encountered == [] && yielded == []
    {
      this.g, this.rank := g, rank;
      encountered, yielded := [], [];
    }

    /** What holds while the subclasses of `c` are walked: the classes that are encountered but not yet
        yielded are `c` and those above it. */
    ghost predicate Walking(c: nat)
      reads this
    {
      && Complete(g) && Numbered(g, rank) && c in g
      && Ordered(g, yielded) && Once(yielded)
      && (forall x :: x in yielded ==> x in encountered)
      && (forall x :: x in encountered ==> x in g && (x in yielded || rank[x] >= rank[c]))
    }

    /** Walks the subclasses of `c`, the most derived first. */
    method Walk(c: nat)
      requires Walking(c)
      modifies this
      ensures Walking(c)
      ensures forall x :: x in g[c] ==> x in yielded
      ensures old(yielded) <= yielded && old(encountered) <= encountered
      ensures forall x :: x in encountered ==> (x in old(encountered) || x in yielded)
      ensures forall x :: x in yielded ==> x in old(yielded) || Descends(g, c, x)
      decreases |White(g, encountered)|, 1
    {
      var i := 0;
      while i < |g[c]|
        invariant i <= |g[c]| && Walking(c)
        invariant forall j :: 0 <= j < i ==> g[c][j] in yielded
        invariant old(yielded) <= yielded && old(encountered) <= encountered
        invariant forall x :: x in encountered ==> (x in old(encountered) || x in yielded)
        invariant forall x :: x in yielded ==> x in old(yielded) || Descends(g, c, x)
      {
        var s := g[c][i];
        WhiteShrinks(g, old(encountered), encountered);
        if s !in encountered {
          Visit(c, i);
        } else {
          assert rank[s] < rank[c];
        }
        i := i + 1;
      }
    }

    /** A subclass that is met for the first time: its own subclasses come first. */
    method Visit(c: nat, i: nat)
      requires Walking(c) && i < |g[c]| && g[c][i] !in encountered
      modifies this
      ensures Walking(c) && g[c][i] in yielded
      ensures old(yielded) <= yielded && old(encountered) <= encountered
      ensures forall x :: x in encountered ==> (x in old(encountered) || x in yielded)
      ensures forall x :: x in yielded ==> x in old(yielded) || Descends(g, c, x)
      decreases |White(g, encountered)|, 0
    {
      var s := g[c][i];
      hide Descends, Ordered, Once;
      ChildDescends(g, c, i);
      ghost var e := encountered;
      encountered := encountered + [s];
      WhiteShrinks(g, e, encountered);
      assert rank[s] < rank[c];
      Walk(s);
      forall x | x in yielded && x !in old(yielded) ensures Descends(g, c, x) && x != s {
        DescendsThrough(g, c, s, x);
        DescendsFalls(g, rank, s, x);
      }
      OrderedOn(g, yielded, s);
      yielded := yielded + [s];
    }
  }

  /** What the generator yields for a class that nothing has been encountered for.

      Every strict descendant is yielded, exactly once, and after all of its own strict descendants. */
  method WalkClassHierarchy(g: Graph, clazz: nat) returns (y: seq<nat>)
    requires Complete(g) && Acyclic(g) && clazz in g
    ensures forall d :: d in y <==> Descends(g, clazz, d)
    ensures Once(y)
    ensures forall i, d :: 0 <= i < |y| && Descends(g, y[i], d) ==> d in y[..i]
  {
    ghost var rank: map<nat, nat> :| Numbered(g, rank);
    var w := new Walker(g, rank);
    w.Walk(clazz);
    y := w.yielded;
    forall d | Descends(g, clazz, d) ensures d in y {
      AllYielded(g, y, clazz, d);
    }
    forall i, d | 0 <= i < |y| && Descends(g, y[i], d) ensures d in y[..i] {
      MostDerivedFirst(g, y, i, d);
    }
  }
}
