/** Reachability in a finite graph, computed as a closure and characterised by paths. */
module Reachability {

  /** A set that no edge leaves. Nodes without an entry in the graph have no edges. */
  ghost predicate Closed<O>(g: map<O, set<O>>, x: set<O>) {
    forall o | o in x && o in g :: g[o] <= x
  }

  ghost function Successors<O>(g: map<O, set<O>>, x: set<O>): set<O> {
    set o, p | o in x && o in g && p in g[o] :: p
  }

  ghost function Targets<O>(g: map<O, set<O>>): set<O> {
    set o, p | o in g && p in g[o] :: p
  }

  /** The least closed set that contains the roots. */
  ghost function Reach<O>(g: map<O, set<O>>, roots: set<O>): (r: set<O>)
    ensures roots <= r && Closed(g, r)
    decreases |Targets(g) - roots|
  {
    var next := Successors(g, roots);
    if next <= roots then
      assert Closed(g, roots) by {
        forall o | o in roots && o in g ensures g[o] <= roots {
          assert forall p | p in g[o] :: p in next;
        }
      }
      roots
    else
      var p :| p in next && p !in roots;
      assert Targets(g) - (roots + next) < Targets(g) - roots by {
        assert p in Targets(g);
      }
      StrictSubsetIsSmaller(Targets(g) - (roots + next), Targets(g) - roots);
      Reach(g, roots + next)
  }

  lemma {:induction false} StrictSubsetIsSmaller<O>(a: set<O>, b: set<O>)
    requires a < b
    ensures |a| < |b|
  {
    var p :| p in b && p !in a;
    assert a + (b - a) == b;
    assert |b| == |a| + |b - a|;
    assert p in b - a;
  }

  lemma {:induction false} ReachIsLeast<O>(g: map<O, set<O>>, roots: set<O>, x: set<O>)
    requires roots <= x && Closed(g, x)
    ensures Reach(g, roots) <= x
    decreases |Targets(g) - roots|
  {
    var next := Successors(g, roots);
    if !(next <= roots) {
      var p :| p in next && p !in roots;
      assert p in (Targets(g) - roots) - (Targets(g) - (roots + next));
      StrictSubsetIsSmaller(Targets(g) - (roots + next), Targets(g) - roots);
      forall q | q in next ensures q in x {
        var o :| o in roots && o in g && q in g[o];
        assert g[o] <= x;
      }
      ReachIsLeast(g, roots + next, x);
    }
  }

  /** A walk along edges of the graph. */
  ghost predicate Path<O>(g: map<O, set<O>>, p: seq<O>) {
    |p| > 0 && (|p| > 1 ==> p[0] in g && p[1] in g[p[0]] && Path(g, p[1..]))
  }

  /** Every member of the closure is the end of a path that starts at a root. */
  lemma {:induction false} PathTo<O>(g: map<O, set<O>>, roots: set<O>, o: O) returns (p: seq<O>)
    requires o in Reach(g, roots)
    ensures Path(g, p) && p[0] in roots && p[|p| - 1] == o
    decreases |Targets(g) - roots|
  {
    var next := Successors(g, roots);
    if next <= roots {
      p := [o];
    } else {
      var q :| q in next && q !in roots;
      assert q in (Targets(g) - roots) - (Targets(g) - (roots + next));
      StrictSubsetIsSmaller(Targets(g) - (roots + next), Targets(g) - roots);
      p := PathTo(g, roots + next, o);
      if p[0] !in roots {
        var r :| r in roots && r in g && p[0] in g[r];
        var tail := p;
        p := [r] + tail;
        assert p[1..] == tail;
      }
    }
  }

  /** Every path that starts at a root ends in the closure. */
  lemma {:induction false} PathStaysInside<O>(g: map<O, set<O>>, roots: set<O>, p: seq<O>)
    requires Path(g, p) && p[0] in Reach(g, roots)
    ensures p[|p| - 1] in Reach(g, roots)
  {
    if |p| > 1 {
      assert g[p[0]] <= Reach(g, roots);
      PathStaysInside(g, roots, p[1..]);
    }
  }
}
