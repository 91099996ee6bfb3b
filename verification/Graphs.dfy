/** Reachability in a finite graph, as far as the role hierarchy and the spaces need it. */
module Graphs {

  // Edges lead from a role to a subrole, or from a space to a space it includes.
  type Edges = set<(nat, nat)>

  predicate IsPath(g: Edges, p: seq<nat>) {
    p != [] && forall i :: 0 <= i < |p| - 1 ==> (p[i], p[i + 1]) in g
  }

  predicate From(p: seq<nat>, a: nat, b: nat) { p != [] && p[0] == a && p[|p| - 1] == b }

  // b is a, or is reached from a.
  ghost predicate Reach(g: Edges, a: nat, b: nat) {
    exists p :: IsPath(g, p) && From(p, a, b)
  }

  // b is reached from a in at least one step.
  ghost predicate Below(g: Edges, a: nat, b: nat) {
    exists c: nat :: (a, c) in g && Reach(g, c, b)
  }

  ghost predicate Acyclic(g: Edges) {
    forall a: nat :: !Below(g, a, a)
  }

  lemma ReachSelf(g: Edges, a: nat)
    ensures Reach(g, a, a)
  {
    assert IsPath(g, [a]) && From([a], a, a);
  }

  lemma {:induction false} ReachTrans(g: Edges, a: nat, b: nat, c: nat)
    requires Reach(g, a, b) && Reach(g, b, c)
    ensures Reach(g, a, c)
  {
    var p :| IsPath(g, p) && From(p, a, b);
    var q :| IsPath(g, q) && From(q, b, c);
    var r := p + q[1..];
    assert forall i :: 0 <= i < |r| - 1 ==> (r[i], r[i + 1]) in g;
    assert IsPath(g, r) && From(r, a, c);
  }

  lemma {:induction false} ReachEdge(g: Edges, a: nat, b: nat)
    requires (a, b) in g
    ensures Reach(g, a, b)
  {
    assert IsPath(g, [a, b]) && From([a, b], a, b);
  }

  lemma {:induction false} BelowReach(g: Edges, a: nat, b: nat)
    requires Below(g, a, b)
    ensures Reach(g, a, b)
  {
    var c: nat :| (a, c) in g && Reach(g, c, b);
    ReachEdge(g, a, c);
    ReachTrans(g, a, c, b);
  }

  lemma {:induction false} BelowThen(g: Edges, a: nat, b: nat, c: nat)
    requires Below(g, a, b) && Reach(g, b, c)
    ensures Below(g, a, c)
  {
    var d: nat :| (a, d) in g && Reach(g, d, b);
    ReachTrans(g, d, b, c);
  }

  lemma {:induction false} ReachBelow(g: Edges, a: nat, b: nat, c: nat)
    requires Reach(g, a, b) && Below(g, b, c)
    ensures Below(g, a, c)
  {
    ReachSplit(g, a, b);
    if a != b {
      BelowReach(g, b, c);
      BelowThen(g, a, b, c);
    }
  }

  // A path is empty or begins with an edge.
  lemma {:induction false} ReachSplit(g: Edges, a: nat, b: nat)
    requires Reach(g, a, b)
    ensures a == b || Below(g, a, b)
  {
    var p :| IsPath(g, p) && From(p, a, b);
    if |p| > 1 {
      var q := p[1..];
      assert forall i :: 0 <= i < |q| - 1 ==> (q[i], q[i + 1]) in g by {
        forall i | 0 <= i < |q| - 1 ensures (q[i], q[i + 1]) in g { assert (p[i + 1], p[i + 2]) in g; }
      }
      assert IsPath(g, q) && From(q, p[1], b);
      assert (p[0], p[1]) in g;
    }
  }

  // A set that edges do not leave holds whatever its members reach.
  lemma {:induction false} ClosedReach(g: Edges, s: set<nat>, a: nat, b: nat)
    requires forall x: nat, y: nat :: (x, y) in g && x in s ==> y in s
    requires a in s && Reach(g, a, b)
    ensures b in s
  {
    var p :| IsPath(g, p) && From(p, a, b);
    ClosedPath(g, s, p);
  }

  lemma {:induction false} ClosedPath(g: Edges, s: set<nat>, p: seq<nat>)
    requires forall x: nat, y: nat :: (x, y) in g && x in s ==> y in s
    requires IsPath(g, p) && p[0] in s
    ensures p[|p| - 1] in s
    decreases |p|
  {
    if |p| > 1 {
      assert (p[0], p[1]) in g;
      var q := p[1..];
      assert forall i :: 0 <= i < |q| - 1 ==> (q[i], q[i + 1]) in g by {
        forall i | 0 <= i < |q| - 1 ensures (q[i], q[i + 1]) in g { assert (p[i + 1], p[i + 2]) in g; }
      }
      ClosedPath(g, s, q);
    }
  }

  lemma {:induction false} ReachMore(g: Edges, h: Edges, a: nat, b: nat)
    requires g <= h && Reach(g, a, b)
    ensures Reach(h, a, b)
  {
    var p :| IsPath(g, p) && From(p, a, b);
    assert IsPath(h, p);
  }

  lemma {:induction false} BelowMore(g: Edges, h: Edges, a: nat, b: nat)
    requires g <= h && Below(g, a, b)
    ensures Below(h, a, b)
  {
    var c: nat :| (a, c) in g && Reach(g, c, b);
    ReachMore(g, h, c, b);
  }

  lemma {:induction false} AcyclicLess(g: Edges, h: Edges)
    requires g <= h && Acyclic(h)
    ensures Acyclic(g)
  {
    forall a: nat ensures !Below(g, a, a) {
      if Below(g, a, a) { BelowMore(g, h, a, a); }
    }
  }

  // With one more edge, a path avoids it, or reaches its start without it.
  lemma {:induction false} ReachWith(g: Edges, a: nat, b: nat, x: nat, y: nat)
    requires Reach(g + {(a, b)}, x, y)
    ensures Reach(g, x, y) || (Reach(g, x, a) && Reach(g, b, y))
  {
    var p :| IsPath(g + {(a, b)}, p) && From(p, x, y);
    PathWith(g, a, b, p);
  }

  lemma {:induction false} PathWith(g: Edges, a: nat, b: nat, p: seq<nat>)
    requires IsPath(g + {(a, b)}, p)
    ensures var x, y := p[0], p[|p| - 1];
      Reach(g, x, y) || (Reach(g, x, a) && Reach(g, b, y))
    decreases |p|
  {
    var x, y := p[0], p[|p| - 1];
    if |p| == 1 {
      ReachSelf(g, x);
    } else {
      var q := p[1..];
      assert forall i :: 0 <= i < |q| - 1 ==> (q[i], q[i + 1]) in g + {(a, b)} by {
        forall i | 0 <= i < |q| - 1 ensures (q[i], q[i + 1]) in g + {(a, b)} { assert (p[i + 1],
          p[i + 2]) in g + {(a, b)}; }
      }
      PathWith(g, a, b, q);
      assert (p[0], p[1]) in g + {(a, b)};
      if (p[0], p[1]) in g {
        ReachEdge(g, x, p[1]);
        if Reach(g, p[1], y) {
          ReachTrans(g, x, p[1], y);
        } else {
          ReachTrans(g, x, p[1], a);
        }
      } else {
        ReachSelf(g, a);
      }
    }
  }

  // A new cycle goes through the new edge.
  lemma {:induction false} CycleWith(g: Edges, a: nat, b: nat, x: nat)
    requires Below(g + {(a, b)}, x, x)
    ensures Below(g, x, x) || Reach(g, b, a)
  {
    var c: nat :| (x, c) in g + {(a, b)} && Reach(g + {(a, b)}, c, x);
    ReachWith(g, a, b, c, x);
    if (x, c) in g && !Reach(g, c, x) {
      ReachEdge(g, x, c);
      ReachTrans(g, b, x, c);
      ReachTrans(g, b, c, a);
    }
  }

  // An edge from a to b closes no cycle exactly when a is not b and is not
  // reached from b.
  lemma {:induction false} AcyclicWith(g: Edges, a: nat, b: nat)
    requires Acyclic(g)
    ensures Acyclic(g + {(a, b)}) <==> !Reach(g, b, a)
  {
    var h := g + {(a, b)};
    if Reach(g, b, a) {
      ReachMore(g, h, b, a);
      assert (a, b) in h;
      assert Below(h, a, a);
    } else {
      forall x: nat ensures !Below(h, x, x) {
        if Below(h, x, x) { CycleWith(g, a, b, x); }
      }
    }
  }

  // What lies above a node and below a node, among the nodes given.
  ghost function Above(g: Edges, nodes: set<nat>, b: nat): set<nat> { set a | a in nodes && Below(g, a, b) }

  ghost function Under(g: Edges, nodes: set<nat>, a: nat): set<nat> { set b | b in nodes && Below(g, a, b) }

  // Along an edge of an acyclic graph less is above, and less is below.
  lemma {:induction false} AboveShrinks(g: Edges, nodes: set<nat>, a: nat, b: nat)
    requires Acyclic(g) && (a, b) in g && a in nodes
    ensures Above(g, nodes, a) < Above(g, nodes, b)
  {
    ReachSelf(g, b);
    assert Below(g, a, b);
    forall x | x in Above(g, nodes, a) ensures x in Above(g, nodes, b) {
      ReachEdge(g, a, b);
      BelowThen(g, x, a, b);
    }
    assert a in Above(g, nodes, b) && a !in Above(g, nodes, a);
  }

  lemma {:induction false} UnderShrinks(g: Edges, nodes: set<nat>, a: nat, b: nat)
    requires Acyclic(g) && (a, b) in g && b in nodes
    ensures Under(g, nodes, b) < Under(g, nodes, a)
  {
    ReachSelf(g, b);
    assert Below(g, a, b);
    forall x | x in Under(g, nodes, b) ensures x in Under(g, nodes, a) {
      ReachEdge(g, a, b);
      ReachBelow(g, a, b, x);
    }
    assert b in Under(g, nodes, a) && b !in Under(g, nodes, b);
  }

  // A proper path ends with an edge.
  lemma {:induction false} LastEdge(g: Edges, a: nat, b: nat) returns (c: nat)
    requires Below(g, a, b)
    ensures (c, b) in g && Reach(g, a, c)
  {
    var d: nat :| (a, d) in g && Reach(g, d, b);
    var p :| IsPath(g, p) && From(p, d, b);
    var n := |p| - 1;
    if n == 0 {
      c := a;
      ReachSelf(g, a);
    } else {
      c := p[n - 1];
      assert (p[n - 1], p[n]) in g;
      assert IsPath(g, p[..n]) && From(p[..n], d, c);
      ReachEdge(g, a, d);
      ReachTrans(g, a, d, c);
    }
  }
}
