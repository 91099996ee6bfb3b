/** The unified name space tree and its alternatives (constable/tree.c:454-554). */
module Trees {

  // compiled_regex: none, the pattern .*, or another pattern.
  datatype Regex = NoRegex | AnyName | Pattern(id: nat)

  // tree_s: the children of a node are two lists. fits is regexec.
  datatype Tree = Tree(nodes: set<nat>, root: nat, parent: map<nat, nat>, depth: map<nat, nat>,
                       name: map<nat, string>, regex: map<nat, Regex>, fits: (nat, string) -> bool,
                       kids: map<nat, seq<nat>>, regexKids: map<nat, seq<nat>>)
  {
    predicate IsKid(n: nat, c: nat)
      requires n in kids && n in regexKids
    {
      c in kids[n] || c in regexKids[n]
    }

    ghost predicate Valid() {
      && root in nodes && nodes == depth.Keys == name.Keys == regex.Keys == kids.Keys == regexKids.Keys
      && depth[root] == 0 && (forall n {:trigger n in parent} :: n in parent <==> n in nodes && n != root)
      && (forall n {:trigger parent[n]} :: n in parent ==>
        parent[n] in nodes && depth[n] == depth[parent[n]] + 1 && IsKid(parent[n], n))
      && (forall n, c :: n in nodes && IsKid(n, c) ==> c in parent && parent[c] == n)
    }

    // regcmp
    predicate Fits(r: Regex, s: string) { r == AnyName || (r.Pattern? && fits(r.id, s)) }

    // tree_get_rnth
    ghost function Up(n: nat, k: nat): nat
      requires Valid() && n in nodes && k <= depth[n]
      ensures Up(n, k) in nodes && depth[Up(n, k)] == depth[n] - k
      decreases k
    {
      if k == 0 then n else Up(parent[n], k - 1)
    }

    // Node r of a path lets the walk pass through its alternative a.
    ghost predicate Passes(r: nat, a: nat)
      requires Valid() && r in nodes && a in parent
    {
      if regex[r] == NoRegex then a in kids[parent[a]] && name[a] == name[r]
      else
        || (a in kids[parent[a]] && Fits(regex[r], name[a]))
        || (a in regexKids[parent[a]] && (regex[r] == AnyName || name[a] == name[r]))
    }

    // a is an alternative of p: step by step its path passes that of p.
    ghost predicate Alt(a: nat, p: nat)
      requires Valid() && p in nodes
      decreases depth[p]
    {
      if p == root then a == root
      else a in parent && Passes(p, a) && Alt(parent[a], parent[p])
    }

    // n is t, or below it.
    ghost predicate Descends(n: nat, t: nat)
      requires Valid() && n in nodes
      decreases depth[n]
    {
      n == t || (n != root && Descends(parent[n], t))
    }

    // An alternative a of p stands on the way from n to the root.
    ghost predicate Above(a: nat, p: nat, n: nat)
      requires Valid() && p in nodes && n in nodes
    {
      Alt(a, p) && Descends(n, a)
    }

    lemma {:induction false} DescendsTrans(n: nat, m: nat, t: nat)
      requires Valid() && n in nodes && m in nodes && Descends(n, m) && Descends(m, t)
      ensures Descends(n, t)
      decreases depth[n]
    {
      if n != m { DescendsTrans(parent[n], m, t); }
    }

    // A node below t is t, or below a child of t.
    lemma {:induction false} DescendsKid(n: nat, t: nat)
      requires Valid() && n in nodes && t in nodes && Descends(n, t) && n != t
      ensures exists c :: c in nodes && IsKid(t, c) && Descends(n, c)
      decreases depth[n]
    {
      if parent[n] == t {
        assert Descends(n, n);
      } else {
        DescendsKid(parent[n], t);
        var c :| c in nodes && IsKid(t, c) && Descends(parent[n], c);
        assert Descends(n, c);
      }
    }

    lemma {:induction false} KidDescends(n: nat, c: nat, t: nat)
      requires Valid() && n in nodes && t in nodes && IsKid(t, c) && Descends(n, c)
      ensures c in nodes && Descends(n, t)
    {
      assert Descends(c, t) by { assert Descends(t, t); }
      DescendsTrans(n, c, t);
    }

    lemma {:induction false} AltDepth(a: nat, p: nat)
      requires Valid() && p in nodes && Alt(a, p)
      ensures a in nodes && depth[a] == depth[p]
      decreases depth[p]
    {
      if p != root { AltDepth(parent[a], parent[p]); }
    }

    lemma {:induction false} UpNext(n: nat, k: nat)
      requires Valid() && n in nodes && k < depth[n]
      ensures Up(n, k) != root && Up(n, k + 1) == parent[Up(n, k)]
      decreases k
    {
      if k > 0 { UpNext(parent[n], k - 1); }
    }

    // What an alternative has above it is an alternative of what p has.
    lemma {:induction false} AltUp(a: nat, p: nat, k: nat)
      requires Valid() && p in nodes && a in nodes && depth[a] == depth[p] && Alt(a, p) && k <= depth[p]
      ensures Alt(Up(a, k), Up(p, k))
      decreases k
    {
      if k > 0 {
        AltDepth(parent[a], parent[p]);
        AltUp(parent[a], parent[p], k - 1);
      }
    }
  }

  // Where the parents are alternatives: the node .* has every child as an
  // alternative, whatever its name; a node with another pattern the plain children
  // the pattern fits, and of the children with a pattern those of its own name; a
  // plain node the plain child of its name.
  lemma {:induction false} AltByName(tree: Tree, p: nat, a: nat)
    requires tree.Valid() && p in tree.parent && a in tree.parent && tree.Alt(tree.parent[a], tree.parent[p])
    ensures tree.regex[p] == AnyName ==> tree.Alt(a, p)
    ensures tree.regex[p].Pattern? && a in tree.kids[tree.parent[a]] && a !in tree.regexKids[tree.parent[a]] ==>
      (tree.Alt(a, p) <==> tree.fits(tree.regex[p].id, tree.name[a]))
    ensures tree.regex[p].Pattern? && a !in tree.kids[tree.parent[a]] ==>
      (tree.Alt(a, p) <==> tree.name[a] == tree.name[p])
    ensures tree.regex[p] == NoRegex ==>
      (tree.Alt(a, p) <==> a in tree.kids[tree.parent[a]] && tree.name[a] == tree.name[p])
  {
    assert p in tree.nodes && p != tree.root && tree.IsKid(tree.parent[a], a);
  }

  // The alternatives of p whose k-th ancestor is t.
  ghost predicate AltUnder(tree: Tree, t: nat, p: nat, k: nat, x: nat)
    requires tree.Valid() && p in tree.nodes && k <= tree.depth[p]
  {
    tree.Alt(x, p) && x in tree.nodes && tree.depth[x] == tree.depth[p] && tree.Up(x, k) == t
  }

  // tree_get_rnth
  method GetRnth(tree: Tree, t: nat, n: nat) returns (p: nat)
    requires tree.Valid() && t in tree.nodes && n <= tree.depth[t]
    ensures p == tree.Up(t, n) && p in tree.nodes
  {
    p := t;
    var k := n;
    while k > 0
      invariant 0 <= k <= n && p in tree.nodes && k <= tree.depth[p] && tree.Up(p, k) == tree.Up(t, n)
    {
      p := tree.parent[p];
      k := k - 1;
    }
  }

  // tree_for_alt_i: the nodes it calls the function for, in order.
  method ForAltI(tree: Tree, t: nat, p: nat, n: nat) returns (out: seq<nat>)
    requires tree.Valid() && t in tree.nodes && p in tree.nodes && n <= tree.depth[p]
    requires tree.Alt(t, tree.Up(p, n))
    ensures forall x :: x in out <==> AltUnder(tree, t, p, n, x)
    decreases n
  {
    hide Tree.Passes, Through;
    if n == 0 {
      tree.AltDepth(t, p);
      return [t];
    }
    out := [];
    var r := GetRnth(tree, p, n - 1);
    tree.UpNext(p, n - 1);
    tree.AltDepth(t, tree.Up(p, n));
    if tree.regex[r] == NoRegex {
      out := ForAltKids(tree, t, p, n, r, tree.kids[t], false);
    } else {
      var a := ForAltKids(tree, t, p, n, r, tree.kids[t], false);
      var b := ForAltKids(tree, t, p, n, r, tree.regexKids[t], true);
      out := a + b;
    }
    AllKids(tree, t, p, n, r);
  }

  // A child of the right list, and what the loop over that list tests.
  predicate Tests(tree: Tree, r: nat, a: nat, regexList: bool)
    requires r in tree.regex && r in tree.name && a in tree.name
  {
    if regexList then tree.regex[r] == AnyName || tree.name[r] == tree.name[a]
    else if tree.regex[r] == NoRegex then tree.name[r] == tree.name[a]
    else tree.regex[r] == AnyName || tree.fits(tree.regex[r].id, tree.name[a])
  }

  // One loop over a list of children.
  method ForAltKids(tree: Tree, t: nat, p: nat, n: nat, r: nat, kids: seq<nat>, regexList: bool) returns (out: seq<nat>)
    requires tree.Valid() && t in tree.nodes && p in tree.nodes && 0 < n <= tree.depth[p]
    requires tree.Alt(t, tree.Up(p, n)) && r == tree.Up(p, n - 1) && r != tree.root && tree.parent[r] == tree.Up(p, n)
    requires kids == (if regexList then tree.regexKids[t] else tree.kids[t]) && (regexList ==> tree.regex[r] != NoRegex)
    ensures forall x :: x in out <==> exists a :: Through(tree, t, p, n, r, regexList, a, x)
    decreases n, 0
  {
    hide Tree.Passes, AltUnder, Tests, Through;
    out := [];
    var i := 0;
    while i < |kids|
      invariant 0 <= i <= |kids|
      invariant forall x :: x in out <==> exists a :: a in kids[..i] && Through(tree, t, p, n, r, regexList, a, x)
    {
      var a := kids[i];
      assert tree.IsKid(t, a);
      assert kids[..i + 1] == kids[..i] + [a];
      ghost var was := out;
      if Tests(tree, r, a, regexList) {
        TestPasses(tree, t, r, a, regexList);
        assert tree.Alt(a, r);
        var more := ForAltI(tree, a, p, n - 1);
        out := out + more;
      }
      NextKid(tree, t, p, n, r, kids, regexList, i, was, out);
      i := i + 1;
    }
    assert kids[..|kids|] == kids;
    forall a, x | Through(tree, t, p, n, r, regexList, a,
      x) ensures a in kids { ThroughKid(tree, t, p, n, r, regexList, a, x); }
  }

  lemma ThroughKid(tree: Tree, t: nat, p: nat, n: nat, r: nat, regexList: bool, a: nat, x: nat)
    requires tree.Valid() && t in tree.nodes && p in tree.nodes && r in tree.nodes && 0 < n <= tree.depth[p]
    requires Through(tree, t, p, n, r, regexList, a, x)
    ensures a in (if regexList then tree.regexKids[t] else tree.kids[t]) && a in tree.nodes &&
        Tests(tree, r, a, regexList)
    ensures AltUnder(tree, a, p, n - 1, x)
  {
  }

  lemma {:induction false} NextKid(tree: Tree, t: nat, p: nat, n: nat, r: nat, kids: seq<nat>, regexList: bool, i: nat,
      was: seq<nat>, out: seq<nat>)
    requires tree.Valid() && t in tree.nodes && p in tree.nodes && r in tree.nodes && 0 < n <= tree.depth[p]
    requires kids == (if regexList then tree.regexKids[t] else tree.kids[t]) && i < |kids| && kids[i] in tree.nodes
    requires forall x :: x in was <==> exists a :: a in kids[..i] && Through(tree, t, p, n, r, regexList, a, x)
    requires forall x :: x in out <==>
        x in was || (Tests(tree, r, kids[i], regexList) && AltUnder(tree, kids[i], p, n - 1, x))
    ensures forall x :: x in out <==> exists a :: a in kids[..i + 1] && Through(tree, t, p, n, r, regexList, a, x)
  {
    hide AltUnder, Tests;
    forall x ensures x in out <==> exists a :: a in kids[..i + 1] && Through(tree, t, p, n, r, regexList, a, x) {
      assert kids[..i + 1] == kids[..i] + [kids[i]];
      if x in was {
        var a :| a in kids[..i] && Through(tree, t, p, n, r, regexList, a, x);
        assert a in kids[..i + 1];
      } else if x in out {
        assert kids[i] in kids[..i + 1] && Through(tree, t, p, n, r, regexList, kids[i], x);
      }
    }
  }

  lemma TestPasses(tree: Tree, t: nat, r: nat, a: nat, regexList: bool)
    requires tree.Valid() && t in tree.nodes && r in tree.nodes && tree.IsKid(t, a)
    requires a in (if regexList then tree.regexKids[t] else tree.kids[t]) && (regexList ==> tree.regex[r] != NoRegex)
    ensures a in tree.nodes && (Tests(tree, r, a, regexList) ==> tree.Passes(r, a))
  {
  }

  // x is an alternative below child a of t, which a loop lets pass.
  ghost predicate Through(tree: Tree, t: nat, p: nat, n: nat, r: nat, regexList: bool, a: nat, x: nat)
    requires tree.Valid() && t in tree.nodes && p in tree.nodes && r in tree.nodes && 0 < n <= tree.depth[p]
  {
    && a in (if regexList then tree.regexKids[t] else tree.kids[t]) && a in tree.nodes
    && Tests(tree, r, a, regexList) && AltUnder(tree, a, p, n - 1, x)
  }

  // An alternative of p below t goes through a child of t that one of the loops
  // lets pass.
  lemma {:induction false} AllKids(tree: Tree, t: nat, p: nat, n: nat, r: nat)
    requires tree.Valid() && t in tree.nodes && p in tree.nodes && 0 < n <= tree.depth[p]
    requires tree.Alt(t, tree.Up(p, n)) && r == tree.Up(p, n - 1) && r != tree.root && tree.parent[r] == tree.Up(p, n)
    ensures forall x :: AltUnder(tree, t, p, n, x) <==>
      || (exists a :: Through(tree, t, p, n, r, false, a, x))
      || (tree.regex[r] != NoRegex && exists a :: Through(tree, t, p, n, r, true, a, x))
  {
    hide AltUnder, Through, Tests, Tree.Passes;
    forall x | AltUnder(tree, t, p, n, x)
      ensures (exists a :: Through(tree, t, p, n, r, false, a, x))
        || (tree.regex[r] != NoRegex && exists a :: Through(tree, t, p, n, r, true, a, x))
    {
      var a, l := KidOf(tree, t, p, n, r, x);
    }
    forall l, a, x | Through(tree, t, p, n, r, l, a, x) ensures AltUnder(tree, t, p, n, x) {
      KidAlt(tree, t, p, n, r, l, a, x);
    }
  }

  lemma {:induction false} KidOf(tree: Tree, t: nat, p: nat, n: nat, r: nat, x: nat) returns (a: nat, regexList: bool)
    requires tree.Valid() && t in tree.nodes && p in tree.nodes && 0 < n <= tree.depth[p]
    requires tree.Alt(t, tree.Up(p, n)) && r == tree.Up(p, n - 1) && r != tree.root && tree.parent[r] == tree.Up(p, n)
    requires AltUnder(tree, t, p, n, x)
    ensures Through(tree, t, p, n, r, regexList, a, x) && (regexList ==> tree.regex[r] != NoRegex)
  {
    hide Tree.Passes, Tests, Tree.Valid;
    a := tree.Up(x, n - 1);
    tree.UpNext(x, n - 1);
    tree.AltUp(x, p, n - 1);
    AltPasses(tree, a, r);
    regexList := PassList(tree, t, r, a);
  }

  lemma AltPasses(tree: Tree, a: nat, r: nat)
    requires tree.Valid() && r in tree.nodes && tree.Alt(a, r) && r != tree.root
    ensures a in tree.parent && tree.Passes(r, a)
  {
  }

  lemma PassList(tree: Tree, t: nat, r: nat, a: nat) returns (regexList: bool)
    requires tree.Valid() && r in tree.nodes && a in tree.parent && tree.Passes(r, a) && tree.parent[a] == t
    ensures a in (if regexList then tree.regexKids[t] else tree.kids[t]) && Tests(tree, r, a, regexList)
    ensures regexList ==> tree.regex[r] != NoRegex
  {
    regexList := !(a in tree.kids[t] && Tests(tree, r, a, false));
  }

  lemma {:induction false} KidAlt(tree: Tree, t: nat, p: nat, n: nat, r: nat, regexList: bool, a: nat, x: nat)
    requires tree.Valid() && t in tree.nodes && p in tree.nodes && r in tree.nodes && 0 < n <= tree.depth[p]
    requires Through(tree, t, p, n, r, regexList, a, x)
    ensures AltUnder(tree, t, p, n, x)
  {
    assert tree.IsKid(t, a);
    tree.UpNext(x, n - 1);
  }

  // tree_for_alternatives
  method ForAlternatives(tree: Tree, p: nat) returns (out: seq<nat>)
    requires tree.Valid() && p in tree.nodes
    ensures forall x :: x in out <==> tree.Alt(x, p)
  {
    var n := tree.depth[p];
    var top := GetRnth(tree, p, n);
    OnlyRoot(tree, top);
    out := ForAltI(tree, top, p, n);
    forall x ensures tree.Alt(x, p) <==> AltUnder(tree, top, p, n, x) {
      if tree.Alt(x, p) {
        tree.AltDepth(x, p);
        OnlyRoot(tree, tree.Up(x, n));
      }
    }
  }

  lemma OnlyRoot(tree: Tree, t: nat)
    requires tree.Valid() && t in tree.nodes && tree.depth[t] == 0
    ensures t == tree.root && tree.Alt(t, t)
  {
    assert t !in tree.parent;
  }

  // tree_is_equal
  method IsEqual(tree: Tree, test: nat, p: nat) returns (b: bool)
    requires tree.Valid() && p in tree.nodes
    ensures b == tree.Alt(test, p)
  {
    var alts := ForAlternatives(tree, p);
    b := test in alts;
  }

  // tree_is_offspring: some alternative stands on the way from the node to the root.
  method IsOffspring(tree: Tree, offspring: nat, p: nat) returns (b: bool)
    requires tree.Valid() && p in tree.nodes && offspring in tree.nodes
    ensures b == exists a :: tree.Above(a, p, offspring)
  {
    var alts := ForAlternatives(tree, p);
    var i := 0;
    while i < |alts|
      invariant 0 <= i <= |alts| && forall j :: 0 <= j < i ==> !tree.Descends(offspring, alts[j])
    {
      var o := offspring;
      var found := o == alts[i];
      while !found && o != tree.root
        invariant o in tree.nodes && (found ==> tree.Descends(o, alts[i])) && (!found ==> o != alts[i])
        invariant tree.Descends(offspring, alts[i]) == tree.Descends(o, alts[i])
        decreases tree.depth[o], if found then 0 else 1
      {
        o := tree.parent[o];
        found := o == alts[i];
      }
      if found {
        assert alts[i] in alts && tree.Above(alts[i], p, offspring);
        return true;
      }
      i := i + 1;
    }
    b := false;
  }
}
