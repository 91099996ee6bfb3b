/** Evaluation of spaces: which nodes of the tree are members
    (constable/space.c:258-708). */
module Spaces {
  import opened Lists
  import opened Graphs
  import opened Trees
  import opened SpaceRules

  const MAX_SPACE_PATH: nat := 32

  // What the calls of fatal() report.
  datatype Fatal = NoFatal | InfiniteLoop | TooManyNested | NoMember(s: nat) | StillUsed(s: nat)

  predicate NoDup(q: seq<nat>) { forall i, j :: 0 <= i < j < |q| ==> q[i] != q[j] }

  // Only what root reaches has been marked.
  ghost predicate Touched(g: Edges, root: nat, was: set<nat>, now: set<nat>) {
    was <= now && forall x: nat :: x in now && x !in was ==> Reach(g, root, x)
  }

  lemma TouchedThen(g: Edges, root: nat, s: nat, a: set<nat>, b: set<nat>, c: set<nat>)
    requires Touched(g, root, a, b) && Touched(g, s, b, c) && Reach(g, root, s)
    ensures Touched(g, root, a, c)
  {
    forall x: nat | x in c && x !in a ensures Reach(g, root, x) {
      if x !in b { ReachTrans(g, root, s, x); }
    }
  }

  lemma TouchedSelf(g: Edges, root: nat, a: set<nat>)
    ensures Touched(g, root, a, a) && Reach(g, root, root) && Touched(g, root, a, a + {root})
  {
    ReachSelf(g, root);
  }

  // Everything below x, which is below s, is below root.
  lemma {:induction false} DeepLess(setup: Setup, root: nat, s: nat, it: Item)
    requires setup.Valid() && s in setup.items && it in setup.items[s] && it.target.Space? &&
        Reach(setup.SpaceEdges(), root, s)
    ensures it.target.s in setup.items && setup.Deep(it.target.s) < setup.Deep(root)
    ensures Reach(setup.SpaceEdges(), root, it.target.s) && Below(setup.SpaceEdges(), root, it.target.s)
  {
    var g, x := setup.SpaceEdges(), it.target.s;
    setup.ItemBelow(s, it);
    ReachSelf(g, x);
    assert Below(g, s, x);
    ReachBelow(g, root, s, x);
    BelowReach(g, root, x);
    forall y | y in setup.Deep(x) ensures y in setup.Deep(root) { ReachBelow(g, root, x, y); }
    assert x in setup.Deep(root) && x !in setup.Deep(x);
  }

  class World {
    const setup: Setup
    var order: seq<nat>                 // global_spaces
    var used: set<nat>
    var processed: set<nat>
    var hasId: set<nat>                 // spaces whose vs_id is not clear
    var members: map<nat, seq<nat>>
    var visited: set<nat>               // nodes of the tree
    var fatal: Fatal

    ghost function Graph(): Edges { setup.SpaceEdges() }

    ghost predicate OnPath(path: seq<nat>, root: nat) {
      forall p :: p in path ==> p in setup.items && Reach(Graph(), root, p)
    }

    // space_path_add
    method PathAdd(path: seq<nat>, s: nat) returns (ok: bool, path': seq<nat>)
      modifies this`used, this`fatal
      ensures used == old(used) + {s}
      ensures ok == (s !in path && |path| < 32)
      ensures ok ==> path' == path + [s] && fatal == old(fatal)
      ensures !ok ==> fatal == if s in path then InfiniteLoop else TooManyNested
    {
      used := used + {s};
      var i := 0;
      while i < |path|
        invariant 0 <= i <= |path| && s !in path[..i]
      {
        if path[i] == s {
          fatal := InfiniteLoop;
          return false, path;
        }
        i := i + 1;
      }
      assert path[..|path|] == path;
      if |path| >= MAX_SPACE_PATH {
        fatal := TooManyNested;
        return false, path;
      }
      ok, path' := true, path + [s];
    }

    // is_included
    method IsIncluded(test: nat, s: nat, force: bool) returns (ok: bool, b: bool)
      requires setup.Valid() && s in setup.items && test in setup.tree.nodes
      modifies this`used, this`fatal
      ensures Touched(Graph(), s, old(used), used)
      ensures setup.Plain() && setup.TreeOnly(s) ==> ok && b == setup.Holds(s, force, test) && fatal == old(fatal)
      decreases setup.Deep(s), 5
    {
      hide Setup.Valid, Setup.Holds, Setup.Plain, Reach;
      TouchedSelf(Graph(), s, used);
      var path;
      ok, b, path := IsIncludedI(test, [], s, force, s);
    }

    // is_included_i. A space that includes others is not taken off the path.
    method IsIncludedI(test: nat, path: seq<nat>, s: nat, force: bool, ghost root: nat) returns (ok: bool, b: bool,
        path': seq<nat>)
      requires setup.Valid() && root in setup.items && s in setup.items && test in setup.tree.nodes
      requires OnPath(path, root) && Reach(Graph(), root, s)
      modifies this`used, this`fatal
      ensures Touched(Graph(), root, old(used), used)
      ensures ok ==> OnPath(path', root)
      ensures path == [] && setup.Plain() && setup.TreeOnly(s) ==>
          ok && b == setup.Holds(s, force, test) && fatal == old(fatal)
      decreases setup.Deep(root), 4, setup.Deep(s)
    {
      hide Setup.Valid, Setup.Holds, Setup.Plain, Setup.Covers, Setup.Excluded, Setup.Deep, Setup.SpaceEdges, Reach,
        Touched;
      ghost var plain := path == [] && setup.Plain() && setup.TreeOnly(s);
      ok, path' := PathAdd(path, s);
      TouchedAdd(Graph(), root, s, old(used));
      if !ok {
        return false, false, path;
      }
      var items := setup.items[s];
      var i := 0;
      while i < |items|
        invariant 0 <= i <= |items| && OnPath(path', root)
        invariant Touched(Graph(), root, old(used), used)
        invariant plain ==> path' == [s] && fatal == old(fatal)
        invariant plain ==> forall j :: 0 <= j < i ==> !Admits(setup, items[j], force, test)
      {
        var it := items[i];
        ItemFacts(setup, s, it);
        if it.target.Node? && !it.exclude {
          var covers := CoversNode(setup.tree, test, it.target.n, force || it.recursive);
          CoversIs(setup, it.target.n, force || it.recursive, test);
          if covers {
            var r;
            ghost var was := used;
            ok, r := PathExclude(path', test, root);
            TouchedOn(Graph(), root, old(used), was, used);
            if plain { HoldsAt(setup, s, force, test, i); }
            return ok, r == 0, path';
          }
        } else if it.target.Space? && !it.exclude {
          DeepLess(setup, root, s, it);
          DeepLess(setup, s, s, it) by { TouchedSelf(Graph(), s, {}); }
          ghost var was := used;
          ok, b, path' := IsIncludedI(test, path', it.target.s, it.recursive || force, root);
          TouchedOn(Graph(), root, old(used), was, used);
          if !ok || b {
            return ok, b, path';
          }
        }
        i := i + 1;
      }
      if plain { HoldsNot(setup, s, force, test); }
      return true, false, path';
    }

    // is_excluded_i
    method IsExcludedI(test: nat, s: nat, ghost root: nat) returns (ok: bool, r: nat)
      requires setup.Valid() && root in setup.items && s in setup.items && test in setup.tree.nodes &&
          Reach(Graph(), root, s)
      modifies this`used, this`fatal
      ensures Touched(Graph(), root, old(used), used) && r <= 2
      ensures setup.Plain() ==>
          ok && fatal == old(fatal) && (r > 0 <==> setup.Excluded(s, test)) && (r == 2 ==> setup.Sunk(s, test))
      decreases setup.Deep(root), 2
    {
      hide Setup.Valid, Setup.Holds, Setup.Plain, Setup.Covers, Setup.Excluded, Setup.Sunk, Setup.Deep,
        Setup.SpaceEdges, Reach, Touched;
      ghost var plain := setup.Plain();
      TouchedSelf(Graph(), root, used);
      r := 0;
      var items := setup.items[s];
      var i := 0;
      while i < |items|
        invariant 0 <= i <= |items| && r <= 2 && Touched(Graph(), root, old(used), used)
        invariant plain ==> r < 2 && fatal == old(fatal)
        invariant plain ==> (r > 0 <==> exists j :: 0 <= j < i && Bars(setup, items[j], test))
        invariant r < 2
      {
        var it := items[i];
        ItemFacts(setup, s, it);
        BarsIs(setup, s, it, test);
        if it.target.Node? && it.exclude {
          var equal := IsEqual(setup.tree, test, it.target.n);
          CoversIs(setup, it.target.n, it.recursive, test);
          if equal {
            BarredBy(setup, s, test, i);
            if it.recursive { SunkBy(setup, s, test, i); }
            return true, if it.recursive then 2 else 1;
          }
          if it.recursive {
            var below := IsOffspring(setup.tree, test, it.target.n);
            if below {
              BarredBy(setup, s, test, i);
              SunkBy(setup, s, test, i);
              return true, 2;
            }
          }
        } else if it.target.Space? && it.exclude {
          DeepLess(setup, root, s, it);
          if plain { PlainItem(setup, s, it); }
          var b;
          ghost var was := used;
          ok, b := IsIncluded(test, it.target.s, it.recursive);
          TouchedThen(Graph(), root, it.target.s, old(used), was, used);
          if !ok {
            return false, 0;
          }
          if b { r := if it.recursive then 2 else 1; }
        }
        if r > 1 {
          break;
        }
        i := i + 1;
      }
      if r == 2 { return true, 2; }
      if plain { ExcludedBy(setup, s, test); }
      ok := true;
    }

    // space_path_exclude
    method PathExclude(path: seq<nat>, test: nat, ghost root: nat) returns (ok: bool, r: nat)
      requires setup.Valid() && root in setup.items && test in setup.tree.nodes && OnPath(path, root)
      modifies this`used, this`fatal
      ensures Touched(Graph(), root, old(used), used) && r <= 2
      ensures setup.Plain() ==> ok && fatal == old(fatal) && (r == 0 <==> setup.Free(path, test))
      ensures setup.Plain() && r == 2 ==> exists p :: p in path && p in setup.items && setup.Sunk(p, test)
      decreases setup.Deep(root), 3
    {
      hide Setup.Valid, Setup.Plain, Setup.Excluded, Setup.Sunk, Setup.Deep, Setup.SpaceEdges, Reach, Touched;
      ghost var plain := setup.Plain();
      TouchedSelf(Graph(), root, used);
      r := 0;
      var i := 0;
      while i < |path|
        invariant 0 <= i <= |path| && r < 2 && Touched(Graph(), root, old(used), used)
        invariant plain ==> fatal == old(fatal) && (r > 0 <==> exists j :: 0 <= j < i && setup.Excluded(path[j], test))
      {
        var rn;
        ghost var was := used;
        ok, rn := IsExcludedI(test, path[i], root);
        TouchedOn(Graph(), root, old(used), was, used);
        if !ok {
          return false, 0;
        }
        r := if rn > r then rn else r;
        if r > 1 {
          return true, r;
        }
        i := i + 1;
      }
      if plain && r == 0 { assert forall p :: p in path ==> exists j :: 0 <= j < |path| && path[j] == p; }
      ok := true;
    }

    /* Gathering the members of a space */

    // The nodes gathered for a space are those marked as visited, each once.
    ghost predicate Tidy(arg: nat)
      reads this`members, this`visited
    {
      && arg in members && NoDup(members[arg])
      && visited == (set n | n in members[arg]) && visited <= setup.tree.nodes
    }

    // Only the array of arg has changed.
    twostate predicate OnlyFor(arg: nat)
      reads this`members
    {
      members.Keys == old(members.Keys) && forall s :: s in members && s != arg ==> members[s] == old(members)[s]
    }

    // tree_get_visited_do
    method GetVisited(p: nat, arg: nat)
      requires Tidy(arg) && p in setup.tree.nodes
      modifies this`visited, this`members
      ensures Tidy(arg) && OnlyFor(arg) && visited == old(visited) + {p}
    {
      if p !in visited {
        visited := visited + {p};
        members := members[arg := members[arg] + [p]];
        assert forall n :: n in members[arg] <==> n in old(members[arg]) || n == p;
      }
    }

    // What a walk from t gathers: t, and with recursive what is below it, as far
    // as the spaces of the path let it.
    ghost predicate OnePath(t: nat, path: seq<nat>, recursive: bool, n: nat)
      requires setup.Valid() && n in setup.tree.nodes
    {
      (n == t || (recursive && setup.tree.Descends(n, t))) && setup.Free(path, n)
    }

    // space_for_one_path_i
    method ForOnePathI(t: nat, path: seq<nat>, recursive: bool, arg: nat, ghost root: nat) returns (ok: bool)
      requires setup.Valid() && t in setup.tree.nodes && root in setup.items && OnPath(path, root) && Tidy(arg)
      modifies this`used, this`fatal, this`visited, this`members
      ensures Touched(Graph(), root, old(used), used) && Tidy(arg) && OnlyFor(arg)
      ensures setup.Plain() ==> ok && fatal == old(fatal)
      ensures setup.Plain() ==>
        forall n :: n in setup.tree.nodes ==> (n in visited <==> n in old(visited) || OnePath(t, path, recursive, n))
      decreases Subtree(setup.tree, t), 1
    {
      hide Setup.Valid, Setup.Plain, Setup.Free, Setup.Sunk, Setup.Deep, Setup.SpaceEdges, Reach, Touched, World.Tidy,
        World.OnePath, Tree.Valid, Tree.Descends, Subtree;
      ghost var plain := setup.Plain();
      TreeValid(setup);
      var r;
      ok, r := PathExclude(path, t, root);
      if !ok {
        return false;
      }
      if r == 0 {
        GetVisited(t, arg);
      }
      if recursive && r < 2 {
        KidsKnown(setup.tree, t);
        ghost var was := used;
        ok := ForKids(t, setup.tree.kids[t], path, arg, root);
        TouchedOn(Graph(), root, old(used), was, used);
        if !ok {
          return false;
        }
        was := used;
        ok := ForKids(t, setup.tree.regexKids[t], path, arg, root);
        TouchedOn(Graph(), root, old(used), was, used);
        if plain { AllBelow(this, t, path); }
      } else if plain {
        if recursive { NothingBelow(this, t, path); }
        OnlyHere(this, t, path);
      }
    }

    // The loop over a list of children.
    method ForKids(t: nat, kids: seq<nat>, path: seq<nat>, arg: nat, ghost root: nat) returns (ok: bool)
      requires setup.Valid() && t in setup.tree.nodes && root in setup.items && OnPath(path, root) && Tidy(arg)
      requires setup.tree.Valid() && (kids == setup.tree.kids[t] || kids == setup.tree.regexKids[t])
      modifies this`used, this`fatal, this`visited, this`members
      ensures Touched(Graph(), root, old(used), used) && Tidy(arg) && OnlyFor(arg)
      ensures setup.Plain() ==> ok && fatal == old(fatal)
      ensures setup.Plain() ==>
        forall n :: n in setup.tree.nodes ==> (n in visited <==>
          n in old(visited) || exists c :: c in kids && OnePath(c, path, true, n))
      decreases Subtree(setup.tree, t), 0
    {
      hide Setup.Valid, Setup.Plain, Setup.Free, Setup.Deep, Setup.SpaceEdges, Reach, Touched, World.Tidy,
        World.OnePath, Tree.Valid, Tree.Descends, Subtree;
      ghost var plain := setup.Plain();
      TouchedSelf(Graph(), root, used);
      var i := 0;
      while i < |kids|
        invariant 0 <= i <= |kids| && Tidy(arg) && OnlyFor(arg)
        invariant Touched(Graph(), root, old(used), used)
        invariant plain ==> fatal == old(fatal)
        invariant plain ==> forall n :: n in setup.tree.nodes ==> (n in visited <==>
            n in old(visited) || exists j :: 0 <= j < i && OnePath(kids[j], path, true, n))
      {
        SubtreeLess(setup.tree, t, kids[i]);
        ghost var was := used;
        ok := ForOnePathI(kids[i], path, true, arg, root);
        TouchedOn(Graph(), root, old(used), was, used);
        if !ok {
          return false;
        }
        i := i + 1;
      }
      ok := true;
    }

    // space_for_one_path: every alternative.
    method ForOnePath(p: nat, path: seq<nat>, recursive: bool, arg: nat, ghost root: nat) returns (ok: bool)
      requires setup.Valid() && p in setup.tree.nodes && root in setup.items && OnPath(path, root) && Tidy(arg)
      modifies this`used, this`fatal, this`visited, this`members
      ensures Touched(Graph(), root, old(used), used) && Tidy(arg) && OnlyFor(arg)
      ensures setup.Plain() ==> ok && fatal == old(fatal)
      ensures setup.Plain() ==>
        forall n :: n in setup.tree.nodes ==> (n in visited <==>
          n in old(visited) || (setup.Covers(p, recursive, n) && setup.Free(path, n)))
    {
      hide Setup.Valid, Setup.Plain, Setup.Free, Setup.Covers, Setup.Deep, Setup.SpaceEdges, Reach, Touched,
        World.Tidy, World.OnePath, Tree.Valid, Tree.Descends, Tree.Alt;
      ghost var plain := setup.Plain();
      TreeValid(setup);
      TouchedSelf(Graph(), root, used);
      var alts := ForAlternatives(setup.tree, p);
      var i := 0;
      while i < |alts|
        invariant 0 <= i <= |alts| && Tidy(arg) && OnlyFor(arg)
        invariant Touched(Graph(), root, old(used), used)
        invariant plain ==> fatal == old(fatal)
        invariant plain ==> forall n :: n in setup.tree.nodes ==> (n in visited <==>
            n in old(visited) || exists j :: 0 <= j < i && OnePath(alts[j], path, recursive, n))
      {
        AltNode(setup.tree, alts[i], p);
        ghost var was := used;
        ok := ForOnePathI(alts[i], path, recursive, arg, root);
        TouchedOn(Graph(), root, old(used), was, used);
        if !ok {
          return false;
        }
        i := i + 1;
      }
      ok := true;
      if plain { AllAlternatives(this, p, path, recursive, alts); }
    }

    // space_for_every_path_i
    method ForEveryPathI(s: nat, path: seq<nat>, force: bool, arg: nat, ghost root: nat) returns (ok: bool)
      requires setup.Valid() && s in setup.items && root in setup.items && OnPath(path, root) &&
          Reach(Graph(), root, s) && Tidy(arg)
      requires forall p :: p in path ==> Below(Graph(), p, s)
      modifies this`used, this`fatal, this`visited, this`members
      ensures Touched(Graph(), root, old(used), used) && Tidy(arg) && OnlyFor(arg)
      ensures setup.Plain() && ok ==> fatal == old(fatal)
      ensures setup.Plain() && ok ==>
        forall n :: n in setup.tree.nodes ==> (n in visited <==> n in old(visited) || setup.Lists(s, path, force, n))
      ensures setup.Plain() && !ok ==> fatal == TooManyNested
      decreases setup.Deep(s)
    {
      hide Setup.Valid, Setup.Plain, Setup.Free, Setup.Covers, Setup.Lists, Setup.Deep, Setup.SpaceEdges, Reach, Below,
        Touched, World.Tidy, Tree.Valid;
      ghost var plain := setup.Plain();
      var path';
      NotOnPath(setup, s, path);
      ok, path' := PathAdd(path, s);
      TouchedAdd(Graph(), root, s, old(used));
      if !ok {
        return false;
      }
      var items := setup.items[s];
      var i := 0;
      while i < |items|
        invariant 0 <= i <= |items| && Tidy(arg) && OnlyFor(arg)
        invariant Touched(Graph(), root, old(used), used)
        invariant plain ==> fatal == old(fatal)
        invariant plain ==> forall n :: n in setup.tree.nodes ==> (n in visited <==>
            n in old(visited) || exists j :: 0 <= j < i && Adds(setup, s, items[j], path, force, n))
      {
        var it := items[i];
        ItemFacts(setup, s, it);
        AddsIs(setup, s, it, path, force);
        ghost var was := used;
        if it.target.Node? && !it.exclude {
          ok := ForOnePath(it.target.n, path', it.recursive || force, arg, root);
          TouchedOn(Graph(), root, old(used), was, used);
          if !ok {
            return false;
          }
        } else if it.target.Space? && !it.exclude {
          DeepLess(setup, root, s, it);
          DeepLess(setup, s, s, it) by { TouchedSelf(Graph(), s, {}); }
          FurtherBelow(setup, s, it, path);
          ok := ForEveryPathI(it.target.s, path', it.recursive || force, arg, root);
          TouchedOn(Graph(), root, old(used), was, used);
          if !ok {
            return false;
          }
        }
        i := i + 1;
      }
      ok := true;
      if plain { ListsAdds(setup, s, path, force); }
    }
  }

  // What is below a node.
  ghost function Subtree(tree: Tree, t: nat): set<nat>
    requires tree.Valid()
  {
    set n | n in tree.nodes && tree.Descends(n, t)
  }

  lemma {:induction false} SubtreeLess(tree: Tree, t: nat, c: nat)
    requires tree.Valid() && t in tree.nodes && tree.IsKid(t, c)
    ensures c in tree.nodes && Subtree(tree, c) < Subtree(tree, t)
  {
    forall n | n in Subtree(tree, c) ensures n in Subtree(tree, t) { tree.KidDescends(n, c, t); }
    assert tree.Descends(t, t);
    Lower(tree, t, c);
    assert t in Subtree(tree, t) && t !in Subtree(tree, c);
  }

  // Only deeper nodes are below c.
  lemma {:induction false} Lower(tree: Tree, n: nat, c: nat)
    requires tree.Valid() && n in tree.nodes && c in tree.nodes && tree.depth[n] < tree.depth[c]
    ensures !tree.Descends(n, c)
    decreases tree.depth[n]
  {
    if n != tree.root { Lower(tree, tree.parent[n], c); }
  }

  lemma TreeValid(setup: Setup)
    requires setup.Valid()
    ensures setup.tree.Valid()
  {
  }

  lemma KidsKnown(tree: Tree, t: nat)
    requires tree.Valid() && t in tree.nodes
    ensures t in tree.kids && t in tree.regexKids
  {
  }

  lemma AltNode(tree: Tree, a: nat, p: nat)
    requires tree.Valid() && p in tree.nodes && tree.Alt(a, p)
    ensures a in tree.nodes
  {
    tree.AltDepth(a, p);
  }

  // The children and what is below them is all there is below t.
  lemma {:induction false} AllBelow(w: World, t: nat, path: seq<nat>)
    requires w.setup.Valid() && w.setup.tree.Valid() && t in w.setup.tree.nodes && t in w.setup.tree.kids &&
        t in w.setup.tree.regexKids
    ensures forall n :: n in w.setup.tree.nodes ==> (w.OnePath(t, path, true, n) <==>
      (n == t && w.setup.Free(path, t))
      || (exists c :: c in w.setup.tree.kids[t] && w.OnePath(c, path, true, n))
      || (exists c :: c in w.setup.tree.regexKids[t] && w.OnePath(c, path, true, n)))
  {
    hide Setup.Valid, Setup.Free, Tree.Valid, Tree.Descends;
    var tree := w.setup.tree;
    forall n | n in tree.nodes && w.OnePath(t, path, true, n) && n != t
      ensures exists c :: tree.IsKid(t, c) && w.OnePath(c, path, true, n)
    {
      tree.DescendsKid(n, t);
      var c :| c in tree.nodes && tree.IsKid(t, c) && tree.Descends(n, c);
      assert w.OnePath(c, path, true, n);
    }
    forall n, c | n in tree.nodes && tree.IsKid(t, c) &&
      w.OnePath(c, path, true, n) ensures w.OnePath(t, path, true, n) {
      DescendsSelf(tree, n);
      tree.KidDescends(n, c, t);
    }
  }

  lemma DescendsSelf(tree: Tree, n: nat)
    requires tree.Valid() && n in tree.nodes
    ensures tree.Descends(n, n)
  {
  }

  // Pruning loses nothing: all that is below t is excluded, too.
  lemma {:induction false} NothingBelow(w: World, t: nat, path: seq<nat>)
    requires w.setup.Valid() && t in w.setup.tree.nodes
    requires exists p :: p in path && p in w.setup.items && w.setup.Sunk(p, t)
    ensures forall n :: n in w.setup.tree.nodes ==> !w.OnePath(t, path, true, n)
  {
    hide Setup.Valid, Setup.Sunk, Setup.Excluded, Tree.Valid, Tree.Descends;
    TreeValid(w.setup);
    var p :| p in path && p in w.setup.items && w.setup.Sunk(p, t);
    forall n | n in w.setup.tree.nodes && (n == t || w.setup.tree.Descends(n, t)) ensures !w.setup.Free(path, n) {
      DescendsSelf(w.setup.tree, t);
      w.setup.SunkBelow(p, t, n);
    }
  }

  lemma OnlyHere(w: World, t: nat, path: seq<nat>)
    requires w.setup.Valid()
    ensures forall n :: n in w.setup.tree.nodes ==> (w.OnePath(t, path, false, n) <==> n == t && w.setup.Free(path, n))
  {
  }

  lemma {:induction false} AllAlternatives(w: World, p: nat, path: seq<nat>, recursive: bool, alts: seq<nat>)
    requires w.setup.Valid() && w.setup.tree.Valid() && p in w.setup.tree.nodes && forall a :: a in alts <==>
        w.setup.tree.Alt(a, p)
    ensures forall n :: n in w.setup.tree.nodes ==>
      ((exists j :: 0 <= j < |alts| && w.OnePath(alts[j], path, recursive, n)) <==>
        w.setup.Covers(p, recursive, n) && w.setup.Free(path, n))
  {
    hide Setup.Valid, Setup.Free, Setup.Covers, Tree.Valid, Tree.Descends, Tree.Alt;
    forall n | n in w.setup.tree.nodes
      ensures (exists j :: 0 <= j < |alts| && w.OnePath(alts[j], path, recursive, n)) <==>
          w.setup.Covers(p, recursive, n) && w.setup.Free(path, n)
    {
      CoversIs(w.setup, p, recursive, n);
      if w.setup.Covers(p, recursive, n) && w.setup.Free(path, n) {
        var a: nat := n;
        if !w.setup.tree.Alt(n, p) {
          a :| w.setup.tree.Above(a, p, n);
          assert w.setup.tree.Alt(a, p);
        }
        assert a in alts;
        var j :| 0 <= j < |alts| && alts[j] == a;
        assert w.OnePath(alts[j], path, recursive, n);
      }
      if exists j :: 0 <= j < |alts| && w.OnePath(alts[j], path, recursive, n) {
        var j :| 0 <= j < |alts| && w.OnePath(alts[j], path, recursive, n);
        assert alts[j] in alts;
        if n != alts[j] { assert w.setup.tree.Above(alts[j], p, n); }
      }
    }
  }

  lemma {:induction false} NotOnPath(setup: Setup, s: nat, path: seq<nat>)
    requires setup.Valid() && forall p :: p in path ==> Below(setup.SpaceEdges(), p, s)
    ensures s !in path
  {
  }

  lemma {:induction false} FurtherBelow(setup: Setup, s: nat, it: Item, path: seq<nat>)
    requires setup.Valid() && s in setup.items && it in setup.items[s] && it.target.Space?
    requires forall p :: p in path ==> Below(setup.SpaceEdges(), p, s)
    ensures forall p :: p in path + [s] ==> Below(setup.SpaceEdges(), p, it.target.s)
  {
    var g := setup.SpaceEdges();
    setup.ItemBelow(s, it);
    ReachSelf(g, it.target.s);
    ReachEdge(g, s, it.target.s);
    forall p | p in path + [s] ensures Below(g, p, it.target.s) {
      if p in path { BelowThen(g, p, s, it.target.s); }
    }
  }

  // An item adds n to the listing of s.
  ghost predicate Adds(setup: Setup, s: nat, it: Item, path: seq<nat>, force: bool, n: nat) {
    setup.Valid() && s in setup.items && n in setup.tree.nodes && it in setup.items[s] && !it.exclude &&
      setup.ListsBy(s, it, path, force, n)
  }

  lemma AddsIs(setup: Setup, s: nat, it: Item, path: seq<nat>, force: bool)
    requires setup.Valid() && setup.tree.Valid() && s in setup.items && it in setup.items[s]
    ensures it.exclude ==> forall n :: !Adds(setup, s, it, path, force, n)
    ensures !it.exclude && it.target.Node? && it.target.n in setup.tree.nodes ==> forall n :: n in setup.tree.nodes ==>
      (Adds(setup, s, it, path, force, n) <==>
        setup.Covers(it.target.n, it.recursive || force, n) && setup.Free(path + [s], n))
    ensures !it.exclude && it.target.Space? && it.target.s in setup.items ==> forall n :: n in setup.tree.nodes ==>
      (Adds(setup, s, it, path, force, n) <==> setup.Lists(it.target.s, path + [s], it.recursive || force, n))
  {
    hide Setup.Valid, Tree.Valid, Setup.Covers, Setup.Free, Setup.Lists;
  }

  lemma {:induction false} ListsAdds(setup: Setup, s: nat, path: seq<nat>, force: bool)
    requires setup.Valid() && s in setup.items
    ensures forall n :: n in setup.tree.nodes ==>
      (setup.Lists(s, path, force, n) <==> exists j ::
        0 <= j < |setup.items[s]| && Adds(setup, s, setup.items[s][j], path, force, n))
  {
    hide Setup.Valid, Setup.ListsBy;
    forall n | n in setup.tree.nodes
      ensures setup.Lists(s, path, force, n) <==> exists j ::
          0 <= j < |setup.items[s]| && Adds(setup, s, setup.items[s][j], path, force, n)
    {
      if setup.Lists(s, path, force, n) {
        var it :| it in setup.items[s] && !it.exclude && setup.ListsBy(s, it, path, force, n);
        var j :| 0 <= j < |setup.items[s]| && setup.items[s][j] == it;
        assert Adds(setup, s, setup.items[s][j], path, force, n);
      }
    }
  }

  lemma TouchedAdd(g: Edges, root: nat, s: nat, was: set<nat>)
    requires Reach(g, root, s)
    ensures Touched(g, root, was, was + {s})
  {
  }

  lemma TouchedOn(g: Edges, root: nat, a: set<nat>, b: set<nat>, c: set<nat>)
    requires Touched(g, root, a, b) && Touched(g, root, b, c)
    ensures Touched(g, root, a, c)
  {
  }

  lemma ItemFacts(setup: Setup, s: nat, it: Item)
    requires setup.Valid() && s in setup.items && it in setup.items[s]
    ensures setup.tree.Valid()
    ensures if it.target.Node? then it.target.n in setup.tree.nodes else it.target.s in setup.items
  {
  }

  // The two tests of is_included_i.
  method CoversNode(tree: Tree, test: nat, p: nat, recursive: bool) returns (b: bool)
    requires tree.Valid() && p in tree.nodes && test in tree.nodes
    ensures b == (tree.Alt(test, p) || (recursive && exists a :: tree.Above(a, p, test)))
  {
    hide Tree.Valid, Tree.Alt, Tree.Above;
    b := IsEqual(tree, test, p);
    if !b && recursive {
      b := IsOffspring(tree, test, p);
    }
  }

  lemma CoversIs(setup: Setup, p: nat, recursive: bool, n: nat)
    requires setup.tree.Valid() && p in setup.tree.nodes && n in setup.tree.nodes
    ensures setup.Covers(p, recursive, n) <==>
        setup.tree.Alt(n, p) || (recursive && exists a :: setup.tree.Above(a, p, n))
  {
    hide Tree.Valid, Tree.Alt, Tree.Above;
  }

  // An included node item that covers n.
  ghost predicate Admits(setup: Setup, it: Item, force: bool, n: nat) {
    && setup.tree.Valid() && n in setup.tree.nodes
    && it.target.Node? && !it.exclude && it.target.n in setup.tree.nodes &&
      setup.Covers(it.target.n, it.recursive || force, n)
  }

  // An excluded item that covers or holds n.
  ghost predicate Bars(setup: Setup, it: Item, n: nat) {
    && setup.Valid() && n in setup.tree.nodes && it.exclude
    && if it.target.Node? then it.target.n in setup.tree.nodes && setup.Covers(it.target.n, it.recursive, n)
       else it.target.s in setup.items && setup.Holds(it.target.s, it.recursive, n)
  }

  lemma BarsIs(setup: Setup, s: nat, it: Item, n: nat)
    requires setup.Valid() && n in setup.tree.nodes && s in setup.items && it in setup.items[s]
    ensures it.exclude && it.target.Node? && it.target.n in setup.tree.nodes ==> (Bars(setup, it, n) <==>
        setup.Covers(it.target.n, it.recursive, n))
    ensures it.exclude && it.target.Space? && it.target.s in setup.items ==> (Bars(setup, it, n) <==>
        setup.Holds(it.target.s, it.recursive, n))
    ensures !it.exclude ==> !Bars(setup, it, n)
  {
  }

  lemma BarredBy(setup: Setup, s: nat, n: nat, i: nat)
    requires setup.Valid() && n in setup.tree.nodes && s in setup.items && i < |setup.items[s]| &&
        Bars(setup, setup.items[s][i], n)
    ensures setup.Excluded(s, n)
  {
    hide Setup.Covers, Setup.Holds, Tree.Valid;
    assert setup.items[s][i] in setup.items[s];
  }

  lemma SunkBy(setup: Setup, s: nat, n: nat, i: nat)
    requires setup.Valid() && n in setup.tree.nodes && s in setup.items && i < |setup.items[s]| &&
        Bars(setup, setup.items[s][i], n)
    requires setup.items[s][i].target.Node? && setup.items[s][i].recursive
    ensures setup.Sunk(s, n)
  {
    hide Setup.Covers, Tree.Valid;
    assert setup.items[s][i] in setup.items[s];
  }

  lemma ExcludedBy(setup: Setup, s: nat, n: nat)
    requires setup.Valid() && n in setup.tree.nodes && s in setup.items
    ensures setup.Excluded(s, n) <==> exists j :: 0 <= j < |setup.items[s]| && Bars(setup, setup.items[s][j], n)
  {
    hide Setup.Covers, Setup.Holds, Tree.Valid;
    if setup.Excluded(s, n) {
      setup.ItemsBelow(s);
      var it :| it in setup.items[s] && it.exclude &&
        if it.target.Node? then setup.Covers(it.target.n, it.recursive, n)
          else setup.Holds(it.target.s, it.recursive, n);
      var j :| 0 <= j < |setup.items[s]| && setup.items[s][j] == it;
      assert Bars(setup, setup.items[s][j], n);
    }
    if j :| 0 <= j < |setup.items[s]| && Bars(setup, setup.items[s][j], n) {
      BarredBy(setup, s, n, j);
    }
  }

  lemma PlainItem(setup: Setup, s: nat, it: Item)
    requires setup.Plain() && s in setup.items && it in setup.items[s] && it.exclude && it.target.Space?
    ensures !it.recursive && it.target.s in setup.items && setup.TreeOnly(it.target.s)
  {
  }

  lemma HoldsAt(setup: Setup, s: nat, force: bool, n: nat, i: nat)
    requires setup.Valid() && n in setup.tree.nodes && s in setup.items && i < |setup.items[s]| &&
        Admits(setup, setup.items[s][i], force, n)
    ensures setup.Holds(s, force, n) <==> setup.Free([s], n)
  {
    hide Setup.Covers, Setup.Excluded, Tree.Valid;
    assert setup.items[s][i] in setup.items[s];
  }

  lemma HoldsNot(setup: Setup, s: nat, force: bool, n: nat)
    requires setup.Valid() && n in setup.tree.nodes && s in setup.items
    requires forall j :: 0 <= j < |setup.items[s]| ==> !Admits(setup, setup.items[s][j], force, n)
    ensures !setup.Holds(s, force, n)
  {
    hide Setup.Covers, Setup.Excluded, Tree.Valid;
    forall it | it in setup.items[s] ensures !Admits(setup, it, force, n) {
      var j :| 0 <= j < |setup.items[s]| && setup.items[s][j] == it;
    }
    forall it | it in setup.items[s] && !it.exclude && it.target.Node? ensures it.target.n in setup.tree.nodes &&
      !setup.Covers(it.target.n, it.recursive || force, n) {
      ItemFacts(setup, s, it);
    }
  }
}
