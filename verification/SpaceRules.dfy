/** What the items of spaces mean (constable/space.h:130-204). */
module SpaceRules {
  import opened Graphs
  import opened Trees

  // ltree_s: a node of the tree, or a space.
  datatype Target = Node(n: nat) | Space(s: nat)

  datatype Item = Item(target: Target, exclude: bool, recursive: bool)

  datatype Setup = Setup(tree: Tree, items: map<nat, seq<Item>>) {

    function SpaceEdges(): Edges {
      set s, i | s in items && 0 <= i < |items[s]| && items[s][i].target.Space? :: (s, items[s][i].target.s)
    }

    // Items name nodes and spaces that exist, and no space is below itself.
    ghost predicate Valid() {
      && tree.Valid()
      && (forall s, it :: s in items && it in items[s] ==>
            if it.target.Node? then it.target.n in tree.nodes else it.target.s in items)
      && Acyclic(SpaceEdges())
    }

    ghost function Deep(s: nat): set<nat> { Under(SpaceEdges(), items.Keys, s) }

    // A space named by an item has less below it.
    lemma {:induction false} ItemBelow(s: nat, it: Item)
      requires Valid() && s in items && it in items[s] && it.target.Space?
      ensures it.target.s in items && Deep(it.target.s) < Deep(s) && (s, it.target.s) in SpaceEdges()
    {
      var i :| 0 <= i < |items[s]| && items[s][i] == it;
      UnderShrinks(SpaceEdges(), items.Keys, s, it.target.s);
    }

    lemma ItemsBelow(s: nat)
      requires Valid() && s in items
      ensures forall it :: it in items[s] && it.target.Space? ==> it.target.s in items && Deep(it.target.s) < Deep(s)
    {
      forall it | it in items[s] && it.target.Space? ensures it.target.s in items &&
        Deep(it.target.s) < Deep(s) { ItemBelow(s, it); }
    }

    // An item for node p covers n: n is an alternative of p or, recursively,
    // below one.
    ghost predicate Covers(p: nat, recursive: bool, n: nat)
      requires tree.Valid() && p in tree.nodes && n in tree.nodes
    {
      tree.Alt(n, p) || (recursive && exists a :: tree.Above(a, p, n))
    }

    // A space excludes n: an excluded item covers it, or an excluded space holds it.
    ghost predicate Excluded(s: nat, n: nat)
      requires Valid() && s in items && n in tree.nodes
      decreases Deep(s), 1
    {
      ItemsBelow(s);
      exists it :: it in items[s] && it.exclude &&
        if it.target.Node? then Covers(it.target.n, it.recursive, n) else Holds(it.target.s, it.recursive, n)
    }

    // A space without included spaces holds n.
    ghost predicate Holds(s: nat, force: bool, n: nat)
      requires Valid() && s in items && n in tree.nodes
      decreases Deep(s), 2
    {
      (exists it :: it in items[s] && !it.exclude && it.target.Node? &&
        Covers(it.target.n, it.recursive || force, n)) && !Excluded(s, n)
    }

    // n and everything below it is excluded.
    ghost predicate Sunk(s: nat, n: nat)
      requires Valid() && s in items && n in tree.nodes
    {
      exists it :: it in items[s] && it.exclude && it.recursive && it.target.Node? && Covers(it.target.n, true, n)
    }

    lemma {:induction false} SunkBelow(s: nat, n: nat, d: nat)
      requires Valid() && s in items && n in tree.nodes && d in tree.nodes && Sunk(s, n) && tree.Descends(d, n)
      ensures Excluded(s, d)
    {
      var it :| it in items[s] && it.exclude && it.recursive && it.target.Node? && Covers(it.target.n, true, n);
      var p := it.target.n;
      if tree.Alt(n, p) {
        assert tree.Above(n, p, d);
      } else {
        var a :| tree.Above(a, p, n);
        tree.AltDepth(a, p);
        tree.DescendsTrans(d, n, a);
        assert tree.Above(a, p, d);
      }
      assert Covers(p, true, d);
    }

    // Excluded spaces are excluded as they stand, and include nodes only.
    ghost predicate Plain() {
      forall s, it :: s in items && it in items[s] && it.exclude && it.target.Space? ==>
        !it.recursive && it.target.s in items && TreeOnly(it.target.s)
    }

    predicate TreeOnly(s: nat)
      requires s in items
    {
      forall it :: it in items[s] && !it.exclude ==> it.target.Node?
    }

    /* The members of a space */

    // No space of a path excludes n.
    ghost predicate Free(path: seq<nat>, n: nat)
      requires Valid() && n in tree.nodes
    {
      forall p :: p in path && p in items ==> !Excluded(p, n)
    }

    // n is listed for s at the end of a path of spaces.
    ghost predicate Lists(s: nat, path: seq<nat>, force: bool, n: nat)
      requires Valid() && s in items && n in tree.nodes
      decreases Deep(s), 1
    {
      exists it :: it in items[s] && !it.exclude && ListsBy(s, it, path, force, n)
    }

    ghost predicate ListsBy(s: nat, it: Item, path: seq<nat>, force: bool, n: nat)
      requires Valid() && s in items && n in tree.nodes && it in items[s]
      decreases Deep(s), 0
    {
      ItemsBelow(s);
      if it.target.Node? then Covers(it.target.n, it.recursive || force, n) && Free(path + [s], n)
      else Lists(it.target.s, path + [s], it.recursive || force, n)
    }

    // A chain of included spaces: the items taken, one from every space.
    ghost predicate Chain(spaces: seq<nat>, taken: seq<Item>) {
      && |spaces| == |taken| > 0
      && (forall i :: 0 <= i < |spaces| ==> spaces[i] in items && taken[i] in items[spaces[i]] && !taken[i].exclude)
      && (forall i, j :: 0 <= i && j == i + 1 && j < |spaces| ==> taken[i].target == Space(spaces[j]))
      && taken[|taken| - 1].target.Node?
    }

    predicate AnyRecursive(taken: seq<Item>) { exists it :: it in taken && it.recursive }

    // The chain begins with s, its last item covers n, and none of its spaces
    // excludes n.
    ghost predicate Reaches(s: nat, spaces: seq<nat>, taken: seq<Item>, n: nat)
      requires Valid() && n in tree.nodes
    {
      && Chain(spaces, taken) && spaces[0] == s
      && taken[|taken| - 1].target.n in tree.nodes && Covers(taken[|taken| - 1].target.n, AnyRecursive(taken), n)
      && Free(spaces, n)
    }

    // n is a member of s: some chain of included spaces from s reaches an item
    // that covers n, and no space on the chain excludes n.
    ghost predicate Member(s: nat, n: nat)
      requires Valid() && n in tree.nodes
    {
      exists spaces: seq<nat>, taken: seq<Item> :: Reaches(s, spaces, taken, n)
    }

    lemma {:induction false} ChainCons(s: nat, it: Item, sp: seq<nat>, tk: seq<Item>)
      requires s in items && it in items[s] && !it.exclude && Chain(sp, tk) && it.target == Space(sp[0])
      ensures Chain([s] + sp, [it] + tk) && ([it] + tk)[|tk|] == tk[|tk| - 1] && (AnyRecursive([it] + tk) <==>
          it.recursive || AnyRecursive(tk))
    {
      var spaces, taken := [s] + sp, [it] + tk;
      forall i, j | 0 <= i && j == i + 1 && j < |spaces| ensures taken[i].target == Space(spaces[j]) {
        if i > 0 { assert tk[i - 1].target == Space(sp[j - 1]); }
      }
    }

    lemma {:induction false} ChainTail(spaces: seq<nat>, taken: seq<Item>)
      requires Chain(spaces, taken) && |spaces| > 1
      ensures Chain(spaces[1..], taken[1..]) && taken[0].target == Space(spaces[1])
      ensures AnyRecursive(taken) <==> taken[0].recursive || AnyRecursive(taken[1..])
    {
      var sp, tk := spaces[1..], taken[1..];
      assert taken == [taken[0]] + tk;
      forall i, j | 0 <= i && j == i + 1 && j < |sp| ensures tk[i].target == Space(sp[j]) {
        assert taken[i + 1].target == Space(spaces[j + 1]);
      }
    }

    lemma OneChain(s: nat, it: Item)
      requires Valid() && s in items && it in items[s] && !it.exclude && it.target.Node?
      ensures Chain([s], [it]) && it.target.n in tree.nodes
    {
    }

    lemma OneRecursive(it: Item)
      ensures AnyRecursive([it]) <==> it.recursive
    {
      assert it in [it];
    }

    // What is listed is reached by a chain.
    lemma {:induction false} ListsChain(s: nat, path: seq<nat>, force: bool, n: nat) returns (spaces: seq<nat>,
        taken: seq<Item>)
      requires Valid() && s in items && n in tree.nodes && Lists(s, path, force, n)
      ensures Chain(spaces, taken) && spaces[0] == s && taken[|taken| - 1].target.n in tree.nodes
      ensures Covers(taken[|taken| - 1].target.n, AnyRecursive(taken) || force, n) && Free(path + spaces, n)
      decreases Deep(s)
    {
      hide Covers, Excluded, AnyRecursive, Free, Valid, Chain;
      ItemsBelow(s);
      var it :| it in items[s] && !it.exclude && ListsBy(s, it, path, force, n);
      if it.target.Node? {
        spaces, taken := [s], [it];
        OneRecursive(it);
        OneChain(s, it);
      } else {
        var sp, tk := ListsChain(it.target.s, path + [s], it.recursive || force, n);
        ChainCons(s, it, sp, tk);
        spaces, taken := [s] + sp, [it] + tk;
        assert path + [s] + sp == path + spaces;
      }
    }

    lemma {:induction false} ChainLists(spaces: seq<nat>, taken: seq<Item>, path: seq<nat>, force: bool, n: nat)
      requires Valid() && Chain(spaces, taken) && n in tree.nodes
      requires taken[|taken| - 1].target.n in tree.nodes &&
          Covers(taken[|taken| - 1].target.n, AnyRecursive(taken) || force, n)
      requires Free(path + spaces, n)
      ensures Lists(spaces[0], path, force, n)
      decreases |spaces|
    {
      hide Covers, Excluded, AnyRecursive, Free;
      var s, it := spaces[0], taken[0];
      ItemsBelow(s);
      if |spaces| == 1 {
        OneRecursive(it);
        assert taken == [it];
        assert path + spaces == path + [s];
      } else {
        ChainTail(spaces, taken);
        assert path + [s] + spaces[1..] == path + spaces;
        ChainLists(spaces[1..], taken[1..], path + [s], it.recursive || force, n);
      }
    }

    // The walk over the items lists exactly the members.
    lemma {:induction false} ListsMember(s: nat, n: nat)
      requires Valid() && s in items && n in tree.nodes
      ensures Lists(s, [], false, n) <==> Member(s, n)
    {
      hide Covers, Excluded, Lists, Chain, Free, AnyRecursive;
      if Lists(s, [], false, n) {
        var spaces, taken := ListsChain(s, [], false, n);
        assert [] + spaces == spaces;
        assert Reaches(s, spaces, taken, n);
      }
      if Member(s, n) {
        var spaces: seq<nat>, taken: seq<Item> :| Reaches(s, spaces, taken, n);
        ReachesLists(s, spaces, taken, n);
      }
    }

    lemma ReachesLists(s: nat, spaces: seq<nat>, taken: seq<Item>, n: nat)
      requires Valid() && s in items && n in tree.nodes && Reaches(s, spaces, taken, n)
      ensures Lists(s, [], false, n)
    {
      assert [] + spaces == spaces;
      ChainLists(spaces, taken, [], false, n);
    }
  }
}
