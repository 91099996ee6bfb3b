/** space_apply_all: a list of spaces walked again from its head whenever one has
    been evaluated, since that may mark others as used (constable/space.c:736-844). */
module SpaceApply {
  import opened Lists
  import opened Graphs
  import opened Trees
  import opened SpaceRules
  import opened Spaces

  /* Why the walk ends. Evaluating a space marks only spaces below it, so give a
     space more weight than everything below it together: the weight of what is
     still to be evaluated falls. */

  ghost function Weight(setup: Setup, all: seq<nat>, s: nat): nat
    decreases setup.Deep(s), 1, 0
  {
    1 + DeepWeight(setup, all, s, |all|)
  }

  // The weight of what is below s, among the first k spaces.
  ghost function DeepWeight(setup: Setup, all: seq<nat>, s: nat, k: nat): nat
    requires k <= |all|
    decreases setup.Deep(s), 0, k
  {
    if k == 0 then 0
    else
      DeepWeight(setup, all, s, k - 1)
      + if all[k - 1] in setup.Deep(s) && setup.Deep(all[k - 1]) < setup.Deep(s) then Weight(setup, all, all[k - 1])
        else 0
  }

  ghost function Total(setup: Setup, all: seq<nat>, due: set<nat>, k: nat): nat
    requires k <= |all|
  {
    if k == 0 then 0
    else Total(setup, all, due, k - 1) + if all[k - 1] in due then Weight(setup, all, all[k - 1]) else 0
  }

  lemma {:induction false} DeepShrinks(setup: Setup, s: nat, x: nat)
    requires Acyclic(setup.SpaceEdges()) && x in setup.Deep(s)
    ensures setup.Deep(x) < setup.Deep(s) && s !in setup.Deep(s)
  {
    var g := setup.SpaceEdges();
    forall y | y in setup.Deep(x) ensures y in setup.Deep(s) {
      BelowReach(g, s, x);
      ReachBelow(g, s, x, y);
    }
    assert x !in setup.Deep(x);
  }

  // s is done, and only what is below it has come to be due.
  ghost predicate Replaces(setup: Setup, s: nat, was: set<nat>, now: set<nat>) {
    s in was && s !in now && forall x :: x in now ==> x in was || x in setup.Deep(s)
  }

  lemma {:induction false} TotalFallsTo(setup: Setup, all: seq<nat>, s: nat, was: set<nat>, now: set<nat>, k: nat)
    requires Acyclic(setup.SpaceEdges()) && k <= |all| && Replaces(setup, s, was, now)
    ensures Total(setup, all, now, k) + (if s in all[..k] then Weight(setup, all, s) else 0)
      <= Total(setup, all, was, k) + DeepWeight(setup, all, s, k)
    decreases k
  {
    hide Weight, Setup.Deep;
    if k > 0 {
      TotalFallsTo(setup, all, s, was, now, k - 1);
      var x := all[k - 1];
      assert all[..k] == all[..k - 1] + [x];
      if x in setup.Deep(s) { DeepShrinks(setup, s, x); }
      WeightPositive(setup, all, s);
    }
  }

  lemma WeightPositive(setup: Setup, all: seq<nat>, s: nat)
    ensures Weight(setup, all, s) == 1 + DeepWeight(setup, all, s, |all|)
  {
  }

  lemma {:induction false} TotalFalls(setup: Setup, all: seq<nat>, s: nat, was: set<nat>, now: set<nat>)
    requires Acyclic(setup.SpaceEdges()) && s in all && Replaces(setup, s, was, now)
    ensures Total(setup, all, now, |all|) < Total(setup, all, was, |all|)
  {
    hide Total, DeepWeight, Weight;
    TotalFallsTo(setup, all, s, was, now, |all|);
    assert all[..|all|] == all;
    WeightPositive(setup, all, s);
  }

  /* One space */

  // The evaluation of s has filled its array: every member once.
  ghost predicate Exact(w: World, s: nat)
    requires w.setup.Valid()
    reads w`members
  {
    && s in w.setup.items && s in w.members && NoDup(w.members[s])
    && (w.setup.Plain() ==> forall n :: n in w.members[s] <==> n in w.setup.tree.nodes && w.setup.Member(s, n))
  }

  // space_for_every_path with tree_get_visited_do, and the flags cleared again.
  method Evaluate(w: World, s: nat) returns (ok: bool)
    requires w.setup.Valid() && s in w.setup.items && w.visited == {}
    modifies w`used, w`fatal, w`members, w`visited
    ensures Touched(w.Graph(), s, old(w.used), w.used)
    ensures ok ==> w.visited == {} && Exact(w, s)
    ensures forall x :: x != s ==>
        (x in w.members <==> x in old(w.members)) && (x in w.members ==> w.members[x] == old(w.members)[x])
    ensures w.setup.Plain() ==> if ok then w.fatal == old(w.fatal) else w.fatal == TooManyNested
  {
    hide Setup.Valid, Setup.Plain, Setup.Member, Setup.Lists, Touched, Tree.Valid, Reach;
    w.members := w.members[s := []];
    TouchedSelf(w.Graph(), s, {});
    assert w.Tidy(s) by { TreeValid(w.setup); }
    ok := w.ForEveryPathI(s, [], false, s, s);
    if !ok {
      return false;
    }
    Listed(w, s);
    ClearVisited(w, s);
  }

  lemma {:induction false} Listed(w: World, s: nat)
    requires w.setup.Valid() && s in w.setup.items && w.Tidy(s)
    requires w.setup.Plain() ==> forall n :: n in w.setup.tree.nodes ==> (n in w.visited <==>
        w.setup.Lists(s, [], false, n))
    ensures Exact(w, s)
  {
    hide Setup.Valid, Setup.Plain, Setup.Member, Setup.Lists;
    if w.setup.Plain() {
      forall n | n in w.setup.tree.nodes ensures w.setup.Lists(s, [], false, n) <==> w.setup.Member(s, n) {
        w.setup.ListsMember(s, n);
      }
    }
  }

  // space_for_every_member with tree_clear_visited_do
  method ClearVisited(w: World, s: nat)
    requires w.Tidy(s)
    modifies w`visited
    ensures w.visited == {}
  {
    var m := w.members[s];
    var i := 0;
    while i < |m|
      invariant 0 <= i <= |m| && w.visited == set n | n in m[i..]
    {
      assert m[i..] == [m[i]] + m[i + 1..];
      assert m[i] !in m[i + 1..];
      w.visited := w.visited - {m[i]};
      i := i + 1;
    }
  }

  /* All spaces */

  // What holds between two evaluations.
  ghost predicate Stable(w: World)
    requires w.setup.Valid()
    reads w
  {
    && w.setup.items.Keys == (set s | s in w.order) && w.used <= w.setup.items.Keys && w.visited == {}
    && w.hasId <= w.used
    && forall s :: s in w.processed ==> Exact(w, s) && w.members[s] != []
  }

  // s has been evaluated, and has no member.
  ghost predicate Empty(w: World, s: nat)
    requires w.setup.Valid()
  {
    w.setup.Plain() ==> forall n :: n in w.setup.tree.nodes ==> !w.setup.Member(s, n)
  }

  // What s reaches are spaces: s itself, and what is below it.
  lemma {:induction false} ReachItems(setup: Setup, s: nat, x: nat)
    requires setup.Valid() && s in setup.items && Reach(setup.SpaceEdges(), s, x)
    ensures x in setup.items && (x == s || x in setup.Deep(s))
  {
    var g := setup.SpaceEdges();
    forall a: nat, b: nat | (a, b) in g ensures b in setup.items {
      var i :| a in setup.items && 0 <= i < |setup.items[a]| && setup.items[a][i].target == Space(b);
      setup.ItemBelow(a, setup.items[a][i]);
    }
    ReachSplit(g, s, x);
    if x != s {
      var c := LastEdge(g, s, x);
    }
  }

  lemma {:induction false} TouchedItems(setup: Setup, s: nat, was: set<nat>, now: set<nat>)
    requires setup.Valid() && s in setup.items && Touched(setup.SpaceEdges(), s, was, now)
    ensures was <= now && forall x :: x in now ==> x in was || x == s || x in setup.Deep(s)
    ensures was <= setup.items.Keys ==> now <= setup.items.Keys
  {
    hide Setup.Valid, Setup.Deep, Setup.SpaceEdges, Reach;
    forall x | x in now && x !in was ensures x in setup.items && (x == s || x in setup.Deep(s)) {
      ReachItems(setup, s, x);
    }
  }

  lemma EmptyIs(w: World, s: nat)
    requires w.setup.Valid() && Exact(w, s) && w.members[s] == []
    ensures Empty(w, s)
  {
    hide Setup.Valid, Setup.Plain, Setup.Member;
  }

  // One turn of the first loop.
  method EvaluateNext(w: World, s: nat) returns (ok: bool)
    requires w.setup.Valid() && Stable(w) && s in w.used && s !in w.processed
    modifies w`used, w`processed, w`fatal, w`members, w`visited
    ensures ok ==> Stable(w) && Replaces(w.setup, s, old(w.used - w.processed), w.used - w.processed)
    ensures ok ==> forall x :: x in old(w.used) ==> x in w.used || (x == s && Empty(w, s))
    ensures ok && w.setup.Plain() ==> w.fatal == old(w.fatal)
    ensures !ok && w.setup.Plain() ==>
        w.fatal == TooManyNested || (s in w.hasId && w.fatal == NoMember(s) && Empty(w, s))
  {
    hide Setup.Valid, Setup.Plain, Setup.Member, Setup.Deep, Setup.SpaceEdges, Touched, Empty;
    NotBelowItself(w.setup, s);
    ok := Evaluate(w, s);
    if !ok {
      return false;
    }
    TouchedItems(w.setup, s, old(w.used), w.used);
    if w.members[s] == [] { EmptyIs(w, s); }
    if s in w.hasId && w.members[s] == [] {
      w.fatal := NoMember(s);
      return false;
    }
    if w.members[s] == [] {
      w.used := w.used - {s};
    } else {
      w.processed := w.processed + {s};
    }
  }

  lemma NotBelowItself(setup: Setup, s: nat)
    requires setup.Valid()
    ensures s !in setup.Deep(s)
  {
  }

  // A used space is kept, unless it turns out to be empty.
  twostate predicate Kept(w: World)
    requires w.setup.Valid()
    reads w
  {
    forall s :: s in old(w.used) ==> s in w.used || Empty(w, s)
  }

  // The first loop.
  method Settle(w: World) returns (ok: bool)
    requires w.setup.Valid() && Stable(w)
    modifies w`used, w`processed, w`fatal, w`members, w`visited
    ensures ok ==> Stable(w) && Kept(w) && w.used * w.setup.items.Keys <= w.processed
    ensures ok && w.setup.Plain() ==> w.fatal == old(w.fatal)
    ensures !ok && w.setup.Plain() ==>
      w.fatal == TooManyNested || (w.fatal.NoMember? && w.fatal.s in w.hasId && Empty(w, w.fatal.s))
  {
    hide Setup.Valid, Setup.Plain, Setup.Member, Setup.Deep, Setup.SpaceEdges, Touched, Total, Exact, Replaces, Empty;
    ghost var plain := w.setup.Plain();
    var i := 0;
    while i < |w.order|
      invariant 0 <= i <= |w.order| && Stable(w) && Kept(w)
      invariant plain ==> w.fatal == old(w.fatal)
      invariant forall j :: 0 <= j < i ==> w.order[j] !in w.used - w.processed
      decreases Total(w.setup, w.order, w.used - w.processed, |w.order|), |w.order| - i
    {
      var s := w.order[i];
      if s in w.used && s !in w.processed {
        ghost var due := w.used - w.processed;
        ok := EvaluateNext(w, s);
        if !ok {
          return false;
        }
        Acyclicity(w.setup);
        TotalFalls(w.setup, w.order, s, due, w.used - w.processed);
        i := 0;
      } else {
        i := i + 1;
      }
    }
    ok := true;
  }

  lemma Acyclicity(setup: Setup)
    requires setup.Valid()
    ensures Acyclic(setup.SpaceEdges())
  {
  }

  // The spaces of a list that have been processed.
  function Only(order: seq<nat>, processed: set<nat>): seq<nat> {
    if order == [] then []
    else if order[0] in processed then [order[0]] + Only(order[1..], processed)
    else Only(order[1..], processed)
  }

  lemma {:induction false} OnlyIs(order: seq<nat>, processed: set<nat>, s: nat)
    ensures s in Only(order, processed) <==> s in order && s in processed
  {
    if order != [] { OnlyIs(order[1..], processed, s); }
  }

  lemma {:induction false} OnlyDrops(order: seq<nat>, processed: set<nat>, i: nat)
    requires i < |order| && order[i] !in processed
    ensures Only(order[..i] + order[i + 1..], processed) == Only(order, processed)
    decreases i
  {
    var cut := order[..i] + order[i + 1..];
    if i == 0 {
      assert cut == order[1..];
    } else {
      assert cut[1..] == order[1..][..i - 1] + order[1..][i..] && cut[0] == order[0];
      OnlyDrops(order[1..], processed, i - 1);
    }
  }

  lemma {:induction false} OnlyAll(order: seq<nat>, processed: set<nat>)
    requires forall i :: 0 <= i < |order| ==> order[i] in processed
    ensures Only(order, processed) == order
  {
    if order != [] { OnlyAll(order[1..], processed); }
  }

  // The second loop: space_destroy for what has not been processed. No such
  // space has an identification, so there is nothing to abort for.
  method RemoveUnused(w: World)
    requires w.hasId <= w.used && w.used <= w.setup.items.Keys && w.used * w.setup.items.Keys <= w.processed
    modifies w`order
    ensures w.order == Only(old(w.order), w.processed)
  {
    var i := 0;
    while i < |w.order|
      invariant 0 <= i <= |w.order| && Only(w.order, w.processed) == Only(old(w.order), w.processed)
      invariant forall j :: 0 <= j < i ==> w.order[j] in w.processed
      decreases |w.order| - i
    {
      if w.order[i] in w.processed {
        i := i + 1;
      } else {
        if w.order[i] in w.hasId {
          assert false;
        }
        OnlyDrops(w.order, w.processed, i);
        w.order := w.order[..i] + w.order[i + 1..];
      }
    }
    OnlyAll(w.order, w.processed);
  }

  // The sets of spaces of the nodes: node, access type and bit.
  type NodeVs = set<(nat, nat, nat)>

  // tree_add_vs_do for every member.
  method AddToMembers(members: seq<nat>, access: nat, bits: set<nat>, vs: NodeVs) returns (vs': NodeVs)
    ensures forall n: nat, a: nat, b: nat :: (n, a, b) in vs' <==>
        (n, a, b) in vs || (a == access && n in members && b in bits)
  {
    vs' := vs;
    var i := 0;
    while i < |members|
      invariant 0 <= i <= |members|
      invariant forall n: nat, a: nat, b: nat :: (n, a, b) in vs' <==>
          (n, a, b) in vs || (a == access && n in members[..i] && b in bits)
    {
      vs' := vs' + (set b | b in bits :: (members[i], access, b));
      i := i + 1;
    }
    assert members[..|members|] == members;
  }

  // The third loop: every member of a space gets the bits of the space.
  method SetVs(w: World, bitsOf: (nat, nat) -> set<nat>, vs: NodeVs) returns (vs': NodeVs)
    requires forall s :: s in w.order ==> s in w.members
    ensures forall n: nat, a: nat, b: nat :: (n, a, b) in vs' <==>
      (n, a, b) in vs || (a < 8 && exists s :: s in w.order && n in w.members[s] && b in bitsOf(s, a))
  {
    vs' := vs;
    var i := 0;
    while i < |w.order|
      invariant 0 <= i <= |w.order|
      invariant forall n: nat, a: nat, b: nat :: (n, a, b) in vs' <==>
        (n, a, b) in vs || (a < 8 && exists j :: 0 <= j < i && n in w.members[w.order[j]] && b in bitsOf(w.order[j], a))
    {
      var s := w.order[i];
      ghost var was := vs';
      var a := 0;
      while a < 8
        invariant 0 <= a <= 8
        invariant forall n: nat, x: nat, b: nat :: (n, x, b) in vs' <==>
            (n, x, b) in was || (x < a && n in w.members[s] && b in bitsOf(s, x))
      {
        vs' := AddToMembers(w.members[s], a, bitsOf(s, a), vs');
        a := a + 1;
      }
      i := i + 1;
    }
  }

  // space_apply_all, on an acyclic graph of spaces of which none is processed yet
  // and those with an identification are used. It ends; then every space left is
  // processed and has a member, its array holds every member once, no node is
  // marked as visited, every used space with a member is left, and every member
  // has got the bits of its spaces.
  method ApplyAll(w: World, bitsOf: (nat, nat) -> set<nat>, vs: NodeVs) returns (ok: bool, vs': NodeVs)
    requires w.setup.Valid() && w.setup.items.Keys == (set s | s in w.order)
    requires w.processed == {} && w.visited == {} && w.hasId <= w.used <= w.setup.items.Keys && w.fatal == NoFatal
    modifies w`order, w`used, w`processed, w`fatal, w`members, w`visited
    ensures ok ==> w.visited == {} && w.order == Only(old(w.order), w.processed) && w.hasId <= w.processed
    ensures ok ==> forall s :: s in w.order ==> s in w.processed && Exact(w, s) && w.members[s] != []
    ensures ok ==> forall s :: s in old(w.used) ==> s in w.order || Empty(w, s)
    ensures ok ==> forall n: nat, a: nat, b: nat :: (n, a, b) in vs' <==>
      (n, a, b) in vs || (a < 8 && exists s :: s in w.order && s in w.members && n in w.members[s] && b in bitsOf(s, a))
    ensures w.setup.Plain() ==> ok == (w.fatal == NoFatal)
    ensures w.setup.Plain() && !ok ==>
      w.fatal == TooManyNested || (w.fatal.NoMember? && w.fatal.s in w.hasId && Empty(w, w.fatal.s))
  {
    hide Setup.Valid, Setup.Plain, Setup.Member, Empty;
    ok := Settle(w);
    if !ok {
      return false, vs;
    }
    forall s ensures s in Only(w.order, w.processed) <==>
      s in w.order && s in w.processed { OnlyIs(w.order, w.processed, s); }
    RemoveUnused(w);
    vs' := SetVs(w, bitsOf, vs);
  }
}
