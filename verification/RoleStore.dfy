/** Roles, permissions, the role hierarchy and user assignments
    (constable/rbac/roles.c). Names are numbers in the order strcmp gives. */
module RoleStore {
  import opened Lists
  import opened Graphs

  const AT_MEMBER: nat := 0
  const AT_RECEIVE: nat := 1
  const AT_SEND: nat := 2
  const AT_SEE: nat := 3
  const AT_CREATE: nat := 4
  const AT_ERASE: nat := 5
  const AT_ENTER: nat := 6
  const AT_CONTROL: nat := 7
  const NR_ACCESS_TYPES: nat := 8
  const USER_MAX_ROLES: nat := 32
  const CHUNK: nat := 8

  // An access type and the bit of a space.
  type Right = (nat, nat)

  datatype Perm = Perm(access: nat, space: nat)

  // The permissions of every role, in chunks of eight.
  type Perms = map<nat, seq<seq<Perm>>>

  type Cache = map<nat, set<Right>>

  // hierarchy_s: pairs of superrole and subrole, newest first. Every node is
  // pushed on the list of both its roles, so the lists of a role are the nodes
  // that name it, in this order.
  type Nodes = seq<(nat, nat)>

  function EdgesOf(hier: Nodes): Edges { set e | e in hier }

  function SupList(hier: Nodes, b: nat): seq<nat> {
    if hier == [] then []
    else if hier[0].1 == b then [hier[0].0] + SupList(hier[1..], b)
    else SupList(hier[1..], b)
  }

  function SubList(hier: Nodes, a: nat): seq<nat> {
    if hier == [] then []
    else if hier[0].0 == a then [hier[0].1] + SubList(hier[1..], a)
    else SubList(hier[1..], a)
  }

  lemma {:induction false} SupIs(hier: Nodes, a: nat, b: nat)
    ensures a in SupList(hier, b) <==> (a, b) in EdgesOf(hier)
  {
    if hier != [] {
      SupIs(hier[1..], a, b);
      assert (a, b) in hier <==> (a, b) == hier[0] || (a, b) in hier[1..];
    }
  }

  lemma {:induction false} SubIs(hier: Nodes, a: nat, b: nat)
    ensures b in SubList(hier, a) <==> (a, b) in EdgesOf(hier)
  {
    if hier != [] {
      SubIs(hier[1..], a, b);
      assert (a, b) in hier <==> (a, b) == hier[0] || (a, b) in hier[1..];
    }
  }

  function Flat(chunks: seq<seq<Perm>>): seq<Perm> {
    if chunks == [] then [] else chunks[0] + Flat(chunks[1..])
  }

  // The rights of one permission. vsOf gives the bits of a space; none if no bit
  // was left for it.
  function RightsOf(vsOf: nat -> set<nat>, p: Perm): set<Right> { set b | b in vsOf(p.space) :: (p.access, b) }

  function OwnOf(vsOf: nat -> set<nat>, ps: seq<Perm>): set<Right> {
    if ps == [] then {} else OwnOf(vsOf, ps[..|ps| - 1]) + RightsOf(vsOf, ps[|ps| - 1])
  }

  // A role with these permissions holds x itself.
  predicate Holds(vsOf: nat -> set<nat>, chunks: seq<seq<Perm>>, x: Right) {
    exists p :: p in Flat(chunks) && p.access == x.0 && x.1 in vsOf(p.space)
  }

  lemma {:induction false} OwnIs(vsOf: nat -> set<nat>, ps: seq<Perm>, x: Right)
    ensures x in OwnOf(vsOf, ps) <==> exists p :: p in ps && p.access == x.0 && x.1 in vsOf(p.space)
    decreases |ps|
  {
    if ps != [] {
      var n := |ps| - 1;
      OwnIs(vsOf, ps[..n], x);
      assert ps == ps[..n] + [ps[n]];
      assert x in RightsOf(vsOf, ps[n]) <==> ps[n].access == x.0 && x.1 in vsOf(ps[n].space);
    }
  }

  /* Shape */

  predicate Sorted(order: seq<nat>) { forall i, j :: 0 <= i < j < |order| ==> order[i] < order[j] }

  predicate Within(hier: Nodes, roles: set<nat>) { forall e :: e in hier ==> e.0 in roles && e.1 in roles }

  ghost predicate Shape(order: seq<nat>, perms: Perms, hier: Nodes) {
    && Within(hier, perms.Keys) && Acyclic(EdgesOf(hier))
    && Sorted(order) && perms.Keys == (set r | r in order)
  }

  /* The cache */

  // Every edge hands the rights of the subrole up.
  ghost predicate Closed(g: Edges, vs: Cache) {
    forall a: nat, b: nat :: (a, b) in g ==> a in vs && b in vs && vs[b] <= vs[a]
  }

  ghost predicate OwnIn(vsOf: nat -> set<nat>, perms: Perms, vs: Cache) {
    forall r, x: Right :: r in perms && Holds(vsOf, perms[r], x) ==> r in vs && x in vs[r]
  }

  // Some reflexive-transitive subrole of r holds x.
  ghost predicate Inherits(vsOf: nat -> set<nat>, perms: Perms, g: Edges, r: nat, x: Right) {
    exists s :: s in perms && Reach(g, r, s) && Holds(vsOf, perms[s], x)
  }

  ghost predicate Grounded(vsOf: nat -> set<nat>, perms: Perms, g: Edges, vs: Cache) {
    forall r, x: Right :: r in vs && x in vs[r] ==> Inherits(vsOf, perms, g, r, x)
  }

  // A closed cache that holds every own right holds every inherited one; if it
  // is grounded it holds no other.
  lemma {:induction false} CacheCovers(vsOf: nat -> set<nat>, perms: Perms, g: Edges, vs: Cache, r: nat, x: Right)
    requires r in perms && OwnIn(vsOf, perms, vs) && Closed(g, vs) && vs.Keys == perms.Keys
    requires Inherits(vsOf, perms, g, r, x)
    ensures x in vs[r]
  {
    var s :| s in perms && Reach(g, r, s) && Holds(vsOf, perms[s], x);
    if x !in vs[r] {
      var missing := set t | t in perms && x !in vs[t];
      assert forall a: nat, b: nat :: (a, b) in g && a in missing ==> b in missing;
      ClosedReach(g, missing, r, s);
    }
  }

  /* What rbac_inherit_sup does to the cache. */

  ghost predicate AtOrAbove(g: Edges, b: nat, r: nat) { b == r || Below(g, b, r) }

  ghost predicate ClosedAbove(g: Edges, vs: Cache, r: nat) {
    forall a: nat, b: nat :: (a, b) in g && AtOrAbove(g, b, r) ==> a in vs && b in vs && vs[b] <= vs[a]
  }

  ghost predicate Grown(vs: Cache, vs': Cache) {
    vs'.Keys == vs.Keys && forall s :: s in vs ==> vs[s] <= vs'[s]
  }

  // Only proper superroles of r may have changed.
  ghost predicate OnlyAbove(g: Edges, vs: Cache, vs': Cache, r: nat) {
    forall s :: s in vs && s in vs' && vs'[s] != vs[s] ==> Below(g, s, r)
  }

  // Nothing is invented: what a role has, it or one of its subroles had.
  ghost predicate Handed(g: Edges, vs: Cache, vs': Cache) {
    forall s, x: Right :: s in vs' && x in vs'[s] ==> exists t :: t in vs && Reach(g, s, t) && x in vs[t]
  }

  ghost predicate Spread(g: Edges, vs: Cache, vs': Cache, r: nat) {
    Grown(vs, vs') && OnlyAbove(g, vs, vs', r) && ClosedAbove(g, vs', r) && Handed(g, vs, vs')
  }

  lemma {:induction false} HandedThen(g: Edges, u: Cache, v: Cache, w: Cache)
    requires Handed(g, u, v) && Handed(g, v, w)
    ensures Handed(g, u, w)
  {
    forall s, x: Right | s in w && x in w[s] ensures exists t :: t in u && Reach(g, s, t) && x in u[t] {
      var t :| t in v && Reach(g, s, t) && x in v[t];
      var q :| q in u && Reach(g, t, q) && x in u[q];
      ReachTrans(g, s, t, q);
    }
  }

  lemma {:induction false} HandedSelf(g: Edges, u: Cache)
    ensures Handed(g, u, u)
  {
    forall s | s in u ensures Reach(g, s, s) { ReachSelf(g, s); }
  }

  // Handing rights over one edge.
  lemma {:induction false} HandedEdge(g: Edges, vs: Cache, a: nat, b: nat)
    requires (a, b) in g && a in vs && b in vs
    ensures Handed(g, vs, vs[a := vs[a] + vs[b]])
  {
    ReachEdge(g, a, b);
    forall s | s in vs ensures Reach(g, s, s) { ReachSelf(g, s); }
  }

  // What was closed above q stays closed when rights spread from p.
  lemma {:induction false} ClosedStays(g: Edges, vs: Cache, vs': Cache, q: nat, p: nat)
    requires ClosedAbove(g, vs, q) && Grown(vs, vs') && ClosedAbove(g, vs', p)
    requires forall s :: s in vs && vs'[s] != vs[s] ==> AtOrAbove(g, s, p)
    ensures ClosedAbove(g, vs', q)
  {
    forall a: nat, b: nat | (a, b) in g && AtOrAbove(g, b, q) ensures a in vs' && b in vs' && vs'[b] <= vs'[a] {
      if vs'[b] == vs[b] {
        assert vs[b] <= vs[a];
      }
    }
  }

  // Closed above every superrole, and over the edges to them, is closed above r.
  lemma {:induction false} ClosedFrom(g: Edges, vs: Cache, r: nat)
    requires forall p: nat :: (p, r) in g ==> p in vs && r in vs && vs[r] <= vs[p] && ClosedAbove(g, vs, p)
    ensures ClosedAbove(g, vs, r)
  {
    forall a: nat, b: nat | (a, b) in g && AtOrAbove(g, b, r) ensures a in vs && b in vs && vs[b] <= vs[a] {
      if b != r {
        var p := LastEdge(g, b, r);
        ReachSplit(g, b, p);
        assert AtOrAbove(g, b, p);
      }
    }
  }

  /* What changes of the store mean for the cache */

  // Rights that spread over a graph that has grown are grounded in it.
  lemma {:induction false} GroundedSpread(vsOf: nat -> set<nat>, perms: Perms, perms': Perms, g: Edges, g': Edges,
      vs: Cache, vs': Cache)
    requires Grounded(vsOf, perms, g, vs) && g <= g' && Handed(g', vs, vs')
    requires forall r, x: Right :: r in perms && Holds(vsOf, perms[r], x) ==> r in perms' && Holds(vsOf, perms'[r], x)
    ensures Grounded(vsOf, perms', g', vs')
  {
    forall r, x: Right | r in vs' && x in vs'[r] ensures Inherits(vsOf, perms', g', r, x) {
      var t :| t in vs && Reach(g', r, t) && x in vs[t];
      assert Inherits(vsOf, perms, g, t, x);
      var s :| s in perms && Reach(g, t, s) && Holds(vsOf, perms[s], x);
      ReachMore(g, g', t, s);
      ReachTrans(g', r, t, s);
    }
  }

  // A cache that was closed but for r's own edges up is closed once r has spread.
  lemma {:induction false} ClosedSpread(g: Edges, vs: Cache, vs': Cache, r: nat)
    requires forall a: nat, b: nat :: (a, b) in g ==> a in vs && b in vs
    requires forall a: nat, b: nat :: (a, b) in g && b != r ==> vs[b] <= vs[a]
    requires Spread(g, vs, vs', r)
    ensures Closed(g, vs')
  {
    forall a: nat, b: nat | (a, b) in g ensures a in vs' && b in vs' && vs'[b] <= vs'[a] {
      if !AtOrAbove(g, b, r) {
        assert vs'[b] == vs[b];
      }
    }
  }

  // A new edge above r, or a new right of r, and the spreading from r keep the
  // cache right; due says that a rebuild is due.
  lemma {:induction false} Settled(vsOf: nat -> set<nat>, perms: Perms, g: Edges, g': Edges, vs: Cache, vs': Cache,
      r: nat, due: bool)
    requires OwnIn(vsOf, perms, vs) && g <= g'
    requires forall a: nat, b: nat :: (a, b) in g' ==> a in vs && b in vs && (b != r ==> vs[b] <= vs[a])
    requires Spread(g', vs, vs', r)
    requires !due ==> Grounded(vsOf, perms, g, vs)
    ensures OwnIn(vsOf, perms, vs') && Closed(g', vs')
    ensures !due ==> Grounded(vsOf, perms, g', vs')
  {
    ClosedSpread(g', vs, vs', r);
    if !due { GroundedSpread(vsOf, perms, perms, g, g', vs, vs'); }
  }

  /* Permissions */

  // rbac_role_add_perm: into the first chunk with room, or a new one.
  function AddTo(chunks: seq<seq<Perm>>, p: Perm): seq<seq<Perm>> {
    if chunks == [] then [[p]]
    else if |chunks[0]| < CHUNK then [chunks[0] + [p]] + chunks[1..]
    else [chunks[0]] + AddTo(chunks[1..], p)
  }

  // rbac_role_del_perm: the first occurrence; a chunk that is left empty goes.
  function DelFrom(chunks: seq<seq<Perm>>, p: Perm): seq<seq<Perm>> {
    if chunks == [] then []
    else if p in chunks[0] then
      var c := Without(chunks[0], p);
      (if c == [] then [] else [c]) + chunks[1..]
    else [chunks[0]] + DelFrom(chunks[1..], p)
  }

  function Without<T(==)>(s: seq<T>, x: T): seq<T> {
    if s == [] then [] else if s[0] == x then s[1..] else [s[0]] + Without(s[1..], x)
  }

  predicate ChunkOk(c: seq<Perm>) { 1 <= |c| <= 8 && forall p :: p in c ==> p.access < NR_ACCESS_TYPES }

  predicate ChunksOk(chunks: seq<seq<Perm>>) { forall i :: 0 <= i < |chunks| ==> ChunkOk(chunks[i]) }

  lemma {:induction false} WithoutIs<T>(s: seq<T>, x: T)
    ensures multiset(Without(s, x)) == multiset(s) - multiset{x}
    ensures |Without(s, x)| == if x in s then |s| - 1 else |s|
  {
    if s != [] {
      assert s == [s[0]] + s[1..];
      WithoutIs(s[1..], x);
    }
  }

  lemma {:induction false} WithoutIn<T>(s: seq<T>, x: T)
    ensures forall y :: y in Without(s, x) ==> y in s
  {
    if s != [] { WithoutIn(s[1..], x); }
  }

  lemma {:induction false} FlatAppend(a: seq<seq<Perm>>, b: seq<seq<Perm>>)
    ensures Flat(a + b) == Flat(a) + Flat(b)
  {
    if a == [] {
      assert a + b == b;
    } else {
      assert (a + b)[1..] == a[1..] + b && (a + b)[0] == a[0];
      FlatAppend(a[1..], b);
      assert a[0] + (Flat(a[1..]) + Flat(b)) == (a[0] + Flat(a[1..])) + Flat(b);
    }
  }

  lemma {:induction false} AddToIs(chunks: seq<seq<Perm>>, p: Perm)
    requires ChunksOk(chunks) && p.access < NR_ACCESS_TYPES
    ensures multiset(Flat(AddTo(chunks, p))) == multiset(Flat(chunks)) + multiset{p}
    ensures ChunksOk(AddTo(chunks, p))
  {
    if chunks == [] {
      assert Flat([[p]]) == [p] + Flat([]) == [p];
    } else {
      var c, rest := chunks[0], chunks[1..];
      if |c| < CHUNK {
        var d := [c + [p]] + rest;
        assert d[0] == c + [p] && d[1..] == rest;
        assert multiset((c + [p]) + Flat(rest)) == multiset(c + Flat(rest)) + multiset{p};
      } else {
        AddToIs(rest, p);
        var d := [c] + AddTo(rest, p);
        assert d[0] == c && d[1..] == AddTo(rest, p);
      }
    }
  }

  lemma FlatOne(c: seq<Perm>)
    ensures Flat([c]) == c && Flat([]) == []
  {
    assert Flat([c]) == c + Flat([]);
  }

  lemma MinusLeft<T>(c: multiset<T>, r: multiset<T>, p: T)
    requires p in c
    ensures (c - multiset{p}) + r == (c + r) - multiset{p}
  {
  }

  lemma MinusRight<T>(c: multiset<T>, r: multiset<T>, p: T)
    requires p !in c
    ensures c + (r - multiset{p}) == (c + r) - multiset{p}
  {
  }

  lemma FlatHead(c: seq<Perm>, rest: seq<seq<Perm>>)
    ensures multiset(Flat([c] + rest)) == multiset(c) + multiset(Flat(rest))
  {
    assert ([c] + rest)[0] == c && ([c] + rest)[1..] == rest;
  }

  lemma {:induction false} DelHere(c: seq<Perm>, rest: seq<seq<Perm>>, p: Perm)
    requires p in c
    ensures var d := Without(c, p);
      multiset(Flat((if d == [] then [] else [d]) + rest)) == (multiset(c) + multiset(Flat(rest))) - multiset{p}
  {
    hide Without, Flat;
    var d := Without(c, p);
    WithoutIs(c, p);
    MinusLeft(multiset(c), multiset(Flat(rest)), p);
    if d == [] {
      assert [] + rest == rest;
      assert multiset(d) == multiset{};
    } else {
      FlatHead(d, rest);
    }
  }

  lemma {:induction false} DelFromIs(chunks: seq<seq<Perm>>, p: Perm)
    ensures multiset(Flat(DelFrom(chunks, p))) == multiset(Flat(chunks)) - multiset{p}
  {
    hide Without, Flat;
    if chunks == [] {
      FlatOne([]);
    } else {
      var c, rest := chunks[0], chunks[1..];
      assert chunks == [c] + rest;
      FlatHead(c, rest);
      if p in c {
        DelHere(c, rest, p);
      } else {
        DelFromIs(rest, p);
        FlatHead(c, DelFrom(rest, p));
        MinusRight(multiset(c), multiset(Flat(rest)), p);
      }
    }
  }

  lemma {:induction false} DelFromOk(chunks: seq<seq<Perm>>, p: Perm)
    requires ChunksOk(chunks)
    ensures ChunksOk(DelFrom(chunks, p))
  {
    hide Without;
    if chunks != [] {
      WithoutIs(chunks[0], p);
      WithoutIn(chunks[0], p);
      if p !in chunks[0] { DelFromOk(chunks[1..], p); }
    }
  }

  lemma InFlat(chunks: seq<seq<Perm>>, chunks': seq<seq<Perm>>, p: Perm)
    requires multiset(Flat(chunks')) == multiset(Flat(chunks)) + multiset{p}
    ensures forall q :: q in Flat(chunks') <==> q == p || q in Flat(chunks)
  {
    forall q ensures q in Flat(chunks') <==> q == p || q in Flat(chunks) {
      assert q in Flat(chunks') <==> q in multiset(Flat(chunks'));
      assert q in Flat(chunks) <==> q in multiset(Flat(chunks));
    }
  }

  lemma OutOfFlat(chunks: seq<seq<Perm>>, chunks': seq<seq<Perm>>, p: Perm)
    requires multiset(Flat(chunks')) == multiset(Flat(chunks)) - multiset{p}
    ensures forall q :: q in Flat(chunks') ==> q in Flat(chunks)
  {
    forall q | q in Flat(chunks') ensures q in Flat(chunks) {
      assert q in multiset(Flat(chunks'));
      assert q in multiset(Flat(chunks));
    }
  }

  /* Users: nr_roles slots, of which some are empty, and user_assignment_s nodes
     of user and role, newest first. */

  // No role stands in two slots.
  predicate SlotsDistinct(slots: seq<Option<nat>>) {
    forall i, j :: 0 <= i < j < |slots| && slots[i].Some? ==> slots[i] != slots[j]
  }

  predicate Distinct(s: Nodes) { forall i, j :: 0 <= i < j < |s| ==> s[i] != s[j] }

  // The slots of every user agree with the assignments.
  ghost predicate Assigned(roles: set<nat>, ua: Nodes, slots: map<nat, seq<Option<nat>>>) {
    && Distinct(ua)
    && (forall e :: e in ua ==> e.0 in slots && e.1 in roles)
    && (forall u :: u in slots ==> |slots[u]| <= USER_MAX_ROLES && SlotsDistinct(slots[u]))
    && (forall u: nat, r: nat :: u in slots ==> ((u, r) in ua <==> Some(r) in slots[u]))
  }

  // The slots with a role in the next one, or in the first that is empty.
  function Seated(s: seq<Option<nat>>, role: nat): seq<Option<nat>> {
    if |s| < USER_MAX_ROLES then s + [Some(role)] else Fill(s, role)
  }

  function Fill(s: seq<Option<nat>>, role: nat): seq<Option<nat>> {
    if s == [] then [] else if s[0] == None then [Some(role)] + s[1..] else [s[0]] + Fill(s[1..], role)
  }
}
