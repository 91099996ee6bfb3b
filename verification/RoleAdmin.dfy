/** The operations on roles, as they update the store (constable/rbac/roles.c). */
module RoleAdmin {
  import opened Lists
  import opened Graphs
  import opened RoleStore

  class Rbac {
    const vsOf: nat -> set<nat>                 // space_get_vs
    var order: seq<nat>                         // rbac_roles
    var perms: Perms                            // perm of every role
    var vs: Cache                               // vs of every role
    var hier: Nodes
    var ua: Nodes
    var slots: map<nat, seq<Option<nat>>>       // roles[] of every user
    var needReinit: bool                        // rbac_roles_need_reinit

    ghost function Graph(): Edges
      reads this`hier
    {
      EdgesOf(hier)
    }

    // The hierarchy is acyclic, and the cache holds at least the rights of every
    // role and its subroles.
    ghost predicate Core()
      reads this
    {
      && Shape(order, perms, hier) && vs.Keys == perms.Keys
      && (forall r :: r in perms ==> ChunksOk(perms[r]))
      && OwnIn(vsOf, perms, vs) && Closed(Graph(), vs)
    }

    // Unless a rebuild is due it holds exactly those.
    ghost predicate Exact()
      reads this
    {
      !needReinit ==> Grounded(vsOf, perms, Graph(), vs)
    }

    ghost predicate Valid()
      reads this
    {
      Core() && Exact() && Assigned(perms.Keys, ua, slots)
    }

    constructor (vsOf: nat -> set<nat>)
      ensures Valid() && this.vsOf == vsOf && perms == map[] && order == [] && hier == [] && ua == [] &&
          slots == map[] && needReinit
    {
      this.vsOf := vsOf;
      order, perms, vs, hier, ua, slots, needReinit := [], map[], map[], [], [], map[], true;
    }

    // rbac_inherit_sup: the rights of r go up to its superroles, and on.
    method InheritSup(r: nat)
      requires Shape(order, perms, hier) && vs.Keys == perms.Keys && r in perms
      modifies this`vs
      ensures vs.Keys == perms.Keys && Spread(Graph(), old(vs), vs, r)
      decreases Above(Graph(), perms.Keys, r)
    {
      hide HandedTo, Spread, Acyclic, SupList, Sorted;
      ghost var g := Graph();
      var p := SupList(hier, r);
      SupNames(hier, r);
      HandedToNone(g, vs, p, r);
      var i := 0;
      while i < |p|
        invariant 0 <= i <= |p| && vs.Keys == perms.Keys
        invariant HandedTo(g, old(vs), vs, p, i, r)
      {
        assert (p[i], r) in g;
        AboveShrinks(g, perms.Keys, p[i], r);
        ghost var v0 := vs;
        vs := vs[p[i] := vs[p[i]] + vs[r]];
        ghost var v1 := vs;
        InheritSup(p[i]);
        HandedToNext(g, old(vs), v0, v1, vs, p, i, r);
        i := i + 1;
      }
      HandedToAll(g, old(vs), vs, p, r);
    }

    // is_subrole: test is reached from role in at least one step.
    method IsSubrole(role: nat, test: nat) returns (b: bool)
      requires Shape(order, perms, hier) && role in perms
      ensures b == Below(Graph(), role, test)
      decreases Under(Graph(), perms.Keys, role)
    {
      hide Acyclic, SubList, Sorted, Reach;
      ghost var g := Graph();
      var h := SubList(hier, role);
      SubNames(hier, role);
      var i := 0;
      while i < |h|
        invariant 0 <= i <= |h|
        invariant forall j :: 0 <= j < i ==> !Reach(g, h[j], test)
      {
        assert (role, h[i]) in g;
        if h[i] == test {
          ReachSelf(g, test);
          return true;
        }
        UnderShrinks(g, perms.Keys, role, h[i]);
        var s := IsSubrole(h[i], test);
        if s {
          BelowReach(g, h[i], test);
          return true;
        }
        if Reach(g, h[i], test) { ReachSplit(g, h[i], test); }
        i := i + 1;
      }
      b := false;
    }

    // rbac_set_hierarchy, for two different roles: refused exactly when it would
    // close a cycle.
    method SetHierarchy(sup: nat, sub: nat) returns (ok: bool)
      requires Valid() && sup in perms && sub in perms && sup != sub
      modifies this`hier, this`vs
      ensures Valid()
      ensures ok == !Below(EdgesOf(old(hier)), sub, sup)
      ensures if ok then hier == [(sup, sub)] + old(hier) else hier == old(hier) && vs == old(vs)
    {
      hide Acyclic, Sorted, OwnIn, Closed, Grounded, Assigned, Spread, EdgesOf;
      ghost var g := Graph();
      var cyclic := IsSubrole(sub, sup);
      if cyclic {
        return false;
      }
      hier := [(sup, sub)] + hier;
      NewEdge(old(hier), sup, sub);
      if Reach(g, sub, sup) { ReachSplit(g, sub, sup); }
      AcyclicWith(g, sup, sub);
      InheritSup(sub);
      NewEdgeSettled(vsOf, perms, g, old(vs), vs, sup, sub, needReinit);
      ok := true;
    }

    // rbac_del_hierarchy: the newest node for the edge goes; refused if there is none.
    method DelHierarchy(sup: nat, sub: nat) returns (ok: bool)
      requires Core()
      modifies this`hier, this`needReinit
      ensures Core() && ok == ((sup, sub) in old(hier))
      ensures hier == Without(old(hier), (sup, sub))
      ensures needReinit == (old(needReinit) || ok)
      ensures old(Valid()) ==> Valid()
    {
      hide Acyclic, Sorted, OwnIn, Grounded, Assigned;
      var i := FindNode(hier, (sup, sub));
      if i == |hier| {
        WithoutNone(hier, (sup, sub));
        return false;
      }
      WithoutAt(hier, (sup, sub), i);
      LessShape(order, perms, hier, (sup, sub));
      LessEdges(hier, (sup, sub));
      hier := hier[..i] + hier[i + 1..];
      needReinit := true;
      ok := true;
    }

    // rbac_role_add_perm. A space for which no bit is left is recorded, but the
    // caller is told.
    method AddPerm(role: nat, which: int, space: nat) returns (ok: bool)
      requires Valid() && role in perms
      modifies this`perms, this`vs
      ensures Valid() && perms.Keys == old(perms.Keys)
      ensures ok == (0 <= which < NR_ACCESS_TYPES && vsOf(space) != {})
      ensures forall r :: r in perms && r != role ==> perms[r] == old(perms)[r]
      ensures multiset(Flat(perms[role])) == multiset(Flat(old(perms)[role]))
        + if 0 <= which < NR_ACCESS_TYPES then multiset{Perm(which, space)} else multiset{}
    {
      hide Shape, OwnIn, Closed, Grounded, Assigned, Spread, EdgesOf, Flat, AddTo, OneMore, RightsOf, ChunksOk;
      if which < 0 || which >= NR_ACCESS_TYPES {
        return false;
      }
      var p := Perm(which, space);
      var chunks := perms[role];
      var i := FindRoom(chunks, p);
      if i == |chunks| {
        chunks := chunks + [[p]];
      } else {
        chunks := chunks[i := chunks[i] + [p]];
      }
      perms := perms[role := chunks];
      Added(old(perms), perms, role, p);
      ShapeSame(order, old(perms), perms, hier);
      vs := vs[role := vs[role] + RightsOf(vsOf, p)];
      InheritSup(role);
      NewRight(vsOf, old(perms), perms, Graph(), old(vs), vs, role, p, needReinit);
      ok := vsOf(space) != {};
    }

    // rbac_role_del_perm: the first occurrence goes; refused if there is none.
    method DelPerm(role: nat, which: int, space: nat) returns (ok: bool)
      requires Valid() && role in perms
      modifies this`perms, this`needReinit
      ensures Valid() && perms.Keys == old(perms.Keys)
      ensures ok == (0 <= which < NR_ACCESS_TYPES && Perm(which, space) in Flat(old(perms)[role]))
      ensures forall r :: r in perms && r != role ==> perms[r] == old(perms)[r]
      ensures multiset(Flat(perms[role])) == multiset(Flat(old(perms)[role]))
        - if 0 <= which < NR_ACCESS_TYPES then multiset{Perm(which, space)} else multiset{}
      ensures needReinit == (old(needReinit) || ok)
    {
      hide Shape, Closed, Grounded, Assigned, EdgesOf, Flat, DelFrom, ChunksOk, OwnIn;
      if which < 0 || which >= NR_ACCESS_TYPES {
        return false;
      }
      var p := Perm(which, space);
      var chunks := perms[role];
      var i := FindPerm(chunks, p);
      DelFromIs(chunks, p);
      DelFromOk(chunks, p);
      if i == |chunks| {
        NotInFlat(chunks, p);
        return false;
      }
      var c := WithoutPerm(chunks[i], p);
      perms := perms[role := chunks[..i] + (if c == [] then [] else [c]) + chunks[i + 1..]];
      OutOfFlat(chunks, perms[role], p);
      InChunk(chunks, i, p);
      FewerOwn(vsOf, old(perms), perms, vs, role);
      ShapeSame(order, old(perms), perms, hier);
      needReinit := true;
      ok := true;
    }

    // rbac_roles_reinit: the cache from scratch, whatever the order of the roles.
    method Reinit()
      requires Valid()
      modifies this`vs, this`needReinit
      ensures Valid() && !needReinit
    {
      hide Shape, Holds, Grounded, OwnIn, Closed, Assigned, EdgesOf, ClosedAbove, Handed, Grown, OnlyAbove, Spread,
        ChunksOk, Flat, OwnOf, Sorted;
      OrderIs(order, perms, hier);
      ghost var g := Graph();
      var own := OwnRightsOfAll(vsOf, order, perms);
      OwnCache(vsOf, perms, g, own);
      vs := own;
      GrownSelf(own);
      HandedSelf(g, own);
      var i := 0;
      while i < |order|
        invariant 0 <= i <= |order| && vs.Keys == perms.Keys
        invariant Grown(own, vs) && Handed(g, own, vs)
        invariant forall j :: 0 <= j < i ==> ClosedAbove(g, vs, order[j])
      {
        ghost var v0 := vs;
        InheritSup(order[i]);
        NextSpread(g, own, v0, vs, order, i);
        i := i + 1;
      }
      Rebuilt(vsOf, order, perms, hier, own, vs);
      needReinit := false;
    }

    // rbac_role_add: in its place among the names; a name is not taken twice.
    method RoleAdd(name: nat) returns (ok: bool)
      requires Valid()
      modifies this`order, this`perms, this`vs
      ensures Valid() && ok == (name !in old(perms))
      ensures perms == if ok then old(perms)[name := []] else old(perms)
    {
      hide OwnIn, Closed, Grounded, Shape, Sorted, EdgesOf, Flat, Holds, Assigned, ChunksOk;
      OrderIs(order, perms, hier);
      var i := FindPlace(order, name);
      if i < |order| && order[i] == name {
        return false;
      }
      NewName(order, perms, hier, name, i);
      NewRole(vsOf, perms, Graph(), vs, name);
      if !needReinit { NewRoleGrounded(vsOf, perms, Graph(), vs, name); }
      MoreAssigned(perms, ua, slots, name);
      order := order[..i] + [name] + order[i..];
      perms := perms[name := []];
      vs := vs[name := {}];
      ok := true;
    }

    // rbac_role_del: the role goes with its assignments, permissions and edges.
    // One edge deleted makes a rebuild due; if there was none, no other role
    // had a right from this one.
    method RoleDel(role: nat) returns (ok: bool)
      requires Valid()
      modifies this`order, this`perms, this`vs, this`hier, this`ua, this`slots, this`needReinit
      ensures Valid() && ok == (role in old(perms))
      ensures !ok ==> perms == old(perms) && hier == old(hier) && ua == old(ua) && slots == old(slots)
      ensures ok ==> perms == old(perms) - {role} && hier == Rid(old(hier), true, true, role)
      ensures ok ==> ua == Rid(old(ua), false, true, role)
      ensures ok ==> slots.Keys == old(slots).Keys && forall u :: u in slots ==>
          slots[u] == Emptied(old(slots)[u], role)
    {
      hide OwnIn, Closed, Grounded, Shape, EdgesOf, Rid, Assigned, ChunksOk;
      OrderIs(order, perms, hier);
      var i := FindRole(order, role);
      if i == |order| {
        return false;
      }
      DropUsers(role);
      DropPerms(role);
      DropEdges(role);
      Forget(old(perms), old(ua), role, i);
      ok := true;
    }

    // A role without assignments, permissions and edges leaves the list.
    method Forget(ghost before: Perms, ghost was: Nodes, role: nat, i: nat)
      requires Core() && Assigned(perms.Keys, ua, slots) && i < |order| && order[i] == role
      requires role in before && perms == before[role := []] && ua == Rid(was, false, true, role)
      requires forall e :: e in hier ==> e.0 != role && e.1 != role
      requires !needReinit ==> Grounded(vsOf, before, Graph(), vs)
      modifies this`order, this`perms, this`vs
      ensures Valid() && perms == before - {role}
    {
      hide OwnIn, Closed, Grounded, Shape, EdgesOf, Flat, Holds, Rid, Without, Assigned, ChunksOk;
      RoleGone(vsOf, before, perms, order, Graph(), hier, vs, role, i, needReinit);
      StillAssigned(perms.Keys, was, ua, slots, role);
      order := order[..i] + order[i + 1..];
      perms := perms - {role};
      vs := vs - {role};
      assert perms.Keys == before.Keys - {role};
    }

    // The assignments of a role, newest first.
    method DropUsers(role: nat)
      requires Assigned(perms.Keys, ua, slots)
      modifies this`ua, this`slots
      ensures Assigned(perms.Keys, ua, slots) && ua == Rid(old(ua), false, true, role)
      ensures slots.Keys == old(slots).Keys && forall u :: u in slots ==> slots[u] == Emptied(old(slots)[u], role)
    {
      hide Rid, Without, Distinct;
      var us := SupList(ua, role);
      while us != []
        invariant Assigned(perms.Keys, ua, slots) && us == SupList(ua, role)
        invariant Rid(ua, false, true, role) == Rid(old(ua), false, true, role)
        invariant slots.Keys == old(slots).Keys
        invariant forall u :: u in slots ==> Emptied(slots[u], role) == Emptied(old(slots)[u], role)
        decreases |ua|
      {
        SupIs(ua, us[0], role);
        WithoutIs(ua, (us[0], role));
        RidWithout(ua, false, true, role, (us[0], role));
        var ok := DelUa(us[0], role);
        us := SupList(ua, role);
      }
      RidNone(ua, false, true, role);
      forall u | u in slots ensures slots[u] == Emptied(slots[u], role) {
        SupIs(ua, u, role);
        EmptiedNone(slots[u], role);
      }
    }

    // The chunks of a role, one after another.
    method DropPerms(role: nat)
      requires Core() && role in perms
      modifies this`perms
      ensures Core() && perms == old(perms)[role := []]
    {
      hide OwnIn, Closed, Grounded, Acyclic, EdgesOf, Flat, Holds, Sorted;
      while perms[role] != []
        invariant role in perms && perms == old(perms)[role := perms[role]]
        decreases |perms[role]|
      {
        perms := perms[role := perms[role][1..]];
      }
      FlatOne([]);
      FewerOwn(vsOf, old(perms), perms, vs, role);
    }

    method DropEdges(role: nat)
      requires Core()
      modifies this`hier, this`needReinit
      ensures Core() && hier == Rid(old(hier), true, true, role)
      ensures needReinit == (old(needReinit) || hier != old(hier))
      ensures forall e :: e in hier ==> e.0 != role && e.1 != role
    {
      hide Core, Rid;
      DropSups(role);
      DropSubs(role);
      RidBoth(old(hier), role);
    }

    // The edges to a role from its superroles, newest first.
    method DropSups(role: nat)
      requires Core()
      modifies this`hier, this`needReinit
      ensures Core() && hier == Rid(old(hier), false, true, role)
      ensures needReinit == (old(needReinit) || hier != old(hier))
    {
      hide Core, Rid, Without;
      var sups := SupList(hier, role);
      while sups != []
        invariant Core() && sups == SupList(hier, role)
        invariant Rid(hier, false, true, role) == Rid(old(hier), false, true, role)
        invariant |hier| <= |old(hier)| && needReinit == (old(needReinit) || |hier| < |old(hier)|)
        invariant |hier| == |old(hier)| ==> hier == old(hier)
        decreases |hier|
      {
        SupIs(hier, sups[0], role);
        WithoutIs(hier, (sups[0], role));
        RidWithout(hier, false, true, role, (sups[0], role));
        var ok := DelHierarchy(sups[0], role);
        sups := SupList(hier, role);
      }
      RidNone(hier, false, true, role);
    }

    // The edges from a role to its subroles.
    method DropSubs(role: nat)
      requires Core()
      modifies this`hier, this`needReinit
      ensures Core() && hier == Rid(old(hier), true, false, role)
      ensures needReinit == (old(needReinit) || hier != old(hier))
    {
      hide Core, Rid, Without;
      var subs := SubList(hier, role);
      while subs != []
        invariant Core() && subs == SubList(hier, role)
        invariant Rid(hier, true, false, role) == Rid(old(hier), true, false, role)
        invariant |hier| <= |old(hier)| && needReinit == (old(needReinit) || |hier| < |old(hier)|)
        invariant |hier| == |old(hier)| ==> hier == old(hier)
        decreases |hier|
      {
        SubIs(hier, role, subs[0]);
        WithoutIs(hier, (role, subs[0]));
        RidWithout(hier, true, false, role, (role, subs[0]));
        var ok := DelHierarchy(role, subs[0]);
        subs := SubList(hier, role);
      }
      RidNone(hier, true, false, role);
    }

    // rbac_user_add: a user without roles.
    method UserAdd(user: nat) returns (ok: bool)
      requires Valid()
      modifies this`slots
      ensures Valid() && ok == (user !in old(slots))
      ensures slots == if ok then old(slots)[user := []] else old(slots)
    {
      ok := user !in slots;
      if ok { slots := slots[user := []]; }
    }

    // rbac_add_ua: into the next slot, or an empty one once all are in use.
    method AddUa(user: nat, role: nat) returns (ok: bool)
      requires Valid() && user in slots && role in perms
      modifies this`ua, this`slots
      ensures Valid()
      ensures ok == ((user, role) !in old(ua) && (|old(slots)[user]| < USER_MAX_ROLES || None in old(slots)[user]))
      ensures ua == if ok then [(user, role)] + old(ua) else old(ua)
      ensures slots == if ok then old(slots)[user := Seated(old(slots)[user], role)] else old(slots)
    {
      hide Shape, OwnIn, Closed, Grounded, ChunksOk;
      var s := slots[user];
      var taken := FindSlot(s, Some(role));
      if taken < |s| {
        return false;
      }
      if |s| >= USER_MAX_ROLES {
        var i := FindSlot(s, None);
        if i >= USER_MAX_ROLES {
          return false;
        }
        NewInSlot(perms.Keys, ua, slots, user, role, s[i := Some(role)]);
        FillAt(s, role, i);
        slots := slots[user := s[i := Some(role)]];
      } else {
        NewInSlot(perms.Keys, ua, slots, user, role, s + [Some(role)]);
        slots := slots[user := s + [Some(role)]];
      }
      ua := [(user, role)] + ua;
      ok := true;
    }

    // rbac_del_ua: the slot is emptied and the node goes; refused if there is none.
    method DelUa(user: nat, role: nat) returns (ok: bool)
      requires Assigned(perms.Keys, ua, slots) && user in slots
      modifies this`ua, this`slots
      ensures Assigned(perms.Keys, ua, slots) && ok == ((user, role) in old(ua))
      ensures ua == Without(old(ua), (user, role))
      ensures slots == old(slots)[user := Emptied(old(slots)[user], role)]
      ensures old(Valid()) ==> Valid()
    {
      hide Shape, OwnIn, Closed, Grounded, ChunksOk;
      var a := FindNode(ua, (user, role));
      var s := slots[user];
      var i := FindSlot(s, Some(role));
      if i < |s| {
        EmptiedAt(s, role, i);
        slots := slots[user := s[i := None]];
      } else {
        EmptiedNone(s, role);
      }
      if a == |ua| {
        WithoutAbsent(ua, (user, role));
        return false;
      }
      WithoutAt(ua, (user, role), a);
      OutOfSlot(perms.Keys, ua, old(slots), user, role);
      ua := ua[..a] + ua[a + 1..];
      ok := true;
    }
  }

  lemma OrderIs(order: seq<nat>, perms: Perms, hier: Nodes)
    requires Shape(order, perms, hier)
    ensures Sorted(order) && forall i :: 0 <= i < |order| ==> order[i] in perms
    ensures perms.Keys == (set r | r in order)
  {
  }

  // The cache cleared, and every role given its own rights.
  method OwnRightsOfAll(vsOf: nat -> set<nat>, order: seq<nat>, perms: Perms) returns (own: Cache)
    requires perms.Keys == (set r | r in order)
    ensures own.Keys == perms.Keys && forall r :: r in own ==> own[r] == OwnOf(vsOf, Flat(perms[r]))
  {
    hide OwnOf, Flat;
    own := map[];
    var i := 0;
    while i < |order|
      invariant 0 <= i <= |order|
      invariant own.Keys == (set j | 0 <= j < i :: order[j])
      invariant forall r :: r in own ==> r in perms && own[r] == OwnOf(vsOf, Flat(perms[r]))
    {
      var s := OwnRights(vsOf, perms[order[i]]);
      own := own[order[i] := s];
      i := i + 1;
    }
  }

  // The first chunk that holds p.
  method FindPerm(chunks: seq<seq<Perm>>, p: Perm) returns (i: nat)
    ensures i <= |chunks| && (i < |chunks| ==> p in chunks[i])
    ensures forall k :: 0 <= k < i ==> p !in chunks[k]
    ensures i < |chunks| ==>
      DelFrom(chunks, p) == chunks[..i] + (if Without(chunks[i], p) == [] then []
        else [Without(chunks[i], p)]) + chunks[i + 1..]
  {
    i := 0;
    while i < |chunks| && p !in chunks[i]
      invariant i <= |chunks| && forall k :: 0 <= k < i ==> p !in chunks[k]
    {
      i := i + 1;
    }
    if i < |chunks| { DelFromAt(chunks, p, i); }
  }

  lemma {:induction false} DelFromAt(chunks: seq<seq<Perm>>, p: Perm, i: nat)
    requires i < |chunks| && p in chunks[i] && forall k :: 0 <= k < i ==> p !in chunks[k]
    ensures DelFrom(chunks, p) == chunks[..i] + (if Without(chunks[i], p) == [] then []
        else [Without(chunks[i], p)]) + chunks[i + 1..]
  {
    hide Without;
    var mid := if Without(chunks[i], p) == [] then [] else [Without(chunks[i], p)];
    if i == 0 {
      assert chunks[..0] + mid + chunks[1..] == mid + chunks[1..];
    } else {
      DelFromAt(chunks[1..], p, i - 1);
      assert chunks[1..][..i - 1] == chunks[..i][1..] && chunks[1..][i..] == chunks[i + 1..];
      assert chunks[..i] + mid + chunks[i + 1..] == [chunks[0]] + (chunks[1..][..i - 1] + mid + chunks[1..][i..]);
    }
  }

  // The shift that closes the gap in a chunk.
  method WithoutPerm(c: seq<Perm>, p: Perm) returns (d: seq<Perm>)
    ensures d == Without(c, p)
  {
    var i := 0;
    while i < |c| && c[i] != p
      invariant 0 <= i <= |c| && p !in c[..i]
    {
      i := i + 1;
    }
    if i == |c| {
      WithoutAbsent(c, p);
      return c;
    }
    WithoutAt(c, p, i);
    d := c[..i] + c[i + 1..];
  }

  lemma {:induction false} WithoutAbsent<T>(s: seq<T>, x: T)
    requires x !in s
    ensures Without(s, x) == s
  {
    if s != [] { WithoutAbsent(s[1..], x); }
  }

  lemma {:induction false} NotInFlat(chunks: seq<seq<Perm>>, p: Perm)
    requires forall k :: 0 <= k < |chunks| ==> p !in chunks[k]
    ensures p !in Flat(chunks)
  {
    if chunks != [] { NotInFlat(chunks[1..], p); }
  }

  lemma {:induction false} InChunk(chunks: seq<seq<Perm>>, i: nat, p: Perm)
    requires i < |chunks| && p in chunks[i]
    ensures p in Flat(chunks)
  {
    if i > 0 { InChunk(chunks[1..], i - 1, p); }
  }

  lemma FewerOwn(vsOf: nat -> set<nat>, perms: Perms, perms': Perms, vs: Cache, r: nat)
    requires OwnIn(vsOf, perms, vs) && r in perms && perms'.Keys == perms.Keys
    requires forall s :: s in perms && s != r ==> perms'[s] == perms[s]
    requires forall q :: q in Flat(perms'[r]) ==> q in Flat(perms[r])
    ensures OwnIn(vsOf, perms', vs)
  {
    forall s, x: Right | s in perms' && Holds(vsOf, perms'[s], x) ensures s in vs && x in vs[s] {
      assert Holds(vsOf, perms[s], x);
    }
  }

  // The rights of all chunks of a role.
  method OwnRights(vsOf: nat -> set<nat>, chunks: seq<seq<Perm>>) returns (s: set<Right>)
    ensures s == OwnOf(vsOf, Flat(chunks))
  {
    hide OwnOf, RightsOf, Flat;
    s := {};
    var k := 0;
    assert chunks[..0] == [] && Flat([]) == [] && OwnOf(vsOf, []) == {} by { FlatOne([]); OwnNone(vsOf); }
    while k < |chunks|
      invariant 0 <= k <= |chunks| && s == OwnOf(vsOf, Flat(chunks[..k]))
    {
      var i := 0;
      var c := chunks[k];
      assert Flat(chunks[..k]) + c[..0] == Flat(chunks[..k]);
      while i < |c|
        invariant 0 <= i <= |c| && s == OwnOf(vsOf, Flat(chunks[..k]) + c[..i])
      {
        OwnNext(vsOf, Flat(chunks[..k]) + c[..i], c[i]);
        assert Flat(chunks[..k]) + c[..i + 1] == Flat(chunks[..k]) + c[..i] + [c[i]];
        s := s + RightsOf(vsOf, c[i]);
        i := i + 1;
      }
      assert c[..|c|] == c && chunks[..k + 1] == chunks[..k] + [c];
      FlatAppend(chunks[..k], [c]);
      FlatOne(c);
      k := k + 1;
    }
    assert chunks[..|chunks|] == chunks;
  }

  lemma OwnNone(vsOf: nat -> set<nat>)
    ensures OwnOf(vsOf, []) == {}
  {
  }

  lemma OwnNext(vsOf: nat -> set<nat>, ps: seq<Perm>, p: Perm)
    ensures OwnOf(vsOf, ps + [p]) == OwnOf(vsOf, ps) + RightsOf(vsOf, p)
  {
    assert (ps + [p])[..|ps|] == ps;
  }

  // A cache of the own rights alone.
  lemma {:induction false} OwnCache(vsOf: nat -> set<nat>, perms: Perms, g: Edges, own: Cache)
    requires own.Keys == perms.Keys && forall r :: r in own ==> own[r] == OwnOf(vsOf, Flat(perms[r]))
    ensures OwnIn(vsOf, perms, own) && Grounded(vsOf, perms, g, own)
  {
    hide OwnOf, Flat;
    forall r, x: Right | r in perms ensures Holds(vsOf, perms[r], x) <==> x in own[r] {
      OwnIs(vsOf, Flat(perms[r]), x);
    }
    forall r, x: Right | r in own && x in own[r] ensures Inherits(vsOf, perms, g, r, x) {
      ReachSelf(g, r);
    }
  }

  lemma GrownSelf(v: Cache)
    ensures Grown(v, v)
  {
  }

  lemma {:induction false} NextSpread(g: Edges, own: Cache, v0: Cache, v1: Cache, order: seq<nat>, n: nat)
    requires n < |order| && Grown(own, v0) && Handed(g, own, v0) && Spread(g, v0, v1, order[n])
    requires forall j :: 0 <= j < n ==> ClosedAbove(g, v0, order[j])
    ensures Grown(own, v1) && Handed(g, own, v1)
    ensures forall j :: 0 <= j < n + 1 ==> ClosedAbove(g, v1, order[j])
  {
    hide Handed, ClosedAbove;
    HandedThen(g, own, v0, v1);
    forall j | 0 <= j < n ensures ClosedAbove(g, v1, order[j]) {
      ClosedStays(g, v0, v1, order[j], order[n]);
    }
  }

  lemma {:induction false} Rebuilt(vsOf: nat -> set<nat>, order: seq<nat>, perms: Perms, hier: Nodes, own: Cache,
      vs: Cache)
    requires Shape(order, perms, hier) && own.Keys == perms.Keys
    requires OwnIn(vsOf, perms, own) && Grounded(vsOf, perms, EdgesOf(hier), own)
    requires Grown(own, vs) && Handed(EdgesOf(hier), own, vs)
    requires forall j :: 0 <= j < |order| ==> ClosedAbove(EdgesOf(hier), vs, order[j])
    ensures OwnIn(vsOf, perms, vs) && Closed(EdgesOf(hier), vs) && Grounded(vsOf, perms, EdgesOf(hier), vs)
  {
    var g := EdgesOf(hier);
    GroundedSpread(vsOf, perms, perms, g, g, own, vs);
    forall a: nat, b: nat | (a, b) in g ensures a in vs && b in vs && vs[b] <= vs[a] {
      assert b in perms;
      var j :| 0 <= j < |order| && order[j] == b;
      assert AtOrAbove(g, b, order[j]);
    }
  }

  lemma WithoutNone(hier: Nodes, e: (nat, nat))
    requires e !in hier
    ensures Without(hier, e) == hier
  {
  }

  lemma AddLater(chunks: seq<seq<Perm>>, i: nat, p: Perm)
    requires i < |chunks| && |chunks[i]| >= CHUNK && AddTo(chunks, p) == chunks[..i] + AddTo(chunks[i..], p)
    ensures AddTo(chunks, p) == chunks[..i + 1] + AddTo(chunks[i + 1..], p)
  {
    assert chunks[i..][1..] == chunks[i + 1..];
    assert chunks[..i + 1] == chunks[..i] + [chunks[i]];
  }

  lemma AddHere(chunks: seq<seq<Perm>>, i: nat, p: Perm)
    requires i <= |chunks| && (i < |chunks| ==> |chunks[i]| < CHUNK) &&
        AddTo(chunks, p) == chunks[..i] + AddTo(chunks[i..], p)
    ensures AddTo(chunks, p) == if i == |chunks| then chunks + [[p]] else chunks[i := chunks[i] + [p]]
  {
    if i < |chunks| {
      assert chunks[i..][1..] == chunks[i + 1..];
      assert chunks[i := chunks[i] + [p]] == chunks[..i] + ([chunks[i] + [p]] + chunks[i + 1..]);
    } else {
      assert chunks[..i] == chunks;
    }
  }

  // The first chunk with room.
  method FindRoom(chunks: seq<seq<Perm>>, p: Perm) returns (i: nat)
    ensures i <= |chunks|
    ensures AddTo(chunks, p) == if i == |chunks| then chunks + [[p]] else chunks[i := chunks[i] + [p]]
  {
    hide AddTo;
    i := 0;
    assert chunks[..0] + AddTo(chunks[0..], p) == AddTo(chunks, p) by { assert chunks[0..] == chunks; }
    while i < |chunks| && |chunks[i]| >= CHUNK
      invariant i <= |chunks| && AddTo(chunks, p) == chunks[..i] + AddTo(chunks[i..], p)
    {
      AddLater(chunks, i, p);
      i := i + 1;
    }
    AddHere(chunks, i, p);
  }

  // The first node for an edge.
  method FindNode(hier: Nodes, e: (nat, nat)) returns (i: nat)
    ensures i <= |hier| && (i < |hier| ==> hier[i] == e) && (i == |hier| <==> e !in hier)
    ensures e !in hier[..i]
  {
    i := 0;
    while i < |hier| && hier[i] != e
      invariant i <= |hier| && e !in hier[..i]
    {
      i := i + 1;
    }
  }

  lemma {:induction false} WithoutAt<T>(s: seq<T>, x: T, i: nat)
    requires i < |s| && s[i] == x && x !in s[..i]
    ensures s[..i] + s[i + 1..] == Without(s, x)
  {
    if i > 0 {
      assert s[0] in s[..i] && s[1..][..i - 1] == s[..i][1..];
      WithoutAt(s[1..], x, i - 1);
      assert s[..i] + s[i + 1..] == [s[0]] + (s[1..][..i - 1] + s[1..][i..]);
    } else {
      assert s[..0] + s[1..] == s[1..];
    }
  }

  lemma {:induction false} LessEdges(hier: Nodes, e: (nat, nat))
    ensures EdgesOf(Without(hier, e)) <= EdgesOf(hier)
  {
    WithoutIs(hier, e);
    forall d | d in Without(hier, e) ensures d in hier { assert d in multiset(Without(hier, e)); }
  }

  lemma {:induction false} LessShape(order: seq<nat>, perms: Perms, hier: Nodes, e: (nat, nat))
    requires Shape(order, perms, hier)
    ensures Shape(order, perms, Without(hier, e))
  {
    LessEdges(hier, e);
    AcyclicLess(EdgesOf(Without(hier, e)), EdgesOf(hier));
    forall d | d in Without(hier, e) ensures d in hier { assert d in EdgesOf(Without(hier, e)); }
  }

  lemma {:induction false} Added(perms: Perms, perms': Perms, r: nat, p: Perm)
    requires r in perms && perms' == perms[r := AddTo(perms[r], p)] && ChunksOk(perms[r]) && p.access < NR_ACCESS_TYPES
    ensures OneMore(perms, perms', r, p) && ChunksOk(perms'[r])
    ensures multiset(Flat(perms'[r])) == multiset(Flat(perms[r])) + multiset{p}
  {
    hide AddTo, Flat;
    AddToIs(perms[r], p);
    InFlat(perms[r], perms'[r], p);
  }

  lemma ShapeSame(order: seq<nat>, perms: Perms, perms': Perms, hier: Nodes)
    requires Shape(order, perms, hier) && perms'.Keys == perms.Keys
    ensures Shape(order, perms', hier)
  {
  }

  // Only r has one more permission, p.
  ghost predicate OneMore(perms: Perms, perms': Perms, r: nat, p: Perm) {
    && r in perms && perms'.Keys == perms.Keys
    && (forall s :: s in perms && s != r ==> perms'[s] == perms[s])
    && (forall q :: q in Flat(perms'[r]) <==> q == p || q in Flat(perms[r]))
  }

  lemma {:induction false} OneMoreOwn(vsOf: nat -> set<nat>, perms: Perms, perms': Perms, vs: Cache, r: nat, p: Perm)
    requires OwnIn(vsOf, perms, vs) && OneMore(perms, perms', r, p) && r in vs
    ensures OwnIn(vsOf, perms', vs[r := vs[r] + RightsOf(vsOf, p)])
  {
    var v1 := vs[r := vs[r] + RightsOf(vsOf, p)];
    forall s, x: Right | s in perms' && Holds(vsOf, perms'[s], x) ensures s in v1 && x in v1[s] {
      if s == r {
        var q :| q in Flat(perms'[r]) && q.access == x.0 && x.1 in vsOf(q.space);
        if q != p { assert Holds(vsOf, perms[r], x); }
      }
    }
  }

  lemma OneMoreHolds(vsOf: nat -> set<nat>, perms: Perms, perms': Perms, r: nat, p: Perm, s: nat, x: Right)
    requires OneMore(perms, perms', r, p) && s in perms
    ensures Holds(vsOf, perms[s], x) ==> Holds(vsOf, perms'[s], x)
    ensures s == r && x in RightsOf(vsOf, p) ==> Holds(vsOf, perms'[s], x)
  {
    if s == r && x in RightsOf(vsOf, p) { assert p in Flat(perms'[r]); }
  }

  lemma {:induction false} OneMoreGrounded(vsOf: nat -> set<nat>, perms: Perms, perms': Perms, g: Edges, vs: Cache,
      r: nat, p: Perm)
    requires Grounded(vsOf, perms, g, vs) && OneMore(perms, perms', r, p) && r in vs
    ensures Grounded(vsOf, perms', g, vs[r := vs[r] + RightsOf(vsOf, p)])
  {
    hide Holds, OneMore, RightsOf;
    var v1 := vs[r := vs[r] + RightsOf(vsOf, p)];
    forall s, x: Right | s in v1 && x in v1[s] ensures Inherits(vsOf, perms', g, s, x) {
      if s in vs && x in vs[s] {
        assert Inherits(vsOf, perms, g, s, x);
        var t :| t in perms && Reach(g, s, t) && Holds(vsOf, perms[t], x);
        OneMoreHolds(vsOf, perms, perms', r, p, t, x);
        OneMoreKeys(perms, perms', r, p);
      } else {
        OneMoreKeys(perms, perms', r, p);
        ReachSelf(g, r);
        OneMoreHolds(vsOf, perms, perms', r, p, r, x);
      }
    }
  }

  lemma OneMoreKeys(perms: Perms, perms': Perms, r: nat, p: Perm)
    requires OneMore(perms, perms', r, p)
    ensures perms'.Keys == perms.Keys && r in perms
  {
  }

  // The right of a new permission, and its spreading, keep the cache right.
  lemma {:induction false} NewRight(vsOf: nat -> set<nat>, perms: Perms, perms': Perms, g: Edges, vs: Cache,
      vs': Cache, r: nat, p: Perm, due: bool)
    requires OwnIn(vsOf, perms, vs) && Closed(g, vs) && vs.Keys == perms.Keys && OneMore(perms, perms', r, p)
    requires Spread(g, vs[r := vs[r] + RightsOf(vsOf, p)], vs', r)
    requires !due ==> Grounded(vsOf, perms, g, vs)
    ensures OwnIn(vsOf, perms', vs') && Closed(g, vs')
    ensures !due ==> Grounded(vsOf, perms', g, vs')
  {
    hide OwnIn, Grounded, Spread, RightsOf;
    OneMoreKeys(perms, perms', r, p);
    OneMoreOwn(vsOf, perms, perms', vs, r, p);
    if !due { OneMoreGrounded(vsOf, perms, perms', g, vs, r, p); }
    Settled(vsOf, perms', g, g, vs[r := vs[r] + RightsOf(vsOf, p)], vs', r, due);
  }

  lemma NewEdge(hier: Nodes, a: nat, b: nat)
    ensures EdgesOf([(a, b)] + hier) == EdgesOf(hier) + {(a, b)}
  {
  }

  lemma {:induction false} NewEdgeSettled(vsOf: nat -> set<nat>, perms: Perms, g: Edges, vs: Cache, vs': Cache, a: nat,
      b: nat, due: bool)
    requires OwnIn(vsOf, perms, vs) && Closed(g, vs) && a in vs && b in vs
    requires Spread(g + {(a, b)}, vs, vs', b)
    requires !due ==> Grounded(vsOf, perms, g, vs)
    ensures OwnIn(vsOf, perms, vs') && Closed(g + {(a, b)}, vs')
    ensures !due ==> Grounded(vsOf, perms, g + {(a, b)}, vs')
  {
    Settled(vsOf, perms, g, g + {(a, b)}, vs, vs', b, due);
  }

  lemma SubNames(hier: Nodes, a: nat)
    ensures forall b: nat :: b in SubList(hier, a) <==> (a, b) in EdgesOf(hier)
  {
    forall b: nat ensures b in SubList(hier, a) <==> (a, b) in EdgesOf(hier) { SubIs(hier, a, b); }
  }

  // The rights of r have gone up to the first n superroles, and on.
  ghost predicate HandedTo(g: Edges, v: Cache, now: Cache, p: seq<nat>, n: nat, r: nat)
    requires n <= |p|
  {
    && Grown(v, now) && OnlyAbove(g, v, now, r) && Handed(g, v, now) && r in now
    && forall j :: 0 <= j < n ==> p[j] in now && now[r] <= now[p[j]] && ClosedAbove(g, now, p[j])
  }

  lemma HandedToNone(g: Edges, v: Cache, p: seq<nat>, r: nat)
    requires r in v
    ensures HandedTo(g, v, v, p, 0, r)
  {
    HandedSelf(g, v);
  }

  lemma {:induction false} HandedToNext(g: Edges, v: Cache, v0: Cache, v1: Cache, v2: Cache, p: seq<nat>, n: nat,
      r: nat)
    requires n < |p| && Acyclic(g) && (p[n], r) in g && p[n] in v0 && HandedTo(g, v, v0, p, n, r)
    requires v1 == v0[p[n] := v0[p[n]] + v0[r]] && Spread(g, v1, v2, p[n])
    ensures HandedTo(g, v, v2, p, n + 1, r)
  {
    hide Handed, ClosedAbove, OnlyAbove, Grown, Acyclic, AtOrAbove;
    SpreadStep(g, v, v0, v1, v2, p[n], r);
    forall j | 0 <= j < n ensures p[j] in v2 && v2[r] <= v2[p[j]] && ClosedAbove(g, v2, p[j]) {
      SupStays(g, v0, v2, p[j], r);
      ClosedStays(g, v0, v2, p[j], p[n]);
    }
  }

  lemma {:induction false} HandedToAll(g: Edges, v: Cache, now: Cache, p: seq<nat>, r: nat)
    requires HandedTo(g, v, now, p, |p|, r)
    requires forall a: nat :: (a, r) in g ==> a in p
    ensures Spread(g, v, now, r)
  {
    hide Handed, ClosedAbove, OnlyAbove, Grown;
    ClosedFrom(g, now, r);
  }

  lemma SupNames(hier: Nodes, b: nat)
    ensures forall a: nat :: a in SupList(hier, b) <==> (a, b) in EdgesOf(hier)
  {
    forall a: nat ensures a in SupList(hier, b) <==> (a, b) in EdgesOf(hier) { SupIs(hier, a, b); }
  }

  lemma SupStays(g: Edges, v0: Cache, v2: Cache, q: nat, r: nat)
    requires Grown(v0, v2) && r in v0 && q in v0 && v2[r] == v0[r] && v0[r] <= v0[q]
    ensures q in v2 && r in v2 && v2[r] <= v2[q]
  {
  }

  // One superrole p of r done: v0 before, v1 with the rights of r added to p.
  lemma {:induction false} SpreadStep(g: Edges, v: Cache, v0: Cache, v1: Cache, v2: Cache, p: nat, r: nat)
    requires Acyclic(g) && (p, r) in g && p in v0 && r in v0 && v1 == v0[p := v0[p] + v0[r]]
    requires Grown(v, v0) && OnlyAbove(g, v, v0, r) && Handed(g, v, v0) && Spread(g, v1, v2, p)
    ensures Grown(v, v2) && OnlyAbove(g, v, v2, r) && Handed(g, v, v2)
    ensures p in v2 && r in v2 && v2[r] == v0[r] && v2[r] <= v2[p] && ClosedAbove(g, v2, p) && Grown(v0, v2)
    ensures forall s :: s in v0 && v2[s] != v0[s] ==> AtOrAbove(g, s, p)
  {
    hide Handed, ClosedAbove, OnlyAbove, Grown, Acyclic, AtOrAbove;
    HandedEdge(g, v0, p, r);
    HandedThen(g, v, v0, v1);
    HandedThen(g, v, v1, v2);
    StepGrows(v, v0, v1, v2, p, r);
    GrownKeys(v, v0);
    GrownKeys(v1, v2);
    StepAbove(g, v, v0, v1, v2, p, r);
    StepKeepsR(g, v0, v1, v2, p, r);
  }

  lemma GrownKeys(v: Cache, v': Cache)
    requires Grown(v, v')
    ensures v'.Keys == v.Keys
  {
  }

  lemma StepGrows(v: Cache, v0: Cache, v1: Cache, v2: Cache, p: nat, r: nat)
    requires p in v0 && r in v0 && v1 == v0[p := v0[p] + v0[r]] && Grown(v, v0) && Grown(v1, v2)
    ensures Grown(v, v2) && Grown(v0, v2) && v0[r] <= v2[p]
  {
    assert v0[r] <= v1[p] <= v2[p];
    forall s | s in v ensures v[s] <= v2[s] {
      assert v[s] <= v0[s] <= v1[s] <= v2[s];
    }
  }

  lemma {:induction false} StepAbove(g: Edges, v: Cache, v0: Cache, v1: Cache, v2: Cache, p: nat, r: nat)
    requires (p, r) in g && p in v0 && r in v0 && v1 == v0[p := v0[p] + v0[r]]
    requires v0.Keys == v.Keys && v2.Keys == v1.Keys
    requires OnlyAbove(g, v, v0, r) && OnlyAbove(g, v1, v2, p)
    ensures OnlyAbove(g, v, v2, r)
    ensures forall s :: s in v0 && v2[s] != v0[s] ==> AtOrAbove(g, s, p)
  {
    ReachSelf(g, r);
    assert Below(g, p, r);
    forall s | s in v && v2[s] != v[s] ensures Below(g, s, r) {
      if v2[s] != v1[s] {
        BelowReach(g, s, p);
        ReachBelow(g, s, p, r);
      }
    }
  }

  lemma {:induction false} StepKeepsR(g: Edges, v0: Cache, v1: Cache, v2: Cache, p: nat, r: nat)
    requires Acyclic(g) && (p, r) in g && p in v0 && r in v0 && v1 == v0[p := v0[p] + v0[r]]
    requires v2.Keys == v1.Keys && OnlyAbove(g, v1, v2, p)
    ensures v2[r] == v0[r]
  {
    ReachSelf(g, r);
    assert Below(g, p, r);
    assert p != r;
    if Below(g, r, p) {
      BelowReach(g, p, r);
      BelowThen(g, r, p, r);
    }
  }

  // Where a name belongs.
  method FindPlace(order: seq<nat>, name: nat) returns (i: nat)
    requires Sorted(order)
    ensures i <= |order| && (forall k :: 0 <= k < i ==> order[k] < name) &&
        (forall k :: i <= k < |order| ==> name <= order[k])
  {
    i := 0;
    while i < |order| && order[i] < name
      invariant i <= |order| && forall k :: 0 <= k < i ==> order[k] < name
    {
      i := i + 1;
    }
  }

  lemma NewName(order: seq<nat>, perms: Perms, hier: Nodes, name: nat, i: nat)
    requires Shape(order, perms, hier) && i <= |order| && (i < |order| ==> order[i] != name)
    requires (forall k :: 0 <= k < i ==> order[k] < name) && (forall k :: i <= k < |order| ==> name <= order[k])
    ensures name !in perms && Shape(order[..i] + [name] + order[i..], perms[name := []], hier) && ChunksOk([])
  {
    hide Acyclic, Sorted;
    InsertSorted(order, name, i);
    InsertIn(order, name, i);
    assert perms[name := []].Keys == perms.Keys + {name};
  }

  lemma {:induction false} InsertSorted(order: seq<nat>, name: nat, i: nat)
    requires Sorted(order) && i <= |order| && (i < |order| ==> order[i] != name)
    requires (forall k :: 0 <= k < i ==> order[k] < name) && (forall k :: i <= k < |order| ==> name <= order[k])
    ensures Sorted(order[..i] + [name] + order[i..]) && name !in order
  {
    var o := order[..i] + [name] + order[i..];
    forall j, k | 0 <= j < k < |o| ensures o[j] < o[k] {
      assert o[j] == if j < i then order[j] else if j == i then name else order[j - 1];
      assert o[k] == if k < i then order[k] else if k == i then name else order[k - 1];
      if i < |order| { assert order[i] > name; }
    }
    forall k | 0 <= k < |order| ensures order[k] != name {
      if i < k { assert order[i] < order[k]; }
    }
  }

  lemma InsertIn(order: seq<nat>, name: nat, i: nat)
    requires i <= |order|
    ensures var o := order[..i] + [name] + order[i..]; (set r | r in o) == (set r | r in order) + {name}
  {
    assert order == order[..i] + order[i..];
    var o := order[..i] + [name] + order[i..];
    forall r ensures r in o <==> r == name || r in order { }
  }

  lemma MoreAssigned(perms: Perms, ua: Nodes, slots: map<nat, seq<Option<nat>>>, role: nat)
    requires Assigned(perms.Keys, ua, slots)
    ensures Assigned(perms[role := []].Keys, ua, slots)
  {
  }

  // A role without permissions and edges.
  lemma {:induction false} NewRole(vsOf: nat -> set<nat>, perms: Perms, g: Edges, vs: Cache, name: nat)
    requires name !in perms && OwnIn(vsOf, perms, vs) && Closed(g, vs) && vs.Keys == perms.Keys
    ensures OwnIn(vsOf, perms[name := []], vs[name := {}]) && Closed(g, vs[name := {}])
  {
    var p := perms[name := []];
    forall r, x: Right | r in p && Holds(vsOf, p[r], x) ensures r in vs && x in vs[r] {
      FlatOne([]);
      assert r != name;
      assert r in perms && Holds(vsOf, perms[r], x);
    }
  }

  lemma {:induction false} NewRoleGrounded(vsOf: nat -> set<nat>, perms: Perms, g: Edges, vs: Cache, name: nat)
    requires name !in perms && vs.Keys == perms.Keys && Grounded(vsOf, perms, g, vs)
    ensures Grounded(vsOf, perms[name := []], g, vs[name := {}])
  {
    var p, v := perms[name := []], vs[name := {}];
    forall r, x: Right | r in v && x in v[r] ensures Inherits(vsOf, p, g, r, x) {
      assert Inherits(vsOf, perms, g, r, x);
      var s :| s in perms && Reach(g, r, s) && Holds(vsOf, perms[s], x);
      assert p[s] == perms[s];
    }
  }

  // The first slot that holds x, or the number of slots.
  method FindSlot(s: seq<Option<nat>>, x: Option<nat>) returns (i: nat)
    ensures i <= |s| && (i < |s| ==> s[i] == x) && x !in s[..i] && (i == |s| <==> x !in s)
  {
    i := 0;
    while i < |s| && s[i] != x
      invariant i <= |s| && x !in s[..i]
    {
      i := i + 1;
    }
  }

  lemma {:induction false} FillAt(s: seq<Option<nat>>, role: nat, i: nat)
    requires i < |s| && s[i] == None && None !in s[..i]
    ensures Fill(s, role) == s[i := Some(role)]
  {
    if i > 0 {
      assert s[0] in s[..i] && s[1..][..i - 1] == s[..i][1..];
      FillAt(s[1..], role, i - 1);
      assert s[i := Some(role)] == [s[0]] + s[1..][i - 1 := Some(role)];
    } else {
      assert s[0 := Some(role)] == [Some(role)] + s[1..];
    }
  }

  // A role put into a slot that was free.
  lemma {:induction false} NewInSlot(roles: set<nat>, ua: Nodes, slots: map<nat, seq<Option<nat>>>, user: nat,
      role: nat, s: seq<Option<nat>>)
    requires Assigned(roles, ua, slots) && user in slots && role in roles && Some(role) !in slots[user] &&
        |s| <= USER_MAX_ROLES
    requires s == slots[user] + [Some(role)] || exists i ::
        0 <= i < |slots[user]| && slots[user][i] == None && s == slots[user][i := Some(role)]
    ensures Assigned(roles, [(user, role)] + ua, slots[user := s])
  {
    var t := slots[user];
    assert SlotsDistinct(s) && forall r :: Some(r) in s <==> r == role || Some(r) in t by {
      if s == t + [Some(role)] {
        assert forall r :: Some(r) in s <==> r == role || Some(r) in t;
      } else {
        var i :| 0 <= i < |t| && t[i] == None && s == t[i := Some(role)];
        forall r ensures Some(r) in s <==> r == role || Some(r) in t {
          if Some(r) in t {
            var j :| 0 <= j < |t| && t[j] == Some(r);
            assert s[j] == Some(r);
          }
          assert s[i] == Some(role);
        }
      }
    }
    var ua', slots' := [(user, role)] + ua, slots[user := s];
    assert (user, role) !in ua;
    forall u: nat, r: nat | u in slots' ensures (u, r) in ua' <==> Some(r) in slots'[u] {
      assert (u, r) in ua' <==> (u, r) == (user, role) || (u, r) in ua;
    }
  }

  // The slots without a role.
  function Emptied(s: seq<Option<nat>>, role: nat): (t: seq<Option<nat>>)
    ensures |t| == |s| && forall i :: 0 <= i < |s| ==> t[i] == if s[i] == Some(role) then None else s[i]
  {
    seq(|s|, i requires 0 <= i < |s| => if s[i] == Some(role) then None else s[i])
  }

  lemma EmptiedAt(s: seq<Option<nat>>, role: nat, i: nat)
    requires SlotsDistinct(s) && i < |s| && s[i] == Some(role)
    ensures s[i := None] == Emptied(s, role)
  {
  }

  lemma EmptiedNone(s: seq<Option<nat>>, role: nat)
    requires Some(role) !in s
    ensures s == Emptied(s, role)
  {
  }

  lemma {:induction false} DistinctWithout(s: Nodes, x: (nat, nat))
    requires Distinct(s)
    ensures Distinct(Without(s, x)) && forall e :: e in Without(s, x) <==> e in s && e != x
  {
    if s != [] {
      var t := s[1..];
      assert s == [s[0]] + t;
      DistinctWithout(t, x);
      assert s[0] !in t;
    }
  }

  // A role taken out of its slot.
  lemma {:induction false} OutOfSlot(roles: set<nat>, ua: Nodes, slots: map<nat, seq<Option<nat>>>, user: nat,
      role: nat)
    requires Assigned(roles, ua, slots) && user in slots
    ensures Assigned(roles, Without(ua, (user, role)), slots[user := Emptied(slots[user], role)])
  {
    hide Distinct, Without;
    DistinctWithout(ua, (user, role));
    var t := Emptied(slots[user], role);
    forall r: nat ensures Some(r) in t <==> r != role && Some(r) in slots[user] {
      if r != role && Some(r) in slots[user] {
        var i :| 0 <= i < |slots[user]| && slots[user][i] == Some(r);
        assert t[i] == Some(r);
      }
    }
    assert SlotsDistinct(t);
  }

  // The nodes without those that name r as superrole (or user), and as subrole.
  function Rid(s: Nodes, sup: bool, sub: bool, r: nat): Nodes {
    if s == [] then []
    else if (sup && s[0].0 == r) || (sub && s[0].1 == r) then Rid(s[1..], sup, sub, r)
    else [s[0]] + Rid(s[1..], sup, sub, r)
  }

  lemma {:induction false} RidIs(s: Nodes, sup: bool, sub: bool, r: nat, e: (nat, nat))
    ensures e in Rid(s, sup, sub, r) <==> e in s && !((sup && e.0 == r) || (sub && e.1 == r))
  {
    if s != [] { RidIs(s[1..], sup, sub, r, e); }
  }

  lemma {:induction false} RidWithout(s: Nodes, sup: bool, sub: bool, r: nat, e: (nat, nat))
    requires (sup && e.0 == r) || (sub && e.1 == r)
    ensures Rid(Without(s, e), sup, sub, r) == Rid(s, sup, sub, r)
  {
    if s != [] && s[0] != e {
      RidWithout(s[1..], sup, sub, r, e);
      assert Without(s, e)[1..] == Without(s[1..], e);
    }
  }

  lemma {:induction false} RidNone(s: Nodes, sup: bool, sub: bool, r: nat)
    requires sup ==> SubList(s, r) == []
    requires sub ==> SupList(s, r) == []
    ensures Rid(s, sup, sub, r) == s
  {
    if s != [] { RidNone(s[1..], sup, sub, r); }
  }

  lemma {:induction false} RidBoth(s: Nodes, r: nat)
    ensures Rid(Rid(s, false, true, r), true, false, r) == Rid(s, true, true, r)
    ensures forall e :: e in Rid(s, true, true, r) <==> e in s && e.0 != r && e.1 != r
    ensures Rid(s, true, true, r) == s ==> Rid(s, false, true, r) == s
  {
    RidTwice(s, r);
    forall e ensures e in Rid(s, true, true, r) <==> e in s && e.0 != r && e.1 != r { RidIs(s, true, true, r, e); }
    RidLess(s, false, true, r);
    RidLess(Rid(s, false, true, r), true, false, r);
  }

  lemma {:induction false} RidLess(s: Nodes, sup: bool, sub: bool, r: nat)
    ensures |Rid(s, sup, sub, r)| <= |s| && (|Rid(s, sup, sub, r)| == |s| ==> Rid(s, sup, sub, r) == s)
  {
    if s != [] { RidLess(s[1..], sup, sub, r); }
  }

  lemma {:induction false} RidTwice(s: Nodes, r: nat)
    ensures Rid(Rid(s, false, true, r), true, false, r) == Rid(s, true, true, r)
  {
    if s != [] {
      RidTwice(s[1..], r);
      var t := Rid(s, false, true, r);
      if s[0].1 != r { assert t[0] == s[0] && t[1..] == Rid(s[1..], false, true, r); }
    }
  }

  method FindRole(order: seq<nat>, role: nat) returns (i: nat)
    ensures i <= |order| && (i < |order| ==> order[i] == role) && (i == |order| <==> role !in order)
  {
    i := 0;
    while i < |order| && order[i] != role
      invariant i <= |order| && role !in order[..i]
    {
      i := i + 1;
    }
  }

  // The store without a role that has no edge.
  lemma {:induction false} RoleGone(vsOf: nat -> set<nat>, before: Perms, perms: Perms, order: seq<nat>, g: Edges,
      hier: Nodes, vs: Cache, role: nat, i: nat, due: bool)
    requires Shape(order, perms, hier) && g == EdgesOf(hier) && i < |order| && order[i] == role
    requires role in before && perms == before[role := []] && vs.Keys == perms.Keys
    requires forall e :: e in hier ==> e.0 != role && e.1 != role
    requires OwnIn(vsOf, perms, vs) && Closed(g, vs)
    requires !due ==> Grounded(vsOf, before, g, vs)
    ensures Shape(order[..i] + order[i + 1..], perms - {role}, hier)
    ensures OwnIn(vsOf, perms - {role}, vs - {role}) && Closed(g, vs - {role})
    ensures !due ==> Grounded(vsOf, perms - {role}, g, vs - {role})
  {
    hide Acyclic, Holds, Sorted;
    RemoveSorted(order, i);
    RemoveIn(order, i);
    OwnLess(vsOf, perms, vs, role);
    if !due { GroundedLess(vsOf, before, perms, hier, vs, role); }
  }

  lemma RemoveSorted(order: seq<nat>, i: nat)
    requires Sorted(order) && i < |order|
    ensures Sorted(order[..i] + order[i + 1..])
  {
  }

  lemma {:induction false} RemoveIn(order: seq<nat>, i: nat)
    requires Sorted(order) && i < |order|
    ensures var o := order[..i] + order[i + 1..]; (set r | r in o) == (set r | r in order) - {order[i]}
  {
    var o := order[..i] + order[i + 1..];
    forall r ensures r in o <==> r in order && r != order[i] {
      if r in order && r != order[i] {
        var k :| 0 <= k < |order| && order[k] == r;
        assert r == if k < i then o[k] else o[k - 1];
      }
    }
  }

  lemma OwnLess(vsOf: nat -> set<nat>, perms: Perms, vs: Cache, role: nat)
    requires OwnIn(vsOf, perms, vs)
    ensures OwnIn(vsOf, perms - {role}, vs - {role})
  {
    var p := perms - {role};
    forall r, x: Right | r in p && Holds(vsOf, p[r], x) ensures r in vs && r != role && x in vs[r] {
      assert Holds(vsOf, perms[r], x);
    }
  }

  lemma {:induction false} GroundedLess(vsOf: nat -> set<nat>, before: Perms, perms: Perms, hier: Nodes, vs: Cache,
      role: nat)
    requires role in before && perms == before[role := []] && Grounded(vsOf, before, EdgesOf(hier), vs)
    requires forall e :: e in hier ==> e.0 != role && e.1 != role
    ensures Grounded(vsOf, perms - {role}, EdgesOf(hier), vs - {role})
  {
    hide Holds, Reach;
    var g, p, v := EdgesOf(hier), perms - {role}, vs - {role};
    forall r, x: Right | r in v && x in v[r] ensures Inherits(vsOf, p, g, r, x) {
      assert Inherits(vsOf, before, g, r, x);
      var s :| s in before && Reach(g, r, s) && Holds(vsOf, before[s], x);
      ReachSplit(g, r, s);
      if s == role {
        var c := LastEdge(g, r, s);
      }
      assert s in p && p[s] == before[s];
    }
  }

  lemma {:induction false} StillAssigned(roles: set<nat>, was: Nodes, ua: Nodes, slots: map<nat, seq<Option<nat>>>,
      role: nat)
    requires Assigned(roles, ua, slots) && ua == Rid(was, false, true, role)
    ensures Assigned(roles - {role}, ua, slots)
  {
    forall e | e in ua ensures e.1 != role { RidIs(was, false, true, role, e); }
  }

  // Between rebuilds the cache holds every right of a role's reflexive-transitive
  // subroles; when no rebuild is due it holds no other.
  lemma {:induction false} CacheExact(c: Rbac, r: nat, x: Right)
    requires c.Valid() && r in c.perms
    ensures Inherits(c.vsOf, c.perms, c.Graph(), r, x) ==> x in c.vs[r]
    ensures !c.needReinit ==> (x in c.vs[r] <==> Inherits(c.vsOf, c.perms, c.Graph(), r, x))
  {
    if Inherits(c.vsOf, c.perms, c.Graph(), r, x) {
      CacheCovers(c.vsOf, c.perms, c.Graph(), c.vs, r, x);
    }
  }
}
