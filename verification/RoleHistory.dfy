/** Administration over time (constable/rbac/adm.c:102-330): whatever requests are
    served, in whatever order, the cache is right for what the store then holds. */
module RoleHistory {
  import opened Lists
  import opened Graphs
  import opened RoleStore
  import opened RoleAdmin
  import opened RoleLoading

  // add tells an assignment from its removal. Users come from the user file, and
  // a session that is checked makes the roles valid.
  datatype Request =
    | Create(name: nat) | Delete(role: nat) | Link(add: bool, sup: nat, sub: nat) | Assign(add: bool, role: nat,
      user: nat)
    | Permit(add: bool, role: nat, access: int, space: nat) | Enlist(user: nat) | Validate

  function EmptiedAll(slots: map<nat, seq<Option<nat>>>, role: nat): map<nat, seq<Option<nat>>> {
    map u | u in slots :: Emptied(slots[u], role)
  }

  // What a store holds after a request. A name that is not found changes nothing.
  ghost function Served(spaces: set<nat>, c: Content, r: Request): Content {
    match r
    case Create(name) => if name in c.perms then c else c.(perms := c.perms[name := multiset{}])
    case Delete(role) =>
      if role !in c.perms then c
      else Content(c.perms - {role}, Rid(c.hier, true, true, role), Rid(c.ua, false, true, role),
        EmptiedAll(c.slots, role))
    case Link(add, sup, sub) =>
      if sup !in c.perms || sub !in c.perms then c
      else if !add then c.(hier := Without(c.hier, (sup, sub)))
      else if Below(EdgesOf(c.hier), sub, sup) then c
      else c.(hier := [(sup, sub)] + c.hier)
    case Assign(add, role, user) =>
      if role !in c.perms || user !in c.slots then c
      else if !add then c.(ua := Without(c.ua, (user, role)), slots := c.slots[user := Emptied(c.slots[user], role)])
      else if (user, role) in c.ua || (|c.slots[user]| >= USER_MAX_ROLES && None !in c.slots[user]) then c
      else c.(ua := [(user, role)] + c.ua, slots := c.slots[user := Seated(c.slots[user], role)])
    case Permit(add, role, access, space) =>
      if role !in c.perms || space !in spaces || access < 0 || access >= NR_ACCESS_TYPES then c
      else
        var p := multiset{Perm(access, space)};
        c.(perms := c.perms[role := if add then c.perms[role] + p else c.perms[role] - p])
    case Enlist(user) => if user in c.slots then c else c.(slots := c.slots[user := []])
    case Validate => c
  }

  ghost function ServedAll(spaces: set<nat>, c: Content, rs: seq<Request>): Content {
    if rs == [] then c else Served(spaces, ServedAll(spaces, c, rs[..|rs| - 1]), rs[|rs| - 1])
  }

  // rbac_set_hierarchy does not come back for an edge from a role to itself.
  predicate Proper(r: Request) { r.Link? && r.add ==> r.sup != r.sub }

  // Whether a request is reported as done: what it names must be there, and what it
  // adds must not be, or not be in the way. A user has 32 slots, and there are 8
  // access types; a permission for a space without a bit is kept, but refused.
  ghost predicate Done(vsOf: nat -> set<nat>, spaces: set<nat>, c: Content, r: Request) {
    match r
    case Create(name) => name !in c.perms
    case Delete(role) => role in c.perms
    case Link(add, sup, sub) =>
      sup in c.perms && sub in c.perms && if add then !Below(EdgesOf(c.hier), sub, sup) else (sup, sub) in c.hier
    case Assign(add, role, user) =>
      && role in c.perms && user in c.slots
      && if add then (user, role) !in c.ua && (|c.slots[user]| < 32 || None in c.slots[user]) else (user, role) in c.ua
    case Permit(add, role, access, space) =>
      && role in c.perms && space in spaces && 0 <= access < 8
      && if add then vsOf(space) != {} else Perm(access, space) in c.perms[role]
    case Enlist(user) => user !in c.slots
    case Validate => true
  }

  method Serve(db: Rbac, spaces: set<nat>, r: Request) returns (ok: bool)
    requires db.Valid() && Proper(r)
    modifies db
    ensures db.Valid() && ContentOf(db) == Served(spaces, old(ContentOf(db)), r)
    ensures ok == Done(db.vsOf, spaces, old(ContentOf(db)), r)
    ensures r.Validate? ==> !db.needReinit
  {
    hide Rbac.Valid, Rbac.Core, Below, EdgesOf, Flat, Seated, PermsIn, Rid, Without;
    match r {
      case Create(name) =>
        ok := db.RoleAdd(name);
        if ok { PermsNew(old(db.perms), name); }
      case Delete(role) =>
        ok := db.RoleDel(role);
        if ok {
          PermsGone(old(db.perms), role);
          assert db.slots == EmptiedAll(old(db.slots), role);
        }
      case Link(add, sup, sub) => ok := ServeLink(db, add, sup, sub);
      case Assign(add, role, user) => ok := ServeAssign(db, add, role, user);
      case Permit(add, role, access, space) => ok := ServePermit(db, spaces, add, role, access, space);
      case Enlist(user) => ok := db.UserAdd(user);
      case Validate =>
        if db.needReinit { db.Reinit(); }
        ok := true;
    }
  }

  lemma PermsGone(perms: Perms, role: nat)
    ensures PermsIn(perms - {role}) == PermsIn(perms) - {role}
  {
  }

  lemma PermsLess(perms: Perms, perms': Perms, r: nat, less: multiset<Perm>)
    requires r in perms && perms'.Keys == perms.Keys
    requires forall s :: s in perms && s != r ==> perms'[s] == perms[s]
    requires multiset(Flat(perms'[r])) == multiset(Flat(perms[r])) - less
    ensures PermsIn(perms') == PermsIn(perms)[r := PermsIn(perms)[r] - less]
  {
  }

  method ServeLink(db: Rbac, add: bool, sup: nat, sub: nat) returns (ok: bool)
    requires db.Valid() && (add ==> sup != sub)
    modifies db
    ensures db.Valid() && ContentOf(db) == Served({}, old(ContentOf(db)), Link(add, sup, sub))
    ensures ok == Done(db.vsOf, {}, old(ContentOf(db)), Link(add, sup, sub))
  {
    hide Below, EdgesOf, Flat, PermsIn, Without, Shape, OwnIn, Closed, Grounded, Assigned, ChunksOk;
    if sup !in db.perms || sub !in db.perms {
      ok := false;
    } else if add {
      ok := db.SetHierarchy(sup, sub);
    } else {
      ok := db.DelHierarchy(sup, sub);
    }
  }

  method ServeAssign(db: Rbac, add: bool, role: nat, user: nat) returns (ok: bool)
    requires db.Valid()
    modifies db
    ensures db.Valid() && ContentOf(db) == Served({}, old(ContentOf(db)), Assign(add, role, user))
    ensures ok == Done(db.vsOf, {}, old(ContentOf(db)), Assign(add, role, user))
  {
    hide Flat, PermsIn, Without, Shape, OwnIn, Closed, Grounded, Assigned, ChunksOk, Seated;
    if role !in db.perms || user !in db.slots {
      ok := false;
    } else if add {
      ok := db.AddUa(user, role);
    } else {
      ok := db.DelUa(user, role);
    }
  }

  method ServePermit(db: Rbac, spaces: set<nat>, add: bool, role: nat, access: int, space: nat) returns (ok: bool)
    requires db.Valid()
    modifies db
    ensures db.Valid() && ContentOf(db) == Served(spaces, old(ContentOf(db)), Permit(add, role, access, space))
    ensures ok == Done(db.vsOf, spaces, old(ContentOf(db)), Permit(add, role, access, space))
  {
    hide Rbac.Valid, Flat, PermsIn;
    if role !in db.perms || space !in spaces {
      return false;
    }
    ghost var p := if 0 <= access < NR_ACCESS_TYPES then multiset{Perm(access, space)} else multiset{};
    ghost var was := PermsIn(db.perms);
    InPerms(db.perms, role);
    if add {
      ok := db.AddPerm(role, access, space);
      PermsMore(old(db.perms), db.perms, role, p);
    } else {
      ok := db.DelPerm(role, access, space);
      PermsLess(old(db.perms), db.perms, role, p);
    }
    if access < 0 || access >= NR_ACCESS_TYPES { NoPerm(was, role); }
  }

  lemma InPerms(perms: Perms, role: nat)
    requires role in perms
    ensures forall p :: p in PermsIn(perms)[role] <==> p in Flat(perms[role])
  {
  }

  lemma NoPerm(m: map<nat, multiset<Perm>>, role: nat)
    requires role in m
    ensures m[role := m[role] + multiset{}] == m && m[role := m[role] - multiset{}] == m
  {
    assert m[role] + multiset{} == m[role] && m[role] - multiset{} == m[role];
  }

  // Some reflexive-transitive subrole of r has a permission that gives x.
  ghost predicate Entitled(vsOf: nat -> set<nat>, c: Content, r: nat, x: Right) {
    exists s, p :: s in c.perms && Reach(EdgesOf(c.hier), r, s) && p in c.perms[s] && p.access == x.0 &&
      x.1 in vsOf(p.space)
  }

  lemma {:induction false} EntitledIs(db: Rbac, r: nat, x: Right)
    ensures Entitled(db.vsOf, ContentOf(db), r, x) <==> Inherits(db.vsOf, db.perms, db.Graph(), r, x)
  {
    hide Flat, Reach, EdgesOf;
    var c := ContentOf(db);
    if Inherits(db.vsOf, db.perms, db.Graph(), r, x) {
      var s :| s in db.perms && Reach(db.Graph(), r, s) && Holds(db.vsOf, db.perms[s], x);
      var p :| p in Flat(db.perms[s]) && p.access == x.0 && x.1 in db.vsOf(p.space);
      assert p in c.perms[s];
    }
    if Entitled(db.vsOf, c, r, x) {
      var s, p :| s in c.perms && Reach(EdgesOf(c.hier), r, s) && p in c.perms[s] && p.access == x.0 &&
        x.1 in db.vsOf(p.space);
      assert p in Flat(db.perms[s]);
    }
  }

  // Any sequence of requests: the hierarchy stays acyclic, and the cache of every
  // role holds the rights it is entitled to by what the requests have left; it
  // holds no other unless a rebuild is due.
  method ServeAll(db: Rbac, spaces: set<nat>, rs: seq<Request>)
    requires db.Valid() && forall i :: 0 <= i < |rs| ==> Proper(rs[i])
    modifies db
    ensures db.Valid() && ContentOf(db) == ServedAll(spaces, old(ContentOf(db)), rs)
    ensures Acyclic(EdgesOf(ContentOf(db).hier)) && db.vs.Keys == ContentOf(db).perms.Keys
    ensures forall r, x :: r in db.vs && Entitled(db.vsOf, ContentOf(db), r, x) ==> x in db.vs[r]
    ensures !db.needReinit ==> forall r, x :: r in db.vs && x in db.vs[r] ==> Entitled(db.vsOf, ContentOf(db), r, x)
  {
    hide Rbac.Valid, Rbac.Core, Served, PermsIn;
    var i := 0;
    while i < |rs|
      invariant 0 <= i <= |rs| && db.Valid()
      invariant ContentOf(db) == ServedAll(spaces, old(ContentOf(db)), rs[..i])
    {
      assert rs[..i + 1][..i] == rs[..i];
      var ok := Serve(db, spaces, rs[i]);
      i := i + 1;
    }
    assert rs[..i] == rs;
    ShapeOf(db);
    hide ServedAll, Entitled, Inherits;
    forall r, x | r in db.vs
      ensures Entitled(db.vsOf, ContentOf(db), r, x) ==> x in db.vs[r]
      ensures !db.needReinit && x in db.vs[r] ==> Entitled(db.vsOf, ContentOf(db), r, x)
    {
      EntitledIs(db, r, x);
      CacheExact(db, r, x);
    }
  }

  lemma ShapeOf(db: Rbac)
    requires db.Valid()
    ensures Acyclic(db.Graph()) && db.vs.Keys == db.perms.Keys
  {
  }
}
