/** Roles, spaces and the tree together: when a process may do what to a node
    (constable/rbac/proc.c:70-97, constable/space.c:736-844 and 1178-1202). */
module Decisions {
  import opened Lists
  import opened Graphs
  import opened Trees
  import opened RoleStore
  import opened RoleAdmin
  import opened SpaceRules
  import opened Spaces
  import opened SpaceApply
  import opened Authority

  // What space_apply_all leaves: the arrays of the spaces that are left, and the
  // bits of every node from the spaces it is listed for.
  ghost predicate Applied(w: World, bitsOf: (nat, nat) -> set<nat>, vs: NodeVs)
    requires w.setup.Valid()
    reads w
  {
    && (forall s :: s in w.order ==> Exact(w, s))
    && (forall n: nat, a: nat, b: nat :: (n, a, b) in vs <==>
          a < NR_ACCESS_TYPES && exists s :: s in w.order && s in w.members && n in w.members[s] && b in bitsOf(s, a))
  }

  // A space has its own bit for AT_MEMBER, as space_get_vs gives it.
  ghost predicate OwnBits(ids: map<nat, nat>, bitsOf: (nat, nat) -> set<nat>) {
    forall s: nat :: bitsOf(s, AT_MEMBER) == BitsOf(ids)(s)
  }

  // An active role r, a reflexive-transitive subrole q of it, and a space t that
  // has n as a member and for which q has a permission.
  ghost predicate May(db: Rbac, w: World, ids: map<nat, nat>, user: nat, session: nat, access: nat, n: nat, r: nat,
      q: nat,
      t: nat)
    requires user in db.slots && w.setup.Valid() && n in w.setup.tree.nodes
    reads db, w
  {
    && (exists i :: ActiveRole(session, db.slots[user], i, r)) && Reach(db.Graph(), r, q)
    && q in db.perms && Perm(access, t) in Flat(db.perms[q])
    && t in w.order && t in ids && w.setup.Member(t, n)
  }

  // The rights of the session meet the vs of the node exactly if some active role
  // has a subrole that was granted the access type for a space of which the node
  // is a member.
  lemma {:induction false} NodeAuthority(db: Rbac, w: World, ids: SpaceIds, bitsOf: (nat, nat) -> set<nat>, vs: NodeVs,
      user: nat, session: nat, access: nat, n: nat)
    requires db.Valid() && !db.needReinit && user in db.slots
    requires ids.Valid() && db.vsOf == BitsOf(ids.ids) && OwnBits(ids.ids, bitsOf)
    requires w.setup.Valid() && w.setup.Plain() && n in w.setup.tree.nodes && Applied(w, bitsOf, vs)
    ensures (exists b: nat :: Reached(db, user, session, access, b) && (n, AT_MEMBER, b) in vs)
      <==> exists r, q, t :: May(db, w, ids.ids, user, session, access, n, r, q, t)
  {
    hide Rbac.Valid, Setup.Valid, Setup.Plain, Setup.Member, Reached, Flat, Reach, Rbac.Graph;
    var belongs := set t | t in w.order && w.setup.Member(t, n);
    ValidApart(ids);
    AuthorityIs(db, user, session, access, belongs);
    if exists b: nat :: Reached(db, user, session, access, b) && (n, AT_MEMBER, b) in vs {
      var b: nat :| Reached(db, user, session, access, b) && (n, AT_MEMBER, b) in vs;
      var t :| t in w.order && t in w.members && n in w.members[t] && b in bitsOf(t, AT_MEMBER);
      assert Meets(db, user, session, access, belongs, b, t);
      var r, q, u :| Grants(db, user, session, access, belongs, r, q, u);
      assert May(db, w, ids.ids, user, session, access, n, r, q, u);
    }
    if exists r, q, t :: May(db, w, ids.ids, user, session, access, n, r, q, t) {
      var r, q, t :| May(db, w, ids.ids, user, session, access, n, r, q, t);
      MayMeets(db, w, ids, bitsOf, vs, user, session, access, n, r, q, t);
    }
  }

  lemma {:induction false} MayMeets(db: Rbac, w: World, ids: SpaceIds, bitsOf: (nat, nat) -> set<nat>, vs: NodeVs,
      user: nat,
      session: nat, access: nat, n: nat, r: nat, q: nat, t: nat)
    requires db.Valid() && !db.needReinit && user in db.slots
    requires ids.Valid() && db.vsOf == BitsOf(ids.ids) && OwnBits(ids.ids, bitsOf)
    requires w.setup.Valid() && w.setup.Plain() && n in w.setup.tree.nodes && Applied(w, bitsOf, vs)
    requires May(db, w, ids.ids, user, session, access, n, r, q, t)
    ensures exists b: nat :: Reached(db, user, session, access, b) && (n, AT_MEMBER, b) in vs
  {
    hide Rbac.Valid, Setup.Valid, Setup.Plain, Setup.Member, Reached, Flat, Reach, Rbac.Graph;
    var belongs := set u | u in w.order && w.setup.Member(u, n);
    assert db.vsOf(t) == {ids.ids[t]};
    assert Grants(db, user, session, access, belongs, r, q, t);
    var b := GrantsMeets(db, user, session, access, belongs, r, q, t);
    assert b in bitsOf(t, AT_MEMBER) && n in w.members[t];
    assert (n, AT_MEMBER, b) in vs;
  }

  // space_apply_all on nodes without bits.
  method Apply(w: World, bitsOf: (nat, nat) -> set<nat>) returns (ok: bool, vs: NodeVs)
    requires w.setup.Valid() && w.setup.Plain() && w.setup.items.Keys == (set s | s in w.order)
    requires w.processed == {} && w.visited == {} && w.hasId <= w.used <= w.setup.items.Keys && w.fatal == NoFatal
    modifies w`order, w`used, w`processed, w`fatal, w`members, w`visited
    ensures ok <==> w.fatal == NoFatal
    ensures ok ==> Applied(w, bitsOf, vs) && forall s :: s in old(w.used) ==> s in w.order || Empty(w, s)
  {
    hide Setup.Valid, Setup.Plain, Setup.Member, Empty, Exact;
    ok, vs := ApplyAll(w, bitsOf, {});
  }

  // For every node, the rights meet its bits exactly if the roles, the permissions
  // and the members of the spaces say that the process may.
  ghost predicate Agrees(db: Rbac, w: World, ids: map<nat, nat>, user: nat, session: nat, access: nat, rights: set<nat>,
      vs: NodeVs)
    requires user in db.slots && w.setup.Valid()
    reads db, w
  {
    forall n :: n in w.setup.tree.nodes ==>
      ((exists b: nat :: b in rights && (n, AT_MEMBER, b) in vs)
        <==> exists r, q, t :: May(db, w, ids, user, session, access, n, r, q, t))
  }

  lemma {:induction false} EveryNode(db: Rbac, w: World, ids: SpaceIds, bitsOf: (nat, nat) -> set<nat>, vs: NodeVs,
      user: nat, session: nat, access: nat, rights: set<nat>)
    requires db.Valid() && !db.needReinit && user in db.slots
    requires ids.Valid() && db.vsOf == BitsOf(ids.ids) && OwnBits(ids.ids, bitsOf)
    requires w.setup.Valid() && w.setup.Plain() && Applied(w, bitsOf, vs)
    requires forall b: nat :: b in rights <==> Reached(db, user, session, access, b)
    ensures Agrees(db, w, ids.ids, user, session, access, rights, vs)
  {
    hide Rbac.Valid, SpaceIds.Valid, Setup.Valid, Setup.Plain, Applied, Reached, May, OwnBits, BitsOf;
    forall n | n in w.setup.tree.nodes
      ensures (exists b: nat :: b in rights && (n, AT_MEMBER, b) in vs)
        <==> exists r, q, t :: May(db, w, ids.ids, user, session, access, n, r, q, t)
    {
      NodeAuthority(db, w, ids, bitsOf, vs, user, session, access, n);
    }
  }

  // The whole way: the spaces are evaluated, and the rights of the process are
  // collected; what they meet is what the process may do.
  method Decide(db: Rbac, w: World, ids: SpaceIds, bitsOf: (nat, nat) -> set<nat>, users: seq<(nat, nat)>, uid: nat,
      session: nat, access: nat)
    returns (ok: bool, rights: set<nat>, vs: NodeVs)
    requires db.Valid() && forall k :: 0 <= k < |users| ==> users[k].0 in db.slots
    requires ids.Valid() && db.vsOf == BitsOf(ids.ids) && OwnBits(ids.ids, bitsOf)
    requires w.setup.Valid() && w.setup.Plain() && w.setup.items.Keys == (set s | s in w.order)
    requires w.processed == {} && w.visited == {} && w.hasId <= w.used <= w.setup.items.Keys && w.fatal == NoFatal
    modifies db, w`order, w`used, w`processed, w`fatal, w`members, w`visited
    ensures ok <==> w.fatal == NoFatal && exists k :: 0 <= k < |users| && users[k].1 == uid
    ensures ok ==> exists k ::
      && 0 <= k < |users| && users[k].1 == uid && (forall j :: 0 <= j < k ==> users[j].1 != uid)
      && users[k].0 in db.slots && Agrees(db, w, ids.ids, users[k].0, session, access, rights, vs)
  {
    hide Rbac.Valid, SpaceIds.Valid, Setup.Valid, Setup.Plain, Applied, Reached, OwnBits, BitsOf, Agrees, Empty;
    rights := {};
    ok, vs := Apply(w, bitsOf);
    if !ok {
      return;
    }
    var r;
    r, rights := Authority.GetVs(db, users, Some(uid), session, access, {});
    ok := r == 0;
    if ok {
      ghost var k :| 0 <= k < |users| && users[k].1 == uid && (forall j :: 0 <= j < k ==> users[j].1 != uid)
        && users[k].0 in db.slots && forall b :: b in rights <==> Reached(db, users[k].0, session, access, b);
      EveryNode(db, w, ids, bitsOf, vs, users[k].0, session, access, rights);
    }
  }
}
