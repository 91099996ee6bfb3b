/** The authority of an active session: which spaces a process reaches with an
    access type, and how that meets the spaces of an object
    (constable/rbac/proc.c:70-97, constable/space.c:1178-1202). */
module Authority {
  import opened Lists
  import opened Graphs
  import opened RoleStore
  import opened RoleAdmin
  import opened Vs

  /* space_get_vs: a space gets its bit when it is first asked for */

  class SpaceIds {
    var cnt: nat                   // vs_cnt
    var ids: map<nat, nat>         // vs_id of every space that has one

    // No two spaces share a bit.
    ghost predicate Valid()
      reads this
    {
      && cnt <= MAX_NUM_OF_VS
      && (forall s :: s in ids ==> ids[s] < cnt)
      && (forall s, t :: s in ids && t in ids && ids[s] == ids[t] ==> s == t)
    }

    constructor ()
      ensures Valid() && ids == map[]
    {
      cnt, ids := 0, map[];
    }

    // A space keeps its bit; the 65th space gets none, where the daemon stops.
    method GetVs(space: nat) returns (bit: Option<nat>)
      requires Valid()
      modifies this
      ensures Valid() && (forall s :: s in old(ids) ==> s in ids && ids[s] == old(ids)[s])
      ensures bit == (if space in ids then Some(ids[space]) else None)
      ensures space in ids <==> space in old(ids) || old(cnt) < 64
      ensures ids.Keys <= old(ids).Keys + {space}
    {
      if space in ids {
        return Some(ids[space]);
      }
      if cnt >= MAX_NUM_OF_VS {
        return None;
      }
      ids := ids[space := cnt];
      cnt := cnt + 1;
      bit := Some(ids[space]);
    }
  }

  // The bits of spaces, as the role store sees them.
  function BitsOf(ids: map<nat, nat>): nat -> set<nat> { s => if s in ids then {ids[s]} else {} }

  ghost predicate Apart(vsOf: nat -> set<nat>) {
    forall s: nat, t: nat, b: nat :: b in vsOf(s) && b in vsOf(t) ==> s == t
  }

  lemma ValidApart(ids: SpaceIds)
    requires ids.Valid()
    ensures Apart(BitsOf(ids.ids))
  {
  }

  /* rbac_proc_get_vs */

  // Bit i of the session word.
  predicate Active(session: nat, i: nat)
    decreases i
  {
    if i == 0 then session % 2 == 1 else Active(session / 2, i - 1)
  }

  function Shifted(session: nat, i: nat): nat
    decreases i
  {
    if i == 0 then session else Shifted(session / 2, i - 1)
  }

  lemma {:induction false} ShiftedNext(session: nat, i: nat)
    ensures Shifted(session, i + 1) == Shifted(session, i) / 2
    ensures Active(session, i) <==> Shifted(session, i) % 2 == 1
    decreases i
  {
    if i > 0 { ShiftedNext(session / 2, i - 1); }
  }

  // Once the word is zero no later bit is set.
  lemma {:induction false} NoMoreActive(session: nat, i: nat, k: nat)
    requires Shifted(session, i) == 0 && i <= k
    ensures !Active(session, k) && Shifted(session, k) == 0
    decreases k
  {
    if i < k {
      NoMoreActive(session, i, k - 1);
      ShiftedNext(session, k - 1);
    }
    ShiftedNext(session, k);
  }

  // The role in slot i is active in the session.
  predicate ActiveRole(session: nat, slots: seq<Option<nat>>, i: nat, r: nat) {
    i < |slots| && i < USER_MAX_ROLES && Active(session, i) && slots[i] == Some(r)
  }

  // rbac_user_find_by_uid, over pairs of name and uid.
  method FindByUid(users: seq<(nat, nat)>, uid: nat) returns (u: Option<nat>)
    ensures u.None? <==> forall k :: 0 <= k < |users| ==> users[k].1 != uid
    ensures u.Some? ==> exists k :: 0 <= k < |users| && users[k] == (u.value, uid) && forall j :: 0 <= j < k ==>
        users[j].1 != uid
  {
    var k := 0;
    while k < |users|
      invariant 0 <= k <= |users| && forall j :: 0 <= j < k ==> users[j].1 != uid
    {
      if users[k].1 == uid {
        return Some(users[k].0);
      }
      k := k + 1;
    }
    u := None;
  }

  // What the active roles of a user hold for an access type.
  ghost predicate Reached(db: Rbac, user: nat, session: nat, access: nat, b: nat)
    requires user in db.slots
    reads db
  {
    exists i, r :: ActiveRole(session, db.slots[user], i, r) && r in db.vs && (access, b) in db.vs[r]
  }

  // The walk over the session word.
  method SessionVs(db: Rbac, user: nat, session: nat, access: nat) returns (vs: set<nat>)
    requires db.Valid() && user in db.slots
    ensures forall b :: b in vs <==> Reached(db, user, session, access, b)
  {
    hide Rbac.Valid, Active, Shifted;
    var slots := db.slots[user];
    SlotRoles(db, user);
    vs := {};
    var s, i := session, 0;
    assert Shifted(session, 0) == session by { ShiftedNone(session); }
    while s != 0 && i < USER_MAX_ROLES
      invariant 0 <= s && 0 <= i <= USER_MAX_ROLES && s == Shifted(session, i)
      invariant forall b :: b in vs <==> exists k, r ::
          0 <= k < i && ActiveRole(session, slots, k, r) && (access, b) in db.vs[r]
      decreases USER_MAX_ROLES - i
    {
      ShiftedNext(session, i);
      ghost var was := vs;
      if s % 2 == 1 && i < |slots| && slots[i].Some? {
        vs := vs + RightsFor(db.vs[slots[i].value], access);
      }
      NextSlot(db, user, session, access, i, was, vs);
      s := s / 2;
      i := i + 1;
    }
    forall k | i <= k < USER_MAX_ROLES ensures !Active(session, k) {
      NoMoreActive(session, i, k);
    }
    forall b ensures b in vs <==> Reached(db, user, session, access, b) {
      if Reached(db, user, session, access, b) {
        var k: nat, r :| ActiveRole(session, slots, k, r) && r in db.vs && (access, b) in db.vs[r];
        assert k < i;
      }
    }
  }

  function RightsFor(rights: set<Right>, access: nat): (bits: set<nat>)
    ensures forall b :: b in bits <==> (access, b) in rights
  {
    assert forall x :: x in rights && x.0 == access ==> x == (access, x.1);
    set x | x in rights && x.0 == access :: x.1
  }

  lemma ShiftedNone(session: nat)
    ensures Shifted(session, 0) == session
  {
  }

  lemma {:induction false} NextSlot(db: Rbac, user: nat, session: nat, access: nat, i: nat, was: set<nat>, vs: set<nat>)
    requires user in db.slots && i < USER_MAX_ROLES
    requires forall j :: 0 <= j < |db.slots[user]| && db.slots[user][j].Some? ==> db.slots[user][j].value in db.vs
    requires forall b :: b in was <==> exists k, r ::
        0 <= k < i && ActiveRole(session, db.slots[user], k, r) && (access, b) in db.vs[r]
    requires vs == if Active(session, i) && i < |db.slots[user]| && db.slots[user][i].Some?
      then was + RightsFor(db.vs[db.slots[user][i].value], access) else was
    ensures forall b :: b in vs <==> exists k, r ::
        0 <= k < i + 1 && ActiveRole(session, db.slots[user], k, r) && (access, b) in db.vs[r]
  {
    hide Active;
    var slots := db.slots[user];
    forall b | b in vs ensures exists k, r ::
      0 <= k < i + 1 && ActiveRole(session, slots, k, r) && (access, b) in db.vs[r] {
      if b in was {
        var k, r :| 0 <= k < i && ActiveRole(session, slots, k, r) && (access, b) in db.vs[r];
        assert k < i + 1;
      } else {
        assert ActiveRole(session, slots, i, slots[i].value);
      }
    }
    forall b, k, r | 0 <= k < i + 1 && ActiveRole(session, slots, k, r) && (access, b) in db.vs[r] ensures b in vs {
      if k < i { assert b in was; }
    }
  }

  // Slots and assignments agree.
  lemma SlotRoles(db: Rbac, user: nat)
    requires db.Valid() && user in db.slots
    ensures forall i :: 0 <= i < |db.slots[user]| && db.slots[user][i].Some? ==> db.slots[user][i].value in db.vs
    ensures forall r :: (user, r) in db.ua <==> Some(r) in db.slots[user]
  {
  }

  // rbac_proc_get_vs: the roles are validated first; an unknown uid is an error,
  // a process class without uid adds nothing.
  method GetVs(db: Rbac, users: seq<(nat, nat)>, uid: Option<nat>, session: nat, access: nat, vs: set<nat>)
    returns (r: int, vs': set<nat>)
    requires db.Valid() && forall k :: 0 <= k < |users| ==> users[k].0 in db.slots
    modifies db
    ensures db.Valid() && !db.needReinit
    ensures db.perms == old(db.perms) && db.hier == old(db.hier) && db.ua == old(db.ua) && db.slots == old(db.slots)
    ensures r == (if uid.None? || exists k :: 0 <= k < |users| && users[k].1 == uid.value then 0 else -1)
    ensures uid.None? || r < 0 ==> vs' == vs
    ensures uid.Some? && r == 0 ==> exists k ::
      && 0 <= k < |users| && users[k].1 == uid.value && (forall j :: 0 <= j < k ==> users[j].1 != uid.value)
      && users[k].0 in db.slots
      && forall b :: b in vs' <==> b in vs || Reached(db, users[k].0, session, access, b)
  {
    hide Rbac.Valid, Reached;
    if db.needReinit {
      db.Reinit();
    }
    if uid.None? {
      return 0, vs;
    }
    var u := FindByUid(users, uid.value);
    if u.None? {
      return -1, vs;
    }
    var own := SessionVs(db, u.value, session, access);
    r, vs' := 0, vs + own;
  }

  // An active role r, a reflexive-transitive subrole s of it, and a space t of
  // the object for which s holds the access type.
  ghost predicate Grants(db: Rbac, user: nat, session: nat, access: nat, belongs: set<nat>, r: nat, s: nat, t: nat)
    requires user in db.slots
    reads db
  {
    && (exists i :: ActiveRole(session, db.slots[user], i, r)) && Reach(db.Graph(), r, s)
    && s in db.perms && Perm(access, t) in Flat(db.perms[s])
    && t in belongs && db.vsOf(t) != {}
  }

  // A bit that the session reaches and that stands for a space of the object.
  ghost predicate Meets(db: Rbac, user: nat, session: nat, access: nat, belongs: set<nat>, b: nat, t: nat)
    requires user in db.slots
    reads db
  {
    Reached(db, user, session, access, b) && t in belongs && b in db.vsOf(t)
  }

  // A process whose roles have been validated reaches an object with an access
  // type exactly if some active role has a reflexive-transitive subrole that
  // holds the access type for a space the object belongs to.
  lemma {:induction false} AuthorityIs(db: Rbac, user: nat, session: nat, access: nat, belongs: set<nat>)
    requires db.Valid() && !db.needReinit && user in db.slots && Apart(db.vsOf)
    ensures (exists b, t :: Meets(db, user, session, access, belongs, b, t))
      <==> exists r, s, t :: Grants(db, user, session, access, belongs, r, s, t)
  {
    hide Grants, Meets, Rbac.Valid;
    if exists b, t :: Meets(db, user, session, access, belongs, b, t) {
      var b, t :| Meets(db, user, session, access, belongs, b, t);
      var r, s := MeetsGrants(db, user, session, access, belongs, b, t);
    }
    if exists r, s, t :: Grants(db, user, session, access, belongs, r, s, t) {
      var r, s, t :| Grants(db, user, session, access, belongs, r, s, t);
      var b := GrantsMeets(db, user, session, access, belongs, r, s, t);
    }
  }

  lemma {:induction false} MeetsGrants(db: Rbac, user: nat, session: nat, access: nat, belongs: set<nat>, b: nat,
      t: nat) returns (r: nat, s: nat)
    requires db.Valid() && !db.needReinit && user in db.slots && Apart(db.vsOf)
    requires Meets(db, user, session, access, belongs, b, t)
    ensures Grants(db, user, session, access, belongs, r, s, t)
  {
    hide Rbac.Valid, Rbac.Graph, Reach, Flat, Active;
    var i;
    i, r :| ActiveRole(session, db.slots[user], i, r) && r in db.vs && (access, b) in db.vs[r];
    var o;
    s, o := Holder(db, r, access, b);
    assert t == o;
  }

  lemma {:induction false} GrantsMeets(db: Rbac, user: nat, session: nat, access: nat, belongs: set<nat>, r: nat,
      s: nat, t: nat) returns (b: nat)
    requires db.Valid() && user in db.slots
    requires Grants(db, user, session, access, belongs, r, s, t)
    ensures Meets(db, user, session, access, belongs, b, t)
  {
    hide Rbac.Valid, Rbac.Graph, Reach, Flat, Active;
    SlotRoles(db, user);
    b :| b in db.vsOf(t);
    HasRight(db, r, s, t, access, b);
  }

  lemma {:induction false} Holder(db: Rbac, r: nat, access: nat, b: nat) returns (s: nat, t: nat)
    requires db.Valid() && !db.needReinit && r in db.vs && (access, b) in db.vs[r]
    ensures Reach(db.Graph(), r, s) && s in db.perms && Perm(access, t) in Flat(db.perms[s]) && b in db.vsOf(t)
  {
    CacheExact(db, r, (access, b));
    s :| s in db.perms && Reach(db.Graph(), r, s) && Holds(db.vsOf, db.perms[s], (access, b));
    var p :| p in Flat(db.perms[s]) && p.access == access && b in db.vsOf(p.space);
    t := p.space;
    assert p == Perm(access, t);
  }

  lemma {:induction false} HasRight(db: Rbac, r: nat, s: nat, t: nat, access: nat, b: nat)
    requires db.Valid() && r in db.vs && Reach(db.Graph(), r, s) && s in db.perms
    requires Perm(access, t) in Flat(db.perms[s]) && b in db.vsOf(t)
    ensures (access, b) in db.vs[r]
  {
    assert Holds(db.vsOf, db.perms[s], (access, b));
    CacheExact(db, r, (access, b));
  }
}
