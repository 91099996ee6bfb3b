/** Reading the role file: the table-driven reader and rbac_out, which changes
    the store entry by entry (constable/rbac/load.c:58-139). */
module RoleLoading {
  import opened Lists
  import opened Graphs
  import opened RoleStore
  import opened RoleText
  import opened RoleAdmin

  // What a store holds, whatever the chunks and the cache.
  datatype Content = Content(perms: map<nat, multiset<Perm>>, hier: Nodes, ua: Nodes, slots: map<nat, seq<Option<nat>>>)

  function PermsIn(perms: Perms): (m: map<nat, multiset<Perm>>)
    ensures m.Keys == perms.Keys
  {
    map r | r in perms :: multiset(Flat(perms[r]))
  }

  ghost function ContentOf(db: Rbac): Content
    reads db
  {
    Content(PermsIn(db.perms), db.hier, db.ua, db.slots)
  }

  // A content, the current role and access type, and the errors reported.
  datatype Reading = Reading(c: Content, role: Option<nat>, access: nat, errors: nat)

  function ErrorIf(b: bool): nat { if b then 1 else 0 }

  // One call of rbac_out. There is no outcome where the source goes on with a
  // null role, or sets a role above itself.
  ghost function Call(vsOf: nat -> set<nat>, spaces: set<nat>, rd: Reading, a: Act): Option<Reading> {
    var c := rd.c;
    var d := a.d;
    match a.out
    case ORoleDef =>
      if d in c.perms then Some(rd.(role := None, errors := rd.errors + 1))
      else Some(rd.(c := c.(perms := c.perms[d := multiset{}]), role := Some(d)))
    case OAccessType => Some(rd.(access := d))
    case OAddPerm =>
      if d !in spaces then Some(rd.(errors := rd.errors + 1))
      else if rd.role.None? || rd.role.value !in c.perms then None
      else
        var r := rd.role.value;
        var more := if rd.access < NR_ACCESS_TYPES then multiset{Perm(rd.access, d)} else multiset{};
        Some(rd.(c := c.(perms := c.perms[r := c.perms[r] + more]),
                 errors := rd.errors + ErrorIf(rd.access >= NR_ACCESS_TYPES || vsOf(d) == {})))
    case OAddUser =>
      if d !in c.slots then Some(rd.(errors := rd.errors + 1))
      else if rd.role.None? || rd.role.value !in c.perms then None
      else
        var r := rd.role.value;
        if (d, r) !in c.ua && (|c.slots[d]| < USER_MAX_ROLES || None in c.slots[d])
        then Some(rd.(c := c.(ua := [(d, r)] + c.ua, slots := c.slots[d := Seated(c.slots[d], r)])))
        else Some(rd.(errors := rd.errors + 1))
    case OAddSubrole =>
      if d !in c.perms then Some(rd.(errors := rd.errors + 1))
      else if rd.role.None? || rd.role.value !in c.perms || rd.role.value == d then None
      else
        var r := rd.role.value;
        if Below(EdgesOf(c.hier), d, r) then Some(rd) else Some(rd.(c := c.(hier := [(r, d)] + c.hier)))
  }

  ghost function Calls(vsOf: nat -> set<nat>, spaces: set<nat>, rd: Reading, acts: seq<Act>): Option<Reading>
    decreases acts
  {
    if acts == [] then Some(rd)
    else
      match Call(vsOf, spaces, rd, acts[0])
      case None => None
      case Some(next) => Calls(vsOf, spaces, next, acts[1..])
  }

  // The outcome of the rest of a text.
  ghost function Outcome(vsOf: nat -> set<nat>, spaces: set<nat>, rd: Reading,
      acts: Option<seq<Act>>): Option<Reading> {
    if acts.None? then None else Calls(vsOf, spaces, rd, acts.value)
  }

  lemma PermsMore(perms: Perms, perms': Perms, r: nat, more: multiset<Perm>)
    requires r in perms && perms'.Keys == perms.Keys
    requires forall s :: s in perms && s != r ==> perms'[s] == perms[s]
    requires multiset(Flat(perms'[r])) == multiset(Flat(perms[r])) + more
    ensures PermsIn(perms') == PermsIn(perms)[r := PermsIn(perms)[r] + more]
  {
  }

  lemma PermsNew(perms: Perms, r: nat)
    requires r !in perms
    ensures PermsIn(perms[r := []]) == PermsIn(perms)[r := multiset{}]
  {
    FlatOne([]);
    assert multiset(Flat([])) == multiset{};
  }

  class Loader {
    const db: Rbac
    const spaces: set<nat>       // the spaces that space_find finds
    var role: Option<nat>
    var access: nat
    var errors: nat

    constructor (db: Rbac, spaces: set<nat>)
      ensures this.db == db && this.spaces == spaces && role == None && access == 0 && errors == 0
    {
      this.db, this.spaces, role, access, errors := db, spaces, None, 0, 0;
    }

    ghost function State(): Reading
      reads this, db
    {
      Reading(ContentOf(db), role, access, errors)
    }

    // The cases of rbac_out.
    method RoleDef(d: nat) returns (ok: bool)
      requires db.Valid()
      modifies this, db
      ensures db.Valid()
      ensures var next := Call(db.vsOf, spaces, old(State()), Act(ORoleDef, d));
        ok == next.Some? && (ok ==> State() == next.value)
    {
      hide Rbac.Valid, Below, EdgesOf, Flat, Seated;
      var fine := db.RoleAdd(d);
      if fine {
        PermsNew(old(db.perms), d);
        role := Some(d);
      } else {
        role, errors := None, errors + 1;
      }
      ok := true;
    }

    method AddPermission(d: nat) returns (ok: bool)
      requires db.Valid()
      modifies this, db
      ensures db.Valid()
      ensures var next := Call(db.vsOf, spaces, old(State()), Act(OAddPerm, d));
        ok == next.Some? && (ok ==> State() == next.value)
    {
      hide Rbac.Valid, Below, EdgesOf, Flat, Seated, PermsIn;
      if d !in spaces {
        errors := errors + 1;
        return true;
      }
      if role.None? || role.value !in db.perms {
        return false;
      }
      var fine := db.AddPerm(role.value, access, d);
      PermsMore(old(db.perms), db.perms, role.value,
        if access < NR_ACCESS_TYPES then multiset{Perm(access, d)} else multiset{});
      if !fine { errors := errors + 1; }
      ok := true;
    }

    method AddUser(d: nat) returns (ok: bool)
      requires db.Valid()
      modifies this, db
      ensures db.Valid()
      ensures var next := Call(db.vsOf, spaces, old(State()), Act(OAddUser, d));
        ok == next.Some? && (ok ==> State() == next.value)
    {
      hide Rbac.Valid, Below, EdgesOf, Flat, Seated;
      if d !in db.slots {
        errors := errors + 1;
        return true;
      }
      if role.None? || role.value !in db.perms {
        return false;
      }
      var fine := db.AddUa(d, role.value);
      if !fine { errors := errors + 1; }
      ok := true;
    }

    method AddSubrole(d: nat) returns (ok: bool)
      requires db.Valid()
      modifies this, db
      ensures db.Valid()
      ensures var next := Call(db.vsOf, spaces, old(State()), Act(OAddSubrole, d));
        ok == next.Some? && (ok ==> State() == next.value)
    {
      hide Rbac.Valid, Below, EdgesOf, Flat, Seated;
      if d !in db.perms {
        errors := errors + 1;
        return true;
      }
      if role.None? || role.value !in db.perms || role.value == d {
        return false;
      }
      var fine := db.SetHierarchy(role.value, d);
      ok := true;
    }

    // rbac_out
    method Out(a: Act) returns (ok: bool)
      requires db.Valid()
      modifies this, db
      ensures db.Valid()
      ensures var next := Call(db.vsOf, spaces, old(State()), a);
        ok == next.Some? && (ok ==> State() == next.value)
    {
      hide Rbac.Valid, Below, EdgesOf, Flat, Seated, PermsIn;
      match a.out {
        case ORoleDef => ok := RoleDef(a.d);
        case OAccessType =>
          access := a.d;
          ok := true;
        case OAddPerm => ok := AddPermission(a.d);
        case OAddUser => ok := AddUser(a.d);
        case OAddSubrole => ok := AddSubrole(a.d);
      }
    }

    // load_roles, up to the first token the table does not accept.
    method Load(text: seq<Item>) returns (ok: bool)
      requires db.Valid()
      modifies this, db
      ensures db.Valid()
      ensures var r := Outcome(db.vsOf, spaces, old(State()), Acts(N(R1, Eps), text, 0));
        ok == r.Some? && (ok ==> State() == r.value)
    {
      hide Rbac.Valid, Row, Call, Loader.State;
      var stack, toks, last := N(R1, Eps), text, 0;
      ghost var goal := Outcome(db.vsOf, spaces, State(), Acts(stack, toks, last));
      while stack != Eps
        invariant db.Valid() && 0 <= last
        invariant Outcome(db.vsOf, spaces, State(), Acts(stack, toks, last)) == goal
        decreases |toks|, Cost(stack)
      {
        match stack {
          case T(k, rest) =>
            if toks == [] || KindOf(toks[0]) != k {
              return false;
            }
            last, stack, toks := DataOf(toks[0]), rest, toks[1..];
          case O(o, rest) =>
            OneCall(db.vsOf, spaces, State(), Act(o, last), Acts(rest, toks, last));
            var fine := Out(Act(o, last));
            if !fine {
              return false;
            }
            stack := rest;
          case N(nt, rest) =>
            var body := Row(nt, Look(toks), rest);
            RowShrinks(nt, Look(toks), rest);
            if body.None? {
              return false;
            }
            stack := body.value;
        }
      }
      ok := true;
    }
  }

  lemma OneCall(vsOf: nat -> set<nat>, spaces: set<nat>, rd: Reading, a: Act, more: Option<seq<Act>>)
    ensures Outcome(vsOf, spaces, rd, if more.None? then None else Some([a] + more.value))
      == if more.None? || Call(vsOf, spaces, rd, a).None? then None
         else Outcome(vsOf, spaces, Call(vsOf, spaces, rd, a).value, more)
  {
    if more.Some? {
      assert ([a] + more.value)[1..] == more.value;
    }
  }
}
