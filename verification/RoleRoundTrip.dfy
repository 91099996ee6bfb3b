/** What is written for a store is read back as the same store. */
module RoleRoundTrip {
  import opened Lists
  import opened Graphs
  import opened RoleStore
  import opened RoleText
  import opened RoleSaving
  import opened RoleAdmin
  import opened RoleLoading

  /* The calls for a block */

  function SubActs(s: seq<nat>): seq<Act> {
    if s == [] then [] else [Act(OAddSubrole, s[0])] + SubActs(s[1..])
  }

  function UserActs(s: seq<nat>): seq<Act> {
    if s == [] then [] else [Act(OAddUser, s[0])] + UserActs(s[1..])
  }

  function PermActs(s: seq<Perm>): seq<Act> {
    if s == [] then [] else [Act(OAccessType, s[0].access), Act(OAddPerm, s[0].space)] + PermActs(s[1..])
  }

  function BlockActs(r: nat, subs: seq<nat>, users: seq<nat>, perms: seq<Perm>): seq<Act> {
    [Act(ORoleDef, r)] + SubActs(subs) + UserActs(users) + PermActs(perms)
  }

  function Then(a: seq<Act>, more: Option<seq<Act>>): Option<seq<Act>> {
    match more case None => None case Some(b) => Some(a + b)
  }

  lemma ThenThen(a: seq<Act>, b: seq<Act>, more: Option<seq<Act>>)
    ensures Then(a, Then(b, more)) == Then(a + b, more) && Then([], more) == more
  {
    if more.Some? { assert a + (b + more.value) == (a + b) + more.value && [] + more.value == more.value; }
  }

  /* Reading. After '{', ';' and '}' the value of the last token is 0. */

  lemma Take(k: Kind, stack: Syms, i: Item, rest: seq<Item>, last: nat)
    requires KindOf(i) == k
    ensures Acts(T(k, stack), [i] + rest, last) == Acts(stack, rest, DataOf(i))
  {
    assert ([i] + rest)[1..] == rest;
  }

  lemma Emit(o: Output, stack: Syms, text: seq<Item>, last: nat)
    ensures Acts(O(o, stack), text, last) == Then([Act(o, last)], Acts(stack, text, last))
  {
  }

  lemma Expand(nt: NT, stack: Syms, i: Item, rest: seq<Item>, last: nat)
    ensures Row(nt, KindOf(i), stack).Some? ==>
      Acts(N(nt, stack), [i] + rest, last) == Acts(Row(nt, KindOf(i), stack).value, [i] + rest, last)
    ensures Row(nt, KindOf(i), stack).None? ==> Acts(N(nt, stack), [i] + rest, last).None?
  {
    RowShrinks(nt, KindOf(i), stack);
  }

  // A separator, and the names after it.
  lemma {:induction false} MoreNamesRead(n: nat, s: seq<nat>, rest: seq<Item>, more: Syms)
    ensures Acts(N(R23, T(KMark(';'), N(R2, more))), [Mark(if s == [] then ';' else ',')] + (NameList(s) + rest), n)
      == Then(SubActs(s), Acts(N(R2, more), rest, 0))
    decreases |s|
  {
    hide Acts;
    var cont := T(KMark(';'), N(R2, more));
    var sep := Mark(if s == [] then ';' else ',');
    Expand(R23, cont, sep, NameList(s) + rest, n);
    if s == [] {
      assert NameList(s) + rest == rest;
      Take(KMark(';'), N(R2, more), sep, rest, n);
      ThenThen([], [], Acts(N(R2, more), rest, 0));
    } else {
      var tail := s[1..];
      var sep' := Mark(if tail == [] then ';' else ',');
      var after := [sep'] + (NameList(tail) + rest);
      assert NameList(s) + rest == [Name(s[0])] + after;
      Take(KMark(','), T(KId, O(OAddSubrole, N(R23, cont))), sep, [Name(s[0])] + after, n);
      Take(KId, O(OAddSubrole, N(R23, cont)), Name(s[0]), after, 0);
      Emit(OAddSubrole, N(R23, cont), after, s[0]);
      MoreNamesRead(s[0], tail, rest, more);
      ThenThen([Act(OAddSubrole, s[0])], SubActs(tail), Acts(N(R2, more), rest, 0));
    }
  }

  lemma {:induction false} NamesRead(s: seq<nat>, rest: seq<Item>, more: Syms)
    ensures Acts(N(R2, more), NameList(s) + rest, 0) == Then(SubActs(s), Acts(N(R2, more), rest, 0))
  {
    hide Acts;
    if s == [] {
      assert NameList(s) + rest == rest;
      ThenThen([], [], Acts(N(R2, more), rest, 0));
    } else {
      var cont := T(KMark(';'), N(R2, more));
      var tail := s[1..];
      var after := [Mark(if tail == [] then ';' else ',')] + (NameList(tail) + rest);
      assert NameList(s) + rest == [Name(s[0])] + after;
      Expand(R2, more, Name(s[0]), after, 0);
      Take(KId, O(OAddSubrole, N(R23, cont)), Name(s[0]), after, 0);
      Emit(OAddSubrole, N(R23, cont), after, s[0]);
      MoreNamesRead(s[0], tail, rest, more);
      ThenThen([Act(OAddSubrole, s[0])], SubActs(tail), Acts(N(R2, more), rest, 0));
    }
  }

  lemma {:induction false} MoreUsersRead(n: nat, s: seq<nat>, rest: seq<Item>, more: Syms)
    ensures Acts(N(R22, T(KMark(';'), N(R2, more))), [Mark(if s == [] then ';' else ',')] + (QuotedList(s) + rest), n)
      == Then(UserActs(s), Acts(N(R2, more), rest, 0))
    decreases |s|
  {
    hide Acts;
    var cont := T(KMark(';'), N(R2, more));
    var sep := Mark(if s == [] then ';' else ',');
    Expand(R22, cont, sep, QuotedList(s) + rest, n);
    if s == [] {
      assert QuotedList(s) + rest == rest;
      Take(KMark(';'), N(R2, more), sep, rest, n);
      ThenThen([], [], Acts(N(R2, more), rest, 0));
    } else {
      var tail := s[1..];
      var after := [Mark(if tail == [] then ';' else ',')] + (QuotedList(tail) + rest);
      assert QuotedList(s) + rest == [Quoted(s[0])] + after;
      Take(KMark(','), T(KStr, O(OAddUser, N(R22, cont))), sep, [Quoted(s[0])] + after, n);
      Take(KStr, O(OAddUser, N(R22, cont)), Quoted(s[0]), after, 0);
      Emit(OAddUser, N(R22, cont), after, s[0]);
      MoreUsersRead(s[0], tail, rest, more);
      ThenThen([Act(OAddUser, s[0])], UserActs(tail), Acts(N(R2, more), rest, 0));
    }
  }

  lemma {:induction false} UsersRead(s: seq<nat>, rest: seq<Item>, more: Syms)
    ensures Acts(N(R2, more), QuotedList(s) + rest, 0) == Then(UserActs(s), Acts(N(R2, more), rest, 0))
  {
    hide Acts;
    if s == [] {
      assert QuotedList(s) + rest == rest;
      ThenThen([], [], Acts(N(R2, more), rest, 0));
    } else {
      var cont := T(KMark(';'), N(R2, more));
      var tail := s[1..];
      var after := [Mark(if tail == [] then ';' else ',')] + (QuotedList(tail) + rest);
      assert QuotedList(s) + rest == [Quoted(s[0])] + after;
      Expand(R2, more, Quoted(s[0]), after, 0);
      Take(KStr, O(OAddUser, N(R22, cont)), Quoted(s[0]), after, 0);
      Emit(OAddUser, N(R22, cont), after, s[0]);
      MoreUsersRead(s[0], tail, rest, more);
      ThenThen([Act(OAddUser, s[0])], UserActs(tail), Acts(N(R2, more), rest, 0));
    }
  }

  lemma {:induction false} PermRead(p: Perm, after: seq<Item>, more: Syms)
    requires p.access < NR_ACCESS_TYPES
    ensures Acts(N(R2, more), [Keyword(WordOf(KEYWORDS, p.access)), Name(p.space), Mark(';')] + after, 0)
      == Then([Act(OAccessType, p.access), Act(OAddPerm, p.space)], Acts(N(R2, more), after, 0))
  {
    hide Acts, WordOf, AccessOf;
    var cont := T(KMark(';'), N(R2, more));
    var key := Keyword(WordOf(KEYWORDS, p.access));
    AccessReadBack(p.access);
    var t1 := [Mark(';')] + after;
    var t0 := [Name(p.space)] + t1;
    assert [Keyword(WordOf(KEYWORDS, p.access)), Name(p.space), Mark(';')] + after == [key] + t0;
    Expand(R2, more, key, t0, 0);
    var adding := T(KId, O(OAddPerm, N(R21, cont)));
    Take(KAccess, O(OAccessType, adding), key, t0, 0);
    Emit(OAccessType, adding, t0, p.access);
    Take(KId, O(OAddPerm, N(R21, cont)), Name(p.space), t1, p.access);
    Emit(OAddPerm, N(R21, cont), t1, p.space);
    Expand(R21, cont, Mark(';'), after, p.space);
    Take(KMark(';'), N(R2, more), Mark(';'), after, p.space);
    ThenThen([Act(OAccessType, p.access)], [Act(OAddPerm, p.space)], Acts(N(R2, more), after, 0));
    assert [Act(OAccessType, p.access)] + [Act(OAddPerm, p.space)] ==
      [Act(OAccessType, p.access), Act(OAddPerm, p.space)];
  }

  lemma {:induction false} PermsRead(s: seq<Perm>, rest: seq<Item>, more: Syms)
    requires forall p :: p in s ==> p.access < NR_ACCESS_TYPES
    ensures Acts(N(R2, more), PermLines(s) + rest, 0) == Then(PermActs(s), Acts(N(R2, more), rest, 0))
  {
    hide Acts, WordOf, AccessOf;
    if s == [] {
      assert PermLines(s) + rest == rest;
      ThenThen([], [], Acts(N(R2, more), rest, 0));
    } else {
      var p, tail := s[0], s[1..];
      var after := PermLines(tail) + rest;
      assert PermLines(s) + rest == [Keyword(WordOf(KEYWORDS, p.access)), Name(p.space), Mark(';')] + after;
      PermRead(p, after, more);
      PermsRead(tail, rest, more);
      ThenThen([Act(OAccessType, p.access), Act(OAddPerm, p.space)], PermActs(tail), Acts(N(R2, more), rest, 0));
    }
  }

  lemma {:induction false} BlockRead(r: nat, subs: seq<nat>, users: seq<nat>, perms: seq<Perm>, rest: seq<Item>)
    requires forall p :: p in perms ==> p.access < NR_ACCESS_TYPES
    ensures Acts(N(R1, Eps), Block(r, subs, users, perms) + rest, 0)
      == Then(BlockActs(r, subs, users, perms), Acts(N(R1, Eps), rest, 0))
  {
    hide Acts, NameList, QuotedList, PermLines, SubActs, UserActs, PermActs;
    var close := T(KMark('}'), N(R1, Eps));
    var t4 := [Mark('}')] + rest;
    var t3 := PermLines(perms) + t4;
    var t2 := QuotedList(users) + t3;
    var t1 := NameList(subs) + t2;
    assert Block(r, subs, users, perms) + rest == [Name(r)] + ([Mark('{')] + t1);
    Expand(R1, Eps, Name(r), [Mark('{')] + t1, 0);
    var open := T(KMark('{'), N(R2, close));
    Take(KId, O(ORoleDef, open), Name(r), [Mark('{')] + t1, 0);
    Emit(ORoleDef, open, [Mark('{')] + t1, r);
    Take(KMark('{'), N(R2, close), Mark('{'), t1, r);
    NamesRead(subs, t2, close);
    UsersRead(users, t3, close);
    PermsRead(perms, t4, close);
    Expand(R2, close, Mark('}'), rest, 0);
    Take(KMark('}'), N(R1, Eps), Mark('}'), rest, 0);
    var a := Acts(N(R1, Eps), rest, 0);
    ThenThen(UserActs(users), PermActs(perms), a);
    ThenThen(SubActs(subs), UserActs(users) + PermActs(perms), a);
    ThenThen([Act(ORoleDef, r)], SubActs(subs) + (UserActs(users) + PermActs(perms)), a);
    assert BlockActs(r, subs, users, perms) == [Act(ORoleDef,
      r)] + (SubActs(subs) + (UserActs(users) + PermActs(perms)));
  }

  function AllActs(hier: Nodes, ua: Nodes, perms: Perms, done: seq<nat>): seq<Act>
    requires forall r :: r in done ==> r in perms
  {
    if done == [] then []
    else
      var n := |done| - 1;
      AllActs(hier, ua, perms, done[..n]) + BlockActs(done[n], SubList(hier, done[n]), SupList(ua, done[n]),
        Flat(perms[done[n]]))
  }

  ghost predicate AccessesOk(perms: Perms) {
    forall r, p :: r in perms && p in Flat(perms[r]) ==> p.access < NR_ACCESS_TYPES
  }

  // The table accepts what is written, and calls rbac_out for every entry.
  lemma {:induction false} BlocksRead(hier: Nodes, ua: Nodes, perms: Perms, done: seq<nat>, rest: seq<Item>)
    requires (forall r :: r in done ==> r in perms) && AccessesOk(perms)
    ensures Acts(N(R1, Eps), Blocks(hier, ua, perms, done) + rest, 0)
      == Then(AllActs(hier, ua, perms, done), Acts(N(R1, Eps), rest, 0))
    decreases |done|
  {
    hide Acts, Block, BlockActs;
    if done == [] {
      assert Blocks(hier, ua, perms, done) + rest == rest;
      ThenThen([], [], Acts(N(R1, Eps), rest, 0));
    } else {
      var n := |done| - 1;
      var r := done[n];
      var block := BlockOf(hier, ua, perms, r);
      assert Blocks(hier, ua, perms, done) + rest == Blocks(hier, ua, perms, done[..n]) + (block + rest);
      BlocksRead(hier, ua, perms, done[..n], block + rest);
      BlockRead(r, SubList(hier, r), SupList(ua, r), Flat(perms[r]), rest);
      ThenThen(AllActs(hier, ua, perms, done[..n]), BlockActs(r, SubList(hier, r), SupList(ua, r), Flat(perms[r])),
        Acts(N(R1, Eps), rest, 0));
    }
  }

  /* The calls, one list after another */

  lemma {:induction false} CallsThen(vsOf: nat -> set<nat>, spaces: set<nat>, rd: Reading, a: seq<Act>, b: seq<Act>)
    ensures Calls(vsOf, spaces, rd, a + b)
      == match Calls(vsOf, spaces, rd, a) case None => None case Some(next) => Calls(vsOf, spaces, next, b)
    decreases |a|
  {
    hide Call;
    if a == [] {
      assert a + b == b;
    } else {
      assert (a + b)[0] == a[0] && (a + b)[1..] == a[1..] + b;
      if Call(vsOf, spaces, rd, a[0]).Some? { CallsThen(vsOf, spaces, Call(vsOf, spaces, rd, a[0]).value, a[1..], b); }
    }
  }

  lemma {:induction false} OneThen(vsOf: nat -> set<nat>, spaces: set<nat>, rd: Reading, a: Act, b: seq<Act>)
    requires Call(vsOf, spaces, rd, a).Some?
    ensures Calls(vsOf, spaces, rd, [a] + b) == Calls(vsOf, spaces, Call(vsOf, spaces, rd, a).value, b)
  {
    assert ([a] + b)[1..] == b;
  }

  // The edges, and the assignments, of a list: the last read is the newest.
  function EdgesAdded(r: nat, s: seq<nat>, h: Nodes): Nodes {
    if s == [] then h else EdgesAdded(r, s[1..], [(r, s[0])] + h)
  }

  function UsersAdded(r: nat, s: seq<nat>, h: Nodes): Nodes {
    if s == [] then h else UsersAdded(r, s[1..], [(s[0], r)] + h)
  }

  function SlotsAdded(r: nat, s: seq<nat>, slots: map<nat, seq<Option<nat>>>): map<nat, seq<Option<nat>>>
    requires forall u :: u in s ==> u in slots
  {
    if s == [] then slots else SlotsAdded(r, s[1..], slots[s[0] := Seated(slots[s[0]], r)])
  }

  // Subroles of a role that nothing is above yet.
  lemma {:induction false} SubsCalled(vsOf: nat -> set<nat>, spaces: set<nat>, rd: Reading, r: nat, s: seq<nat>)
    requires rd.role == Some(r) && r in rd.c.perms && r !in s && forall b :: b in s ==> b in rd.c.perms
    requires forall e :: e in rd.c.hier ==> e.1 != r
    ensures Calls(vsOf, spaces, rd, SubActs(s)) == Some(rd.(c := rd.c.(hier := EdgesAdded(r, s, rd.c.hier))))
    decreases |s|
  {
    hide Below, Reach;
    if s != [] {
      var b := s[0];
      if Below(EdgesOf(rd.c.hier), b, r) {
        var c := LastEdge(EdgesOf(rd.c.hier), b, r);
      }
      assert b in s && forall x :: x in s[1..] ==> x in s;
      var next := rd.(c := rd.c.(hier := [(r, b)] + rd.c.hier));
      assert Call(vsOf, spaces, rd, Act(OAddSubrole, b)) == Some(next);
      OneThen(vsOf, spaces, rd, Act(OAddSubrole, b), SubActs(s[1..]));
      SubsCalled(vsOf, spaces, next, r, s[1..]);
    }
  }

  // Users that do not have the role, and have a slot left.
  ghost predicate CanSeat(c: Content, r: nat, s: seq<nat>) {
    && (forall i, j :: 0 <= i < j < |s| ==> s[i] != s[j])
    && (forall u :: u in s ==> u in c.slots && (u, r) !in c.ua && |c.slots[u]| < USER_MAX_ROLES)
  }

  lemma {:induction false} UsersCalled(vsOf: nat -> set<nat>, spaces: set<nat>, rd: Reading, r: nat, s: seq<nat>)
    requires rd.role == Some(r) && r in rd.c.perms && CanSeat(rd.c, r, s)
    ensures Calls(vsOf, spaces, rd, UserActs(s))
      == Some(rd.(c := rd.c.(ua := UsersAdded(r, s, rd.c.ua), slots := SlotsAdded(r, s, rd.c.slots))))
    decreases |s|
  {
    if s != [] {
      var u := s[0];
      assert u in s && forall x :: x in s[1..] ==> x in s;
      var next := rd.(c := rd.c.(ua := [(u, r)] + rd.c.ua, slots := rd.c.slots[u := Seated(rd.c.slots[u], r)]));
      assert Call(vsOf, spaces, rd, Act(OAddUser, u)) == Some(next);
      OneThen(vsOf, spaces, rd, Act(OAddUser, u), UserActs(s[1..]));
      UsersCalled(vsOf, spaces, next, r, s[1..]);
    }
  }

  ghost predicate Usable(vsOf: nat -> set<nat>, spaces: set<nat>, s: seq<Perm>) {
    forall p :: p in s ==> p.access < NR_ACCESS_TYPES && p.space in spaces && vsOf(p.space) != {}
  }

  // A reading with more permissions for a role.
  function WithPerms(rd: Reading, r: nat, more: multiset<Perm>, access: nat): Reading
    requires r in rd.c.perms
  {
    rd.(c := rd.c.(perms := rd.c.perms[r := rd.c.perms[r] + more]), access := access)
  }

  lemma WithBoth(rd: Reading, r: nat, p: Perm, s: seq<Perm>, access: nat)
    requires r in rd.c.perms
    ensures WithPerms(rd, r, multiset{}, rd.access) == rd
    ensures WithPerms(WithPerms(rd, r, multiset{p}, p.access), r, multiset(s), access) ==
        WithPerms(rd, r, multiset([p] + s), access)
  {
    var m := rd.c.perms;
    assert m[r] + multiset{} == m[r];
    assert m[r := m[r]] == m;
    assert multiset([p] + s) == multiset{p} + multiset(s);
    var a, b := m[r] + multiset{p}, m[r] + multiset([p] + s);
    assert a + multiset(s) == b;
    assert m[r := a][r := b] == m[r := b];
  }

  lemma {:induction false} PermCalled(vsOf: nat -> set<nat>, spaces: set<nat>, rd: Reading, r: nat, p: Perm,
      more: seq<Act>)
    requires rd.role == Some(r) && r in rd.c.perms
    requires p.access < NR_ACCESS_TYPES && p.space in spaces && vsOf(p.space) != {}
    ensures Calls(vsOf, spaces, rd, [Act(OAccessType, p.access), Act(OAddPerm, p.space)] + more)
      == Calls(vsOf, spaces, WithPerms(rd, r, multiset{p}, p.access), more)
  {
    hide Calls;
    var one := rd.(access := p.access);
    assert [Act(OAccessType, p.access), Act(OAddPerm, p.space)] + more ==
      [Act(OAccessType, p.access)] + ([Act(OAddPerm, p.space)] + more);
    OneThen(vsOf, spaces, rd, Act(OAccessType, p.access), [Act(OAddPerm, p.space)] + more);
    OneThen(vsOf, spaces, one, Act(OAddPerm, p.space), more);
    assert Perm(p.access, p.space) == p;
  }

  lemma {:induction false} PermsCalled(vsOf: nat -> set<nat>, spaces: set<nat>, rd: Reading, r: nat, s: seq<Perm>)
    requires rd.role == Some(r) && r in rd.c.perms && Usable(vsOf, spaces, s)
    ensures Calls(vsOf, spaces, rd, PermActs(s))
      == Some(WithPerms(rd, r, multiset(s), if s == [] then rd.access else s[|s| - 1].access))
    decreases |s|
  {
    hide Call;
    if s == [] {
      WithBoth(rd, r, Perm(0, 0), [], 0);
      assert multiset(s) == multiset{};
    } else {
      var p, tail := s[0], s[1..];
      assert p in s && s == [p] + tail && forall q :: q in tail ==> q in s;
      PermCalled(vsOf, spaces, rd, r, p, PermActs(tail));
      PermsCalled(vsOf, spaces, WithPerms(rd, r, multiset{p}, p.access), r, tail);
      WithBoth(rd, r, p, tail, s[|s| - 1].access);
    }
  }

  /* What is gathered, block after block */

  lemma {:induction false} EdgesAddedIs(r: nat, s: seq<nat>, h: Nodes, e: (nat, nat))
    ensures multiset(EdgesAdded(r, s, h))[e] == multiset(h)[e] + if e.0 == r then multiset(s)[e.1] else 0
    decreases |s|
  {
    if s != [] {
      assert s == [s[0]] + s[1..];
      EdgesAddedIs(r, s[1..], [(r, s[0])] + h, e);
    }
  }

  lemma {:induction false} UsersAddedIs(r: nat, s: seq<nat>, h: Nodes, e: (nat, nat))
    ensures multiset(UsersAdded(r, s, h))[e] == multiset(h)[e] + if e.1 == r then multiset(s)[e.0] else 0
    decreases |s|
  {
    if s != [] {
      assert s == [s[0]] + s[1..];
      UsersAddedIs(r, s[1..], [(s[0], r)] + h, e);
    }
  }

  lemma {:induction false} SubCount(hier: Nodes, a: nat, b: nat)
    ensures multiset(SubList(hier, a))[b] == multiset(hier)[(a, b)]
  {
    if hier != [] {
      assert hier == [hier[0]] + hier[1..];
      SubCount(hier[1..], a, b);
    }
  }

  lemma {:induction false} SupCount(hier: Nodes, a: nat, b: nat)
    ensures multiset(SupList(hier, b))[a] == multiset(hier)[(a, b)]
  {
    if hier != [] {
      assert hier == [hier[0]] + hier[1..];
      SupCount(hier[1..], a, b);
    }
  }

  ghost predicate EdgesOfDone(hier: Nodes, done: seq<nat>, h: Nodes) {
    forall e :: multiset(h)[e] == if e.0 in done then multiset(hier)[e] else 0
  }

  ghost predicate UsersOfDone(ua: Nodes, done: seq<nat>, h: Nodes) {
    forall e :: multiset(h)[e] == if e.1 in done then multiset(ua)[e] else 0
  }

  lemma {:induction false} EdgesOfNext(hier: Nodes, done: seq<nat>, h: Nodes, r: nat)
    requires EdgesOfDone(hier, done, h) && r !in done
    ensures EdgesOfDone(hier, done + [r], EdgesAdded(r, SubList(hier, r), h))
  {
    forall e ensures multiset(EdgesAdded(r, SubList(hier, r), h))[e] == if e.0 in done + [r] then multiset(hier)[e]
      else 0 {
      EdgesAddedIs(r, SubList(hier, r), h, e);
      SubCount(hier, r, e.1);
      assert e.0 in done + [r] <==> e.0 in done || e.0 == r;
    }
  }

  lemma {:induction false} UsersOfNext(ua: Nodes, done: seq<nat>, h: Nodes, r: nat)
    requires UsersOfDone(ua, done, h) && r !in done
    ensures UsersOfDone(ua, done + [r], UsersAdded(r, SupList(ua, r), h))
  {
    forall e ensures multiset(UsersAdded(r, SupList(ua, r), h))[e] == if e.1 in done + [r] then multiset(ua)[e] else 0 {
      UsersAddedIs(r, SupList(ua, r), h, e);
      SupCount(ua, e.0, r);
      assert e.1 in done + [r] <==> e.1 in done || e.1 == r;
    }
  }

  predicate NoHoles(slots: map<nat, seq<Option<nat>>>) { forall u :: u in slots ==> None !in slots[u] }

  lemma {:induction false} UsersSeated(roles: set<nat>, r: nat, s: seq<nat>, ua: Nodes, slots: map<nat,
      seq<Option<nat>>>)
    requires Assigned(roles, ua, slots) && NoHoles(slots) && r in roles
    requires forall i, j :: 0 <= i < j < |s| ==> s[i] != s[j]
    requires forall u :: u in s ==> u in slots && (u, r) !in ua && |slots[u]| < USER_MAX_ROLES
    ensures var now := SlotsAdded(r, s, slots);
      Assigned(roles, UsersAdded(r, s, ua), now) && NoHoles(now) && now.Keys == slots.Keys
    decreases |s|
  {
    hide Distinct, SlotsDistinct;
    if s != [] {
      hide Assigned;
      var u := s[0];
      assert u in s && forall x :: x in s[1..] ==> x in s && x != u;
      var t := slots[u] + [Some(r)];
      SlotFree(roles, ua, slots, u, r);
      NewInSlot(roles, ua, slots, u, r, t);
      UsersSeated(roles, r, s[1..], [(u, r)] + ua, slots[u := t]);
    }
  }

  lemma SlotFree(roles: set<nat>, ua: Nodes, slots: map<nat, seq<Option<nat>>>, u: nat, r: nat)
    requires Assigned(roles, ua, slots) && u in slots && (u, r) !in ua
    ensures Some(r) !in slots[u]
  {
  }

  // Distinct slots that another user's slots hold, and more, are fewer.
  lemma {:induction false} FewerSlots(s: seq<Option<nat>>, t: seq<Option<nat>>, r: Option<nat>)
    requires SlotsDistinct(s) && None !in s && r in t && r !in s && forall x :: x in s ==> x in t
    ensures |s| < |t|
    decreases |s|
  {
    if s != [] {
      var n := |s| - 1;
      var x := s[n];
      assert x in s;
      var k :| 0 <= k < |t| && t[k] == x;
      var t' := t[..k] + t[k + 1..];
      assert t == t[..k] + [x] + t[k + 1..];
      forall y | y in t && y != x ensures y in t' { }
      FewerSlots(s[..n], t', r);
    }
  }

  lemma {:induction false} RoomLeft(all: set<nat>, ua: Nodes, slots: map<nat, seq<Option<nat>>>, done: seq<nat>,
      roles: set<nat>, h: Nodes, now: map<nat, seq<Option<nat>>>, u: nat, r: nat)
    requires Assigned(all, ua, slots) && Assigned(roles, h, now) && NoHoles(now) && now.Keys == slots.Keys
    requires UsersOfDone(ua, done, h) && r !in done && (u, r) in ua
    ensures u in now && (u, r) !in h && |now[u]| < USER_MAX_ROLES
  {
    assert multiset(h)[(u, r)] == 0;
    var s, t := now[u], slots[u];
    forall x | x in s ensures x in t {
      var q := x.value;
      assert (u, q) in h;
      assert multiset(h)[(u, q)] > 0;
      assert (u, q) in multiset(ua);
    }
    assert Some(r) in t;
    FewerSlots(s, t, Some(r));
  }

  ghost predicate Partial(perms: Perms, hier: Nodes, ua: Nodes, slots: map<nat, seq<Option<nat>>>, done: seq<nat>,
      c: Content) {
    && c.perms.Keys == (set r | r in done)
    && (forall r :: r in c.perms ==> r in perms && c.perms[r] == multiset(Flat(perms[r])))
    && EdgesOfDone(hier, done, c.hier) && UsersOfDone(ua, done, c.ua)
    && Assigned(c.perms.Keys, c.ua, c.slots) && c.slots.Keys == slots.Keys && NoHoles(c.slots)
  }

  lemma {:induction false} NoEdgeTo(perms: Perms, hier: Nodes, done: seq<nat>, h: Nodes, r: nat)
    requires EdgesOfDone(hier, done, h) && r !in done
    requires forall i, b :: 0 <= i < |done| && (done[i], b) in hier ==> b in done
    ensures forall e :: e in h ==> e.1 != r
  {
    forall e | e in h ensures e.1 != r {
      assert multiset(h)[e] > 0;
      assert e in multiset(hier);
      var i :| 0 <= i < |done| && done[i] == e.0;
      assert (done[i], e.1) in hier;
    }
  }

  lemma {:induction false} UsersDistinct(ua: Nodes, r: nat)
    requires Distinct(ua)
    ensures forall i, j :: 0 <= i < j < |SupList(ua, r)| ==> SupList(ua, r)[i] != SupList(ua, r)[j]
  {
    if ua != [] {
      assert Distinct(ua[1..]) by {
        forall i, j | 0 <= i < j < |ua| - 1 ensures ua[1..][i] != ua[1..][j] { assert ua[i + 1] != ua[j + 1]; }
      }
      UsersDistinct(ua[1..], r);
      SupIs(ua[1..], ua[0].0, r);
      assert ua[0] !in ua[1..];
    }
  }

  // The content with one more role.
  function WithRole(c: Content, r: nat, subs: seq<nat>, users: seq<nat>, ps: seq<Perm>): Content
    requires forall u :: u in users ==> u in c.slots
  {
    Content(c.perms[r := multiset{}][r := multiset{} + multiset(ps)], EdgesAdded(r, subs, c.hier),
            UsersAdded(r, users, c.ua), SlotsAdded(r, users, c.slots))
  }

  // The calls for a block add the role, if nothing is above it yet and its
  // users have slots left.
  lemma {:induction false} BlockGives(vsOf: nat -> set<nat>, spaces: set<nat>, rd: Reading, r: nat, subs: seq<nat>,
      users: seq<nat>, ps: seq<Perm>)
    returns (next: Reading)
    requires r !in rd.c.perms && Usable(vsOf, spaces, ps) && CanSeat(rd.c, r, users)
    requires forall b :: b in subs ==> b != r && b in rd.c.perms
    requires forall e :: e in rd.c.hier ==> e.1 != r
    ensures Calls(vsOf, spaces, rd, BlockActs(r, subs, users, ps)) == Some(next)
    ensures next.errors == rd.errors && next.c == WithRole(rd.c, r, subs, users, ps)
  {
    hide Call, Calls, SubActs, UserActs, PermActs, Usable, EdgesAdded, UsersAdded, SlotsAdded;
    var c := rd.c;
    var r1 := rd.(c := c.(perms := c.perms[r := multiset{}]), role := Some(r));
    RoleCalled(vsOf, spaces, rd, r);
    SubsCalled(vsOf, spaces, r1, r, subs);
    var r2 := r1.(c := r1.c.(hier := EdgesAdded(r, subs, c.hier)));
    UsersCalled(vsOf, spaces, r2, r, users);
    var r3 := r2.(c := r2.c.(ua := UsersAdded(r, users, c.ua), slots := SlotsAdded(r, users, c.slots)));
    PermsCalled(vsOf, spaces, r3, r, ps);
    next := WithPerms(r3, r, multiset(ps), if ps == [] then r3.access else ps[|ps| - 1].access);
    OneThen(vsOf, spaces, rd, Act(ORoleDef, r), SubActs(subs) + UserActs(users) + PermActs(ps));
    assert BlockActs(r, subs, users, ps) == [Act(ORoleDef, r)] + (SubActs(subs) + UserActs(users) + PermActs(ps));
    CallsThen(vsOf, spaces, r1, SubActs(subs) + UserActs(users), PermActs(ps));
    CallsThen(vsOf, spaces, r1, SubActs(subs), UserActs(users));
  }

  // One block is read without an error.
  lemma {:induction false} BlockCalled(vsOf: nat -> set<nat>, spaces: set<nat>, perms: Perms, hier: Nodes, ua: Nodes,
      slots: map<nat, seq<Option<nat>>>, done: seq<nat>, rd: Reading, r: nat)
    returns (next: Reading)
    requires Partial(perms, hier, ua, slots, done, rd.c) && Assigned(perms.Keys, ua, slots)
    requires r in perms && r !in done && Usable(vsOf, spaces, Flat(perms[r]))
    requires forall i, b :: 0 <= i < |done| && (done[i], b) in hier ==> b in done
    requires forall b :: (r, b) in hier ==> b in done
    ensures Calls(vsOf, spaces, rd, BlockActs(r, SubList(hier, r), SupList(ua, r), Flat(perms[r]))) == Some(next)
    ensures next.errors == rd.errors && Partial(perms, hier, ua, slots, done + [r], next.c)
  {
    hide Calls, Flat, BlockActs, SubList, SupList, Usable, EdgesOfDone, UsersOfDone, Assigned, NoHoles, EdgesAdded,
      UsersAdded, SlotsAdded;
    var c := rd.c;
    NoEdgeTo(perms, hier, done, c.hier, r);
    SubsReady(hier, done, r);
    UsersReady(perms, ua, slots, done, c, r);
    next := BlockGives(vsOf, spaces, rd, r, SubList(hier, r), SupList(ua, r), Flat(perms[r]));
    EdgesOfNext(hier, done, c.hier, r);
    UsersOfNext(ua, done, c.ua, r);
    MoreKeys(done, c.perms, r, multiset(Flat(perms[r])));
  }

  lemma RoleCalled(vsOf: nat -> set<nat>, spaces: set<nat>, rd: Reading, r: nat)
    requires r !in rd.c.perms
    ensures Call(vsOf, spaces, rd, Act(ORoleDef, r)) ==
        Some(rd.(c := rd.c.(perms := rd.c.perms[r := multiset{}]), role := Some(r)))
  {
  }

  lemma SubsReady(hier: Nodes, done: seq<nat>, r: nat)
    requires r !in done && forall b :: (r, b) in hier ==> b in done
    ensures forall b :: b in SubList(hier, r) ==> b in done && b != r
  {
    forall b | b in SubList(hier, r) ensures b in done { SubIs(hier, r, b); }
  }

  lemma {:induction false} UsersReady(perms: Perms, ua: Nodes, slots: map<nat, seq<Option<nat>>>, done: seq<nat>,
      c: Content, r: nat)
    requires Assigned(perms.Keys, ua, slots) && r !in done
    requires UsersOfDone(ua, done, c.ua) && Assigned(c.perms.Keys, c.ua, c.slots) && c.slots.Keys == slots.Keys &&
        NoHoles(c.slots)
    ensures CanSeat(c, r, SupList(ua, r))
    ensures var now := SlotsAdded(r, SupList(ua, r), c.slots);
      Assigned(c.perms.Keys + {r}, UsersAdded(r, SupList(ua, r), c.ua), now) && NoHoles(now) && now.Keys == slots.Keys
  {
    hide NoHoles, UsersOfDone, SlotsDistinct, Distinct;
    UsersDistinct(ua, r);
    forall u | u in SupList(ua, r) ensures u in c.slots && (u, r) !in c.ua && |c.slots[u]| < USER_MAX_ROLES {
      SupIs(ua, u, r);
      RoomLeft(perms.Keys, ua, slots, done, c.perms.Keys, c.ua, c.slots, u, r);
    }
    assert Assigned(c.perms.Keys + {r}, c.ua, c.slots);
    UsersSeated(c.perms.Keys + {r}, r, SupList(ua, r), c.ua, c.slots);
  }

  lemma MoreKeys(done: seq<nat>, m: map<nat, multiset<Perm>>, r: nat, ps: multiset<Perm>)
    requires m.Keys == (set x | x in done) && r !in done
    ensures var now := m[r := multiset{}][r := multiset{} + ps];
      now.Keys == (set x | x in done + [r]) && now.Keys == m.Keys + {r} && now[r] == ps && forall x :: x in m ==>
        now[x] == m[x]
  {
    forall x ensures x in done + [r] <==> x in done || x == r { }
    assert multiset{} + ps == ps;
  }

  // A store with the same users, and nothing else.
  function Fresh(slots: map<nat, seq<Option<nat>>>): Reading {
    Reading(Content(map[], [], [], map u | u in slots :: []), None, 0, 0)
  }

  lemma FreshPartial(perms: Perms, hier: Nodes, ua: Nodes, slots: map<nat, seq<Option<nat>>>)
    ensures Partial(perms, hier, ua, slots, [], Fresh(slots).c)
  {
  }

  lemma {:induction false} BlocksCalled(vsOf: nat -> set<nat>, spaces: set<nat>, perms: Perms, hier: Nodes, ua: Nodes,
      slots: map<nat, seq<Option<nat>>>, done: seq<nat>)
    returns (rd: Reading)
    requires (forall r :: r in done ==> r in perms && Usable(vsOf, spaces, Flat(perms[r])))
    requires PostOrder(hier, done) && Assigned(perms.Keys, ua, slots)
    ensures Calls(vsOf, spaces, Fresh(slots), AllActs(hier, ua, perms, done)) == Some(rd)
    ensures rd.errors == 0 && Partial(perms, hier, ua, slots, done, rd.c)
    decreases |done|
  {
    hide Call, Calls, Flat, BlockActs, SubList, SupList, Usable, Partial, Assigned;
    if done == [] {
      rd := Fresh(slots);
      FreshPartial(perms, hier, ua, slots);
      NoCalls(vsOf, spaces, rd);

    } else {
      var n := |done| - 1;
      var before, r := done[..n], done[n];
      PostOrderLess(hier, done);
      rd := BlocksCalled(vsOf, spaces, perms, hier, ua, slots, before);
      CallsThen(vsOf, spaces, Fresh(slots), AllActs(hier, ua, perms, before),
        BlockActs(r, SubList(hier, r), SupList(ua, r), Flat(perms[r])));
      rd := BlockCalled(vsOf, spaces, perms, hier, ua, slots, before, rd, r);
      assert before + [r] == done;
    }
  }

  lemma NoCalls(vsOf: nat -> set<nat>, spaces: set<nat>, rd: Reading)
    ensures Calls(vsOf, spaces, rd, []) == Some(rd)
  {
  }

  lemma {:induction false} PostOrderLess(hier: Nodes, done: seq<nat>)
    requires PostOrder(hier, done) && done != []
    ensures var n := |done| - 1;
      && PostOrder(hier, done[..n]) && done[n] !in done[..n]
      && (forall i, b :: 0 <= i < n && (done[i], b) in hier ==> b in done[..n])
      && (forall b :: (done[n], b) in hier ==> b in done[..n])
  {
    var n := |done| - 1;
    forall i, b | 0 <= i < n && (done[i], b) in hier ensures b in done[..n][..i] && b in done[..n] {
      assert b in done[..i] && done[..n][..i] == done[..i];
    }
  }

  // The text written for a store, read into a store with the same users, gives
  // the same roles with the same permissions, the same edges and the same
  // assignments, each as often, and no error.
  lemma {:induction false} SavedThenLoaded(vsOf: nat -> set<nat>, spaces: set<nat>, order: seq<nat>, perms: Perms,
      hier: Nodes, ua: Nodes, slots: map<nat, seq<Option<nat>>>, done: seq<nat>)
    requires Shape(order, perms, hier) && Assigned(perms.Keys, ua, slots)
    requires forall r :: r in perms ==> Usable(vsOf, spaces, Flat(perms[r]))
    requires PostOrder(hier, done) && (set r | r in done) == perms.Keys
    ensures var r := Outcome(vsOf, spaces, Fresh(slots), Acts(N(R1, Eps), Blocks(hier, ua, perms, done), 0));
      && r.Some? && r.value.errors == 0
      && r.value.c.perms == PermsIn(perms)
      && multiset(r.value.c.hier) == multiset(hier)
      && multiset(r.value.c.ua) == multiset(ua)
      && Assigned(perms.Keys, r.value.c.ua, r.value.c.slots) && r.value.c.slots.Keys == slots.Keys
  {
    hide Call, Calls, Acts, Flat, SubList, SupList, Assigned, Fresh, Usable, Shape, PostOrder;
    assert AccessesOk(perms) by { UsableAccesses(vsOf, spaces, perms); }
    SavedRead(hier, ua, perms, done);
    var rd := BlocksCalled(vsOf, spaces, perms, hier, ua, slots, done);
    hide AllActs, Blocks;
    assert Within(hier, perms.Keys) by { ShapeWithin(order, perms, hier); }
    AllGathered(hier, ua, perms, done, rd.c.hier, rd.c.ua, slots);
  }

  lemma ShapeWithin(order: seq<nat>, perms: Perms, hier: Nodes)
    requires Shape(order, perms, hier)
    ensures Within(hier, perms.Keys)
  {
  }

  lemma UsableAccesses(vsOf: nat -> set<nat>, spaces: set<nat>, perms: Perms)
    requires forall r :: r in perms ==> Usable(vsOf, spaces, Flat(perms[r]))
    ensures AccessesOk(perms)
  {
  }

  // The whole text is accepted, and gives the calls for all its blocks.
  lemma {:induction false} SavedRead(hier: Nodes, ua: Nodes, perms: Perms, done: seq<nat>)
    requires (forall r :: r in done ==> r in perms) && AccessesOk(perms)
    ensures Acts(N(R1, Eps), Blocks(hier, ua, perms, done), 0) == Some(AllActs(hier, ua, perms, done))
  {
    hide Acts, AllActs, Blocks, Flat;
    assert Blocks(hier, ua, perms, done) + [] == Blocks(hier, ua, perms, done);
    BlocksRead(hier, ua, perms, done, []);
    AtEnd();
    var acts := AllActs(hier, ua, perms, done);
    assert acts + [] == acts;
  }

  lemma AtEnd()
    ensures Acts(N(R1, Eps), [], 0) == Some([])
  {
    RowShrinks(R1, KEnd, Eps);
  }

  lemma {:induction false} AllGathered(hier: Nodes, ua: Nodes, perms: Perms, done: seq<nat>, h: Nodes, a: Nodes,
      slots: map<nat, seq<Option<nat>>>)
    requires EdgesOfDone(hier, done, h) && UsersOfDone(ua, done, a) && (set r | r in done) == perms.Keys
    requires Within(hier, perms.Keys) && Assigned(perms.Keys, ua, slots)
    ensures multiset(h) == multiset(hier) && multiset(a) == multiset(ua)
  {
    forall e ensures multiset(h)[e] == multiset(hier)[e] {
      if e in multiset(hier) { assert e in hier; }
    }
    forall e ensures multiset(a)[e] == multiset(ua)[e] {
      if e in multiset(ua) { assert e in ua; }
    }
  }
}
