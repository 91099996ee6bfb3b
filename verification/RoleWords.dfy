/** What a line of the role file grants (constable/rbac/load.c:78-98,
    constable/language/lex.c:100-109), keyword by keyword. */
module RoleWords {
  import opened Lists
  import opened RoleStore
  import opened RoleText
  import opened RoleAdmin
  import opened RoleLoading
  import opened RoleRoundTrip

  // The access type that a word of a role file names.
  function Named(k: string): Option<nat> {
    if k == "MEMBER" then Some(AT_MEMBER)
    else if k == "READ" || k == "RECEIVE" then Some(AT_RECEIVE)
    else if k == "WRITE" || k == "SEND" then Some(AT_SEND)
    else if k == "SEE" then Some(AT_SEE)
    else if k == "CREATE" then Some(AT_CREATE)
    else if k == "ERASE" then Some(AT_ERASE)
    else if k == "ENTER" then Some(AT_ENTER)
    else if k == "CONTROL" then Some(AT_CONTROL)
    else None
  }

  lemma {:induction false} AccessAt(keys: seq<(string, nat)>, i: nat)
    requires OneMeaning(keys) && i < |keys|
    ensures AccessOf(keys, keys[i].0) == Some(keys[i].1)
  {
    if keys[0].0 != keys[i].0 {
      var rest := keys[1..];
      assert rest[i - 1] == keys[i];
      assert OneMeaning(rest) by {
        forall x, y | 0 <= x < |rest| && 0 <= y < |rest| && rest[x].0 == rest[y].0 ensures rest[x].1 == rest[y].1 {
          assert rest[x] == keys[x + 1] && rest[y] == keys[y + 1];
        }
      }
      AccessAt(rest, i - 1);
    }
  }

  lemma {:induction false} NoAccess(keys: seq<(string, nat)>, k: string)
    requires forall i :: 0 <= i < |keys| ==> keys[i].0 != k
    ensures AccessOf(keys, k) == None
  {
    if keys != [] { NoAccess(keys[1..], k); }
  }

  lemma {:induction false} KeywordMeans(k: string)
    ensures AccessOf(KEYWORDS, k) == Named(k)
  {
    hide AccessOf;
    OneMeaningHere();
    if Named(k).None? {
      NoAccess(KEYWORDS, k);
    } else {
      var i := if k == "MEMBER" then 0 else if k == "READ" then 1 else if k == "RECEIVE" then 2
        else if k == "WRITE" then 3
        else if k == "SEND" then 4 else if k == "SEE" then 5 else if k == "CREATE" then 6 else if k == "ERASE" then 7
        else if k == "ENTER" then 8 else 9;
      assert KEYWORDS[i].0 == k;
      AccessAt(KEYWORDS, i);
    }
  }

  // The line "k s, ...;" in a block: a word and the names of one or more spaces.
  function Line(k: string, s: nat, more: seq<nat>): seq<Item> {
    [Keyword(k), Name(s)] + ([Mark(if more == [] then ';' else ',')] + NameList(more))
  }

  function PermissionActs(s: seq<nat>): seq<Act> {
    if s == [] then [] else [Act(OAddPerm, s[0])] + PermissionActs(s[1..])
  }

  // A separator, and the names after it.
  lemma {:induction false} MoreSpacesRead(n: nat, s: seq<nat>, rest: seq<Item>, more: Syms)
    ensures Acts(N(R21, T(KMark(';'), N(R2, more))), [Mark(if s == [] then ';' else ',')] + (NameList(s) + rest), n)
      == Then(PermissionActs(s), Acts(N(R2, more), rest, 0))
    decreases |s|
  {
    hide Acts;
    var cont := T(KMark(';'), N(R2, more));
    var sep := Mark(if s == [] then ';' else ',');
    Expand(R21, cont, sep, NameList(s) + rest, n);
    if s == [] {
      assert NameList(s) + rest == rest;
      Take(KMark(';'), N(R2, more), sep, rest, n);
      ThenThen([], [], Acts(N(R2, more), rest, 0));
    } else {
      var tail := s[1..];
      var after := [Mark(if tail == [] then ';' else ',')] + (NameList(tail) + rest);
      assert NameList(s) + rest == [Name(s[0])] + after;
      Take(KMark(','), T(KId, O(OAddPerm, N(R21, cont))), sep, [Name(s[0])] + after, n);
      Take(KId, O(OAddPerm, N(R21, cont)), Name(s[0]), after, 0);
      Emit(OAddPerm, N(R21, cont), after, s[0]);
      MoreSpacesRead(s[0], tail, rest, more);
      ThenThen([Act(OAddPerm, s[0])], PermissionActs(tail), Acts(N(R2, more), rest, 0));
    }
  }

  // A line is read as grants of the access type k names, and as nothing else; where
  // k names none, the text is rejected.
  lemma {:induction false} LineRead(k: string, s: nat, others: seq<nat>, after: seq<Item>, more: Syms)
    ensures Acts(N(R2, more), Line(k, s, others) + after, 0) ==
      if Named(k).None? then None
      else Then([Act(OAccessType, Named(k).value)] + PermissionActs([s] + others), Acts(N(R2, more), after, 0))
  {
    hide Acts, AccessOf, Named;
    KeywordMeans(k);
    var key := Keyword(k);
    var t1 := [Mark(if others == [] then ';' else ',')] + (NameList(others) + after);
    var t0 := [Name(s)] + t1;
    assert Line(k, s, others) + after == [key] + t0;
    Expand(R2, more, key, t0, 0);
    var cont := T(KMark(';'), N(R2, more));
    if Named(k).Some? {
      var adding := T(KId, O(OAddPerm, N(R21, cont)));
      var rest := Acts(N(R2, more), after, 0);
      Take(KAccess, O(OAccessType, adding), key, t0, 0);
      Emit(OAccessType, adding, t0, Named(k).value);
      Take(KId, O(OAddPerm, N(R21, cont)), Name(s), t1, Named(k).value);
      Emit(OAddPerm, N(R21, cont), t1, s);
      MoreSpacesRead(s, others, after, more);
      assert ([s] + others)[1..] == others;
      ThenThen([Act(OAddPerm, s)], PermissionActs(others), rest);
      ThenThen([Act(OAccessType, Named(k).value)], PermissionActs([s] + others), rest);
    } else {
      Take(KId, O(OAddSubrole, N(R23, cont)), key, t0, 0);
      Emit(OAddSubrole, N(R23, cont), t0, 0);
      Expand(R23, cont, Name(s), t1, 0);
    }
  }

  // The store after it: the role of the block has these permissions more, and an
  // error is reported for every space without a bit.
  ghost function Granted(vsOf: nat -> set<nat>, rd: Reading, r: nat, a: nat, s: seq<nat>): Reading
    requires r in rd.c.perms
    decreases |s|
  {
    if s == [] then rd
    else
      var one := rd.(c := rd.c.(perms := rd.c.perms[r := rd.c.perms[r] + multiset{Perm(a, s[0])}]),
                     errors := rd.errors + ErrorIf(vsOf(s[0]) == {}));
      Granted(vsOf, one, r, a, s[1..])
  }

  lemma {:induction false} SpacesGrant(vsOf: nat -> set<nat>, spaces: set<nat>, rd: Reading, r: nat, s: seq<nat>,
      rest: Option<seq<Act>>)
    requires rd.role == Some(r) && r in rd.c.perms && rd.access < NR_ACCESS_TYPES && forall x :: x in s ==> x in spaces
    ensures Outcome(vsOf, spaces, rd, Then(PermissionActs(s), rest)) ==
      Outcome(vsOf, spaces, Granted(vsOf, rd, r, rd.access, s), rest)
    decreases |s|
  {
    if s == [] {
      ThenThen([], [], rest);
    } else {
      hide Outcome, Then;
      var one := rd.(c := rd.c.(perms := rd.c.perms[r := rd.c.perms[r] + multiset{Perm(rd.access, s[0])}]),
                     errors := rd.errors + ErrorIf(vsOf(s[0]) == {}));
      ThenThen([Act(OAddPerm, s[0])], PermissionActs(s[1..]), rest);
      FirstCall(vsOf, spaces, rd, Act(OAddPerm, s[0]), one, Then(PermissionActs(s[1..]), rest));
      SpacesGrant(vsOf, spaces, one, r, s[1..], rest);
    }
  }

  lemma {:induction false} LineGrants(vsOf: nat -> set<nat>, spaces: set<nat>, rd: Reading, r: nat, k: string, s: nat,
      others: seq<nat>, after: seq<Item>, more: Syms)
    requires rd.role == Some(r) && r in rd.c.perms && s in spaces && forall x :: x in others ==> x in spaces
    ensures Outcome(vsOf, spaces, rd, Acts(N(R2, more), Line(k, s, others) + after, 0)) ==
      if Named(k).None? then None
      else Outcome(vsOf, spaces, Granted(vsOf, rd.(access := Named(k).value), r, Named(k).value, [s] + others),
        Acts(N(R2, more), after, 0))
  {
    hide Acts, Granted;
    LineRead(k, s, others, after, more);
    var rest := Acts(N(R2, more), after, 0);
    if Named(k).Some? {
      var a := Act(OAccessType, Named(k).value);
      KnownAccess(k);
      var acts := PermissionActs([s] + others);
      ThenThen([a], acts, rest);
      FirstCall(vsOf, spaces, rd, a, rd.(access := a.d), Then(acts, rest));
      SpacesGrant(vsOf, spaces, rd.(access := a.d), r, [s] + others, rest);
    }
  }

  lemma KnownAccess(k: string)
    ensures Named(k).Some? ==> Named(k).value < NR_ACCESS_TYPES
  {
  }

  // A role with one line, in a file of its own.
  function OneRole(r: nat, k: string, s: nat): seq<Item> {
    [Name(r), Mark('{')] + (Line(k, s, []) + [Mark('}')])
  }

  // The numbers of the access types are those of the kernel.
  predicate Gives(k: string, n: nat) {
    match n
    case 0 => k == "MEMBER"
    case 1 => k == "READ" || k == "RECEIVE"
    case 2 => k == "WRITE" || k == "SEND"
    case 3 => k == "SEE"
    case 4 => k == "CREATE"
    case 5 => k == "ERASE"
    case 6 => k == "ENTER"
    case 7 => k == "CONTROL"
    case _ => false
  }

  // Reading it into a store without roles: it is accepted exactly if k is one of the
  // ten words, and the role then has the one permission k gives.
  lemma {:induction false} OneRoleGrants(vsOf: nat -> set<nat>, spaces: set<nat>, rd: Reading, r: nat, k: string,
      s: nat)
    requires s in spaces && r !in rd.c.perms
    ensures var o := Outcome(vsOf, spaces, rd, Acts(N(R1, Eps), OneRole(r, k, s), 0));
      && (o.None? <==> forall n: nat :: !Gives(k, n))
      && (o.Some? ==> forall n: nat :: Gives(k, n) ==> o.value.c.perms == rd.c.perms[r := multiset{Perm(n, s)}])
  {
    hide Acts, Calls;
    var text := Line(k, s, []) + [Mark('}')];
    Begins(r, text);
    var inside := rd.(c := rd.c.(perms := rd.c.perms[r := multiset{}]), role := Some(r));
    var stack := T(KMark('}'), N(R1, Eps));
    LineGrants(vsOf, spaces, inside, r, k, s, [], [Mark('}')], stack);
    Closes();
    assert Gives(k, if Named(k).Some? then Named(k).value else 8) <==> Named(k).Some?;
    var o := Outcome(vsOf, spaces, rd, Acts(N(R1, Eps), OneRole(r, k, s), 0));
    assert o == Outcome(vsOf, spaces, inside, Acts(N(R2, stack), text, 0)) by {
      FirstCall(vsOf, spaces, rd, Act(ORoleDef, r), inside, Acts(N(R2, stack), text, 0));
    }
    if Named(k).Some? {
      var a := Named(k).value;
      assert [s] + [] == [s] && [s][1..] == [];
      NoCalls(vsOf, spaces, Granted(vsOf, inside.(access := a), r, a, [s]));
      assert multiset{} + multiset{Perm(Named(k).value, s)} == multiset{Perm(Named(k).value, s)};
    }
  }

  lemma {:induction false} Begins(r: nat, text: seq<Item>)
    ensures Acts(N(R1, Eps), [Name(r), Mark('{')] + text, 0) ==
      Then([Act(ORoleDef, r)], Acts(N(R2, T(KMark('}'), N(R1, Eps))), text, 0))
  {
    hide Acts;
    var t := [Mark('{')] + text;
    assert [Name(r), Mark('{')] + text == [Name(r)] + t;
    var block := N(R2, T(KMark('}'), N(R1, Eps)));
    Expand(R1, Eps, Name(r), t, 0);
    Take(KId, O(ORoleDef, T(KMark('{'), block)), Name(r), t, 0);
    Emit(ORoleDef, T(KMark('{'), block), t, r);
    Take(KMark('{'), block, Mark('{'), text, r);
  }

  lemma {:induction false} Closes()
    ensures Acts(N(R2, T(KMark('}'), N(R1, Eps))), [Mark('}')], 0) == Some([])
  {
    var t: seq<Item> := [];
    assert [Mark('}')] == [Mark('}')] + t;
    Expand(R2, T(KMark('}'), N(R1, Eps)), Mark('}'), t, 0);
    Take(KMark('}'), N(R1, Eps), Mark('}'), t, 0);
    RowShrinks(R1, KEnd, Eps);
  }

  lemma FirstCall(vsOf: nat -> set<nat>, spaces: set<nat>, rd: Reading, a: Act, next: Reading, more: Option<seq<Act>>)
    requires Call(vsOf, spaces, rd, a) == Some(next)
    ensures Outcome(vsOf, spaces, rd, Then([a], more)) == Outcome(vsOf, spaces, next, more)
  {
    if more.Some? { assert ([a] + more.value)[1..] == more.value; }
  }

  lemma NoCalls(vsOf: nat -> set<nat>, spaces: set<nat>, rd: Reading)
    ensures Outcome(vsOf, spaces, rd, Some([])) == Some(rd)
  {
  }
}
