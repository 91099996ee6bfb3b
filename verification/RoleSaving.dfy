/** Writing the role file: a walk over the hierarchy that marks the roles it has
    written (constable/rbac/save.c:26-72). */
module RoleSaving {
  import opened Lists
  import opened Graphs
  import opened RoleStore
  import opened RoleText

  // The blocks of some roles, one after another.
  function Blocks(hier: Nodes, ua: Nodes, perms: Perms, done: seq<nat>): seq<Item>
    requires forall r :: r in done ==> r in perms
  {
    if done == [] then []
    else
      var n := |done| - 1;
      Blocks(hier, ua, perms, done[..n]) + BlockOf(hier, ua, perms, done[n])
  }

  function BlockOf(hier: Nodes, ua: Nodes, perms: Perms, r: nat): seq<Item>
    requires r in perms
  {
    Block(r, SubList(hier, r), SupList(ua, r), Flat(perms[r]))
  }

  // Every role stands once, and after all its subroles.
  ghost predicate PostOrder(hier: Nodes, done: seq<nat>) {
    && (forall i, j :: 0 <= i < j < |done| ==> done[i] != done[j])
    && (forall i, b :: 0 <= i < |done| && (done[i], b) in hier ==> b in done[..i])
  }

  // at2str: the first keyword for an access type.
  method At2Str(a: nat) returns (s: string)
    ensures s == WordOf(KEYWORDS, a)
    ensures a < NR_ACCESS_TYPES ==> AccessOf(KEYWORDS, s) == Some(a)
  {
    hide AccessOf;
    AccessReadBack(a);
    var l := 0;
    assert KEYWORDS[0..] == KEYWORDS;
    while l < |KEYWORDS| && KEYWORDS[l].1 != a
      invariant 0 <= l <= |KEYWORDS| && WordOf(KEYWORDS[l..], a) == WordOf(KEYWORDS, a)
    {
      assert KEYWORDS[l..][1..] == KEYWORDS[l + 1..];
      l := l + 1;
    }
    s := if l < |KEYWORDS| then KEYWORDS[l].0 else "???";
  }

  method WriteNames(s: seq<nat>) returns (text: seq<Item>)
    ensures text == NameList(s)
  {
    text := [];
    var i := 0;
    assert s[0..] == s;
    while i < |s|
      invariant 0 <= i <= |s| && text + NameList(s[i..]) == NameList(s)
    {
      assert s[i..][1..] == s[i + 1..];
      text := text + [Name(s[i]), Mark(if i + 1 < |s| then ',' else ';')];
      i := i + 1;
    }
  }

  method WriteUsers(s: seq<nat>) returns (text: seq<Item>)
    ensures text == QuotedList(s)
  {
    text := [];
    var i := 0;
    assert s[0..] == s;
    while i < |s|
      invariant 0 <= i <= |s| && text + QuotedList(s[i..]) == QuotedList(s)
    {
      assert s[i..][1..] == s[i + 1..];
      text := text + [Quoted(s[i]), Mark(if i + 1 < |s| then ',' else ';')];
      i := i + 1;
    }
  }

  lemma {:induction false} LinesMore(s: seq<Perm>, t: seq<Perm>)
    ensures PermLines(s + t) == PermLines(s) + PermLines(t)
  {
    if s == [] {
      assert s + t == t;
    } else {
      assert (s + t)[1..] == s[1..] + t;
      LinesMore(s[1..], t);
    }
  }

  method WritePerms(chunks: seq<seq<Perm>>) returns (text: seq<Item>)
    ensures text == PermLines(Flat(chunks))
  {
    hide WordOf, PermLines, Flat;
    text := [];
    var k := 0;
    assert chunks[..0] == [];
    FlatOne([]);
    assert PermLines([]) == [] by { LineNone(); }
    while k < |chunks|
      invariant 0 <= k <= |chunks| && text == PermLines(Flat(chunks[..k]))
    {
      var c := chunks[k];
      var i := 0;
      ghost var before := Flat(chunks[..k]);
      assert before + c[..0] == before;
      while i < |c|
        invariant 0 <= i <= |c| && text == PermLines(before + c[..i])
      {
        var word := At2Str(c[i].access);
        assert before + c[..i + 1] == (before + c[..i]) + [c[i]];
        LinesMore(before + c[..i], [c[i]]);
        LineOne(c[i]);
        text := text + [Keyword(word), Name(c[i].space), Mark(';')];
        i := i + 1;
      }
      assert c[..|c|] == c && chunks[..k + 1] == chunks[..k] + [c];
      FlatAppend(chunks[..k], [c]);
      FlatOne(c);
      k := k + 1;
    }
    assert chunks[..|chunks|] == chunks;
  }

  lemma LineNone()
    ensures PermLines([]) == []
  {
  }

  lemma LineOne(p: Perm)
    ensures PermLines([p]) == [Keyword(WordOf(KEYWORDS, p.access)), Name(p.space), Mark(';')]
  {
    assert PermLines([p]) == [Keyword(WordOf(KEYWORDS, p.access)), Name(p.space), Mark(';')] + PermLines([]);
  }

  // The store does not change while it is written.
  class Saver {
    const order: seq<nat>
    const perms: Perms
    const hier: Nodes
    const ua: Nodes
    var flag: set<nat>
    var out: seq<Item>
    ghost var done: seq<nat>       // the roles written, in order

    constructor (order: seq<nat>, perms: Perms, hier: Nodes, ua: Nodes)
      ensures this.order == order && this.perms == perms && this.hier == hier && this.ua == ua
      ensures out == [] && done == []
    {
      this.order, this.perms, this.hier, this.ua := order, perms, hier, ua;
      flag, out, done := {}, [], [];
    }

    ghost predicate Written()
      reads this
    {
      && flag == (set r | r in done) && flag <= perms.Keys && PostOrder(hier, done)
      && out == Blocks(hier, ua, perms, done)
    }

    // rbac_save_role: what is new is r and roles below it.
    method SaveRole(r: nat)
      requires Shape(order, perms, hier) && r in perms && Written()
      modifies this`flag, this`out, this`done
      ensures Written() && r in done && old(done) <= done
      ensures forall x :: x in done[|old(done)|..] ==> Reach(EdgesOf(hier), r, x)
      decreases Under(EdgesOf(hier), perms.Keys, r)
    {
      hide Shape, Acyclic, Sorted, Reach, Below, SubList, SupList, Blocks, PostOrder, EdgesOf, Flat, NameList,
        QuotedList, PermLines;
      if r in flag {
        return;
      }
      ghost var g := EdgesOf(hier);
      var subs := SubList(hier, r);
      SubsOf(order, perms, hier, r);
      var i := 0;
      while i < |subs|
        invariant 0 <= i <= |subs| && Written() && old(done) <= done
        invariant forall x :: x in done[|old(done)|..] ==> Below(g, r, x)
        invariant forall j :: 0 <= j < i ==> subs[j] in done
      {
        UnderShrinks(g, perms.Keys, r, subs[i]);
        ghost var was := done;
        SaveRole(subs[i]);
        NewBelow(g, r, subs[i], old(done), was, done);
        i := i + 1;
      }
      NotYet(g, r, old(done), done);
      Appended(hier, ua, perms, done, r, old(done));
      AppendedReach(g, r, old(done), done);
      var names := WriteNames(subs);
      var users := WriteUsers(SupList(ua, r));
      var lines := WritePerms(perms[r]);
      out := out + ([Name(r), Mark('{')] + names + users + lines + [Mark('}')]);
      flag := flag + {r};
      done := done + [r];
    }

    // rbac_save_roles: every role once, after all its subroles.
    method SaveRoles()
      requires Shape(order, perms, hier)
      modifies this`flag, this`out, this`done
      ensures (set r | r in done) == perms.Keys && PostOrder(hier, done)
      ensures out == Blocks(hier, ua, perms, done)
    {
      hide Acyclic, Sorted, Blocks, PostOrder;
      flag, out, done := {}, [], [];
      NoneWritten(hier, ua, perms);
      var i := 0;
      while i < |order|
        invariant 0 <= i <= |order| && Written()
        invariant forall j :: 0 <= j < i ==> order[j] in done
      {
        assert order[i] in perms;
        ghost var was := done;
        SaveRole(order[i]);
        assert forall r :: r in was ==> r in done by { assert done[..|was|] == was; }
        i := i + 1;
      }
    }
  }

  lemma NoneWritten(hier: Nodes, ua: Nodes, perms: Perms)
    ensures PostOrder(hier, []) && Blocks(hier, ua, perms, []) == []
  {
  }

  lemma SubsOf(order: seq<nat>, perms: Perms, hier: Nodes, r: nat)
    requires Shape(order, perms, hier)
    ensures Acyclic(EdgesOf(hier))
    ensures forall i :: 0 <= i < |SubList(hier, r)| ==>
        (r, SubList(hier, r)[i]) in EdgesOf(hier) && SubList(hier, r)[i] in perms
  {
    var s := SubList(hier, r);
    forall i | 0 <= i < |s| ensures (r, s[i]) in EdgesOf(hier) && s[i] in perms { SubIs(hier, r, s[i]); }
  }

  lemma {:induction false} NewBelow(g: Edges, r: nat, s: nat, d0: seq<nat>, d1: seq<nat>, d2: seq<nat>)
    requires (r, s) in g && d0 <= d1 <= d2
    requires forall x :: x in d1[|d0|..] ==> Below(g, r, x)
    requires forall x :: x in d2[|d1|..] ==> Reach(g, s, x)
    ensures forall x :: x in d2[|d0|..] ==> Below(g, r, x)
    ensures forall x :: x in d1 ==> x in d2
  {
    assert d2[|d0|..] == d1[|d0|..] + d2[|d1|..];
    assert d2[..|d1|] == d1;
  }

  // In an acyclic hierarchy a role is not written while its subroles are.
  lemma {:induction false} NotYet(g: Edges, r: nat, d0: seq<nat>, d: seq<nat>)
    requires Acyclic(g) && r !in d0 && d0 <= d
    requires forall x :: x in d[|d0|..] ==> Below(g, r, x)
    ensures r !in d
  {
    assert d == d0 + d[|d0|..];
  }

  lemma {:induction false} AppendedReach(g: Edges, r: nat, d0: seq<nat>, d: seq<nat>)
    requires d0 <= d && forall x :: x in d[|d0|..] ==> Below(g, r, x)
    ensures d0 <= d + [r] && forall x :: x in (d + [r])[|d0|..] ==> Reach(g, r, x)
  {
    assert (d + [r])[|d0|..] == d[|d0|..] + [r];
    ReachSelf(g, r);
    forall x | x in d[|d0|..] ensures Reach(g, r, x) { BelowReach(g, r, x); }
  }

  lemma {:induction false} Appended(hier: Nodes, ua: Nodes, perms: Perms, done: seq<nat>, r: nat, d0: seq<nat>)
    requires r in perms && r !in done && PostOrder(hier, done) && d0 <= done
    requires forall x :: x in done ==> x in perms
    requires forall i :: 0 <= i < |SubList(hier, r)| ==> SubList(hier, r)[i] in done
    ensures PostOrder(hier, done + [r]) && d0 <= done + [r]
    ensures Blocks(hier, ua, perms, done + [r]) == Blocks(hier, ua, perms, done) + BlockOf(hier, ua, perms, r)
    ensures (set x | x in done + [r]) == (set x | x in done) + {r}
  {
    hide Block;
    var d := done + [r];
    assert d[..|done|] == done;
    forall x ensures x in d <==> x in done || x == r { }
    forall i, b | 0 <= i < |d| && (d[i], b) in hier ensures b in d[..i] {
      if i < |done| {
        assert b in done[..i] && done[..i] == d[..i];
      } else {
        SubIs(hier, r, b);
      }
    }
  }
}
