/** The role file: what is written for a role (constable/rbac/save.c:38-60), and
    the table that reads it (constable/rbac/load.c:124-139). */
module RoleText {
  import opened Lists
  import opened RoleStore

  datatype Item = Name(n: nat) | Quoted(n: nat) | Keyword(k: string) | Mark(c: char)

  /* Access types and their keywords (constable/language/lex.c:100-109) */

  const KEYWORDS: seq<(string, nat)> := [
    ("MEMBER", AT_MEMBER), ("READ", AT_RECEIVE), ("RECEIVE", AT_RECEIVE), ("WRITE", AT_SEND), ("SEND", AT_SEND),
    ("SEE", AT_SEE), ("CREATE", AT_CREATE), ("ERASE", AT_ERASE), ("ENTER", AT_ENTER), ("CONTROL", AT_CONTROL)
  ]

  // The keyword written for an access type: the first one.
  function WordOf(keys: seq<(string, nat)>, a: nat): string {
    if keys == [] then "???" else if keys[0].1 == a then keys[0].0 else WordOf(keys[1..], a)
  }

  // The access type a keyword is read as.
  function AccessOf(keys: seq<(string, nat)>, k: string): Option<nat> {
    if keys == [] then None else if keys[0].0 == k then Some(keys[0].1) else AccessOf(keys[1..], k)
  }

  predicate OneMeaning(keys: seq<(string, nat)>) {
    forall i, j :: 0 <= i < |keys| && 0 <= j < |keys| && keys[i].0 == keys[j].0 ==> keys[i].1 == keys[j].1
  }

  lemma {:induction false} WordRead(keys: seq<(string, nat)>, i: nat)
    requires OneMeaning(keys) && i < |keys|
    ensures AccessOf(keys, WordOf(keys, keys[i].1)) == Some(keys[i].1)
  {
    var a := keys[i].1;
    if keys[0].1 != a {
      assert OneMeaning(keys[1..]) by {
        forall x, y | 0 <= x < |keys| - 1 && 0 <= y < |keys| - 1 &&
          keys[1..][x].0 == keys[1..][y].0 ensures keys[1..][x].1 == keys[1..][y].1 {
          assert keys[x + 1].0 == keys[y + 1].0;
        }
      }
      assert keys[1..][i - 1] == keys[i];
      WordRead(keys[1..], i - 1);
      WordIn(keys[1..], a, i - 1);
      var j :| 0 <= j < |keys| - 1 && keys[1..][j] == (WordOf(keys[1..], a), a);
      assert keys[0].0 != keys[j + 1].0;
    }
  }

  lemma {:induction false} WordIn(keys: seq<(string, nat)>, a: nat, i: nat)
    requires i < |keys| && keys[i].1 == a
    ensures exists j :: 0 <= j < |keys| && keys[j] == (WordOf(keys, a), a)
  {
    if keys[0].1 == a {
      assert keys[0] == (WordOf(keys, a), a);
    } else {
      WordIn(keys[1..], a, i - 1);
      var j :| 0 <= j < |keys| - 1 && keys[1..][j] == (WordOf(keys[1..], a), a);
      assert keys[j + 1] == (WordOf(keys, a), a);
    }
  }

  // Every access type is read back from the keyword written for it.
  lemma {:induction false} AccessReadBack(a: nat)
    ensures AccessOf(KEYWORDS, WordOf(KEYWORDS, a)) == if a < NR_ACCESS_TYPES then Some(a) else None
  {
    hide WordOf, AccessOf;
    if a < NR_ACCESS_TYPES {
      OneMeaningHere();
      var i := if a == 0 then 0 else if a == 1 then 1 else if a == 2 then 3 else a + 2;
      assert KEYWORDS[i].1 == a;
      WordRead(KEYWORDS, i);
    } else {
      NoWord(KEYWORDS, a);
      NotRead(KEYWORDS);
    }
  }

  lemma OneMeaningHere()
    ensures OneMeaning(KEYWORDS)
  {
    var k := KEYWORDS;
    assert |k[0].0| == 6 && |k[1].0| == 4 && |k[2].0| == 7 && |k[3].0| == 5 && |k[4].0| == 4;
    assert |k[5].0| == 3 && |k[6].0| == 6 && |k[7].0| == 5 && |k[8].0| == 5 && |k[9].0| == 7;
    assert k[0].0[0] == 'M' && k[1].0[0] == 'R' && k[2].0[0] == 'R' && k[3].0[0] == 'W' && k[4].0[0] == 'S';
    assert k[6].0[0] == 'C' && k[7].0[1] == 'R' && k[8].0[1] == 'N' && k[9].0[0] == 'C';
  }

  lemma {:induction false} NoWord(keys: seq<(string, nat)>, a: nat)
    requires forall i :: 0 <= i < |keys| ==> keys[i].1 != a
    ensures WordOf(keys, a) == "???"
  {
    if keys != [] { NoWord(keys[1..], a); }
  }

  lemma {:induction false} NotRead(keys: seq<(string, nat)>)
    requires forall i :: 0 <= i < |keys| ==> |keys[i].0| > 0 && keys[i].0[0] != '?'
    ensures AccessOf(keys, "???") == None
  {
    if keys != [] {
      assert keys[0].0[0] != "???"[0];
      NotRead(keys[1..]);
    }
  }

  /* What is written */

  function NameList(s: seq<nat>): seq<Item> {
    if s == [] then [] else [Name(s[0]), Mark(if |s| == 1 then ';' else ',')] + NameList(s[1..])
  }

  function QuotedList(s: seq<nat>): seq<Item> {
    if s == [] then [] else [Quoted(s[0]), Mark(if |s| == 1 then ';' else ',')] + QuotedList(s[1..])
  }

  function PermLines(s: seq<Perm>): seq<Item> {
    if s == [] then [] else [Keyword(WordOf(KEYWORDS, s[0].access)), Name(s[0].space), Mark(';')] + PermLines(s[1..])
  }

  // One role: its subroles, users and permissions.
  function Block(r: nat, subs: seq<nat>, users: seq<nat>, perms: seq<Perm>): seq<Item> {
    [Name(r), Mark('{')] + NameList(subs) + QuotedList(users) + PermLines(perms) + [Mark('}')]
  }

  /* What is read. A keyword that names no access type is an identifier. */

  datatype Kind = KId | KStr | KAccess | KMark(c: char) | KEnd

  function KindOf(i: Item): Kind {
    match i
    case Name(_) => KId
    case Quoted(_) => KStr
    case Keyword(k) => if AccessOf(KEYWORDS, k).Some? then KAccess else KId
    case Mark(c) => KMark(c)
  }

  // The value of the token: a name, or an access type.
  function DataOf(i: Item): nat {
    match i
    case Name(n) => n
    case Quoted(n) => n
    case Keyword(k) => (match AccessOf(KEYWORDS, k) case Some(a) => a case None => 0)
    case Mark(_) => 0
  }

  datatype Output = ORoleDef | OAccessType | OAddPerm | OAddUser | OAddSubrole

  datatype NT = R1 | R2 | R21 | R22 | R23

  datatype Syms =
    | Eps
    | T(kind: Kind, rest: Syms)
    | O(out: Output, rest: Syms)
    | N(nt: NT, rest: Syms)

  // The row of rbac_tab for a nonterminal and a lookahead, on top of more symbols.
  function Row(nt: NT, look: Kind, more: Syms): Option<Syms> {
    match nt
    case R1 =>
      if look == KId then Some(T(KId, O(ORoleDef, T(KMark('{'), N(R2, T(KMark('}'), N(R1, more)))))))
      else if look == KEnd then Some(more)
      else None
    case R2 =>
      if look == KMark('}') then Some(more)
      else if look == KAccess then Some(T(KAccess, O(OAccessType,
        T(KId, O(OAddPerm, N(R21, T(KMark(';'), N(R2, more))))))))
      else if look == KStr then Some(T(KStr, O(OAddUser, N(R22, T(KMark(';'), N(R2, more))))))
      else if look == KId then Some(T(KId, O(OAddSubrole, N(R23, T(KMark(';'), N(R2, more))))))
      else None
    case R21 =>
      if look == KMark(',') then Some(T(KMark(','), T(KId, O(OAddPerm, N(R21, more)))))
      else if look == KMark(';') then Some(more)
      else None
    case R22 =>
      if look == KMark(',') then Some(T(KMark(','), T(KStr, O(OAddUser, N(R22, more)))))
      else if look == KMark(';') then Some(more)
      else None
    case R23 =>
      if look == KMark(',') then Some(T(KMark(','), T(KId, O(OAddSubrole, N(R23, more)))))
      else if look == KMark(';') then Some(more)
      else None
  }

  // What rbac_out is called with.
  datatype Act = Act(out: Output, d: nat)

  function Look(text: seq<Item>): Kind { if text == [] then KEnd else KindOf(text[0]) }

  function Cost(stack: Syms): nat {
    match stack
    case Eps => 0
    case T(_, _) => 1
    case O(_, rest) => 1 + Cost(rest)
    case N(_, rest) => 2 + Cost(rest)
  }

  lemma RowShrinks(nt: NT, look: Kind, more: Syms)
    ensures Row(nt, look, more).Some? ==> Cost(Row(nt, look, more).value) < Cost(N(nt, more))
  {
  }

  // The calls that a stack and a text lead to, if the text is accepted.
  function Acts(stack: Syms, text: seq<Item>, last: nat): Option<seq<Act>>
    decreases |text|, Cost(stack)
  {
    match stack
    case Eps => Some([])
    case T(k, rest) =>
      if text == [] || KindOf(text[0]) != k then None else Acts(rest, text[1..], DataOf(text[0]))
    case O(o, rest) =>
      (match Acts(rest, text, last) case None => None case Some(a) => Some([Act(o, last)] + a))
    case N(nt, rest) =>
      RowShrinks(nt, Look(text), rest);
      (match Row(nt, Look(text), rest) case None => None case Some(body) => Acts(body, text, last))
  }
}
