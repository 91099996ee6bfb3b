/** Sets of spaces as two 32-bit words (constable/vs.c). */
module Vs {

  const MAX_NUM_OF_VS: nat := 64
  const BITS_PER_VS_WORD: nat := 32
  const VS_WORDS: nat := 2

  // A word is its bits, the lowest first.
  type Word = w: seq<bool> | |w| == BITS_PER_VS_WORD witness seq(BITS_PER_VS_WORD, _ => false)

  function Zero(): Word { seq(BITS_PER_VS_WORD, _ => false) }

  // 1 << k
  function OneBit(k: nat): Word { seq(BITS_PER_VS_WORD, i => i == k) }

  function Or(a: Word, b: Word): Word { seq(BITS_PER_VS_WORD, i requires 0 <= i < BITS_PER_VS_WORD => a[i] || b[i]) }

  function And(a: Word, b: Word): Word { seq(BITS_PER_VS_WORD, i requires 0 <= i < BITS_PER_VS_WORD => a[i] && b[i]) }

  function Not(a: Word): Word { seq(BITS_PER_VS_WORD, i requires 0 <= i < BITS_PER_VS_WORD => !a[i]) }

  /* The set of spaces in an array of words */

  predicate InWords(w: seq<Word>, i: nat)
    requires |w| == VS_WORDS
  {
    i < MAX_NUM_OF_VS && w[i / 32][i % 32]
  }

  ghost function Members(w: seq<Word>): set<nat>
    requires |w| == VS_WORDS
  {
    set i | 0 <= i < MAX_NUM_OF_VS && InWords(w, i)
  }

  lemma {:induction false} ZeroWord(w: seq<Word>, j: nat)
    requires |w| == VS_WORDS && j < VS_WORDS
    ensures w[j] == Zero() <==> forall i :: 32 * j <= i < 32 * j + 32 ==> !InWords(w, i)
  {
    if forall i :: 32 * j <= i < 32 * j + 32 ==> !InWords(w, i) {
      forall k | 0 <= k < 32 ensures !w[j][k] {
        var i := 32 * j + k;
        assert i / 32 == j && i % 32 == k && !InWords(w, i);
      }
    }
  }

  // Only two words of zeros hold no space.
  lemma {:induction false} NoneIn(w: seq<Word>)
    requires |w| == VS_WORDS
    ensures Members(w) == {} <==> w[0] == Zero() && w[1] == Zero()
  {
    ZeroWord(w, 0);
    ZeroWord(w, 1);
    if Members(w) == {} {
      forall i | 0 <= i < MAX_NUM_OF_VS ensures !InWords(w, i) { assert i !in Members(w); }
    }
  }

  lemma {:induction false} MeetIs(a: seq<Word>, b: seq<Word>)
    requires |a| == |b| == VS_WORDS
    ensures Members(a) * Members(b) != {} <==> And(b[0], a[0]) != Zero() || And(b[1], a[1]) != Zero()
  {
    var c := [And(b[0], a[0]), And(b[1], a[1])];
    assert Members(c) == Members(a) * Members(b);
    NoneIn(c);
  }

  lemma {:induction false} CoverIs(a: seq<Word>, b: seq<Word>)
    requires |a| == |b| == VS_WORDS
    ensures Members(a) <= Members(b) <==> And(b[0], a[0]) == a[0] && And(b[1], a[1]) == a[1]
  {
    if Members(a) <= Members(b) {
      forall i | 0 <= i < MAX_NUM_OF_VS && InWords(a, i) ensures InWords(b, i) { assert i in Members(a); }
      forall j, k | 0 <= j < VS_WORDS && 0 <= k < 32 && a[j][k] ensures b[j][k] {
        var i := 32 * j + k;
        assert i / 32 == j && i % 32 == k && InWords(a, i);
      }
    } else {
      var i :| i in Members(a) && i !in Members(b);
      assert a[i / 32][i % 32] && !b[i / 32][i % 32];
      assert !And(b[i / 32], a[i / 32])[i % 32];
    }
  }

  // vs_clear
  method Clear(to: array<Word>)
    requires to.Length == VS_WORDS
    modifies to
    ensures Members(to[..]) == {} && to[..] == [Zero(), Zero()]
  {
    hide Members;
    for i := 0 to VS_WORDS
      invariant forall k :: 0 <= k < i ==> to[k] == Zero()
    {
      to[i] := Zero();
    }
    NoneIn(to[..]);
  }

  // vs_add: into the second argument.
  method Add(from: array<Word>, to: array<Word>)
    requires from.Length == to.Length == VS_WORDS
    modifies to
    ensures Members(to[..]) == old(Members(to[..])) + old(Members(from[..]))
  {
    for i := 0 to VS_WORDS
      invariant forall k :: 0 <= k < i ==> to[k] == Or(old(to[k]), old(from[k]))
      invariant forall k :: i <= k < VS_WORDS ==> to[k] == old(to[k]) && from[k] == old(from[k])
    {
      to[i] := Or(to[i], from[i]);
    }
    UnionIs(old(to[..]), old(from[..]), to[..]);
  }

  lemma {:induction false} UnionIs(a: seq<Word>, b: seq<Word>, c: seq<Word>)
    requires |a| == |b| == |c| == VS_WORDS && forall k :: 0 <= k < VS_WORDS ==> c[k] == Or(a[k], b[k])
    ensures Members(c) == Members(a) + Members(b)
  {
    forall i | 0 <= i < MAX_NUM_OF_VS ensures InWords(c, i) <==> InWords(a, i) || InWords(b, i) {
      assert c[i / 32] == Or(a[i / 32], b[i / 32]);
    }
  }

  // vs_sub
  method Sub(from: array<Word>, to: array<Word>)
    requires from.Length == to.Length == VS_WORDS
    modifies to
    ensures Members(to[..]) == old(Members(to[..])) - old(Members(from[..]))
  {
    for i := 0 to VS_WORDS
      invariant forall k :: 0 <= k < i ==> to[k] == And(old(to[k]), Not(old(from[k])))
      invariant forall k :: i <= k < VS_WORDS ==> to[k] == old(to[k]) && from[k] == old(from[k])
    {
      to[i] := And(to[i], Not(from[i]));
    }
    RestIs(old(to[..]), old(from[..]), to[..]);
  }

  lemma {:induction false} RestIs(a: seq<Word>, b: seq<Word>, c: seq<Word>)
    requires |a| == |b| == |c| == VS_WORDS && forall k :: 0 <= k < VS_WORDS ==> c[k] == And(a[k], Not(b[k]))
    ensures Members(c) == Members(a) - Members(b)
  {
    forall i | 0 <= i < MAX_NUM_OF_VS ensures InWords(c, i) <==> InWords(a, i) && !InWords(b, i) {
      assert c[i / 32] == And(a[i / 32], Not(b[i / 32]));
    }
  }

  // vs_isclear
  method IsClear(vs: array<Word>) returns (r: bool)
    requires vs.Length == VS_WORDS
    ensures r <==> Members(vs[..]) == {}
  {
    hide Members, Zero;
    NoneIn(vs[..]);
    for i := 0 to VS_WORDS
      invariant forall k :: 0 <= k < i ==> vs[k] == Zero()
    {
      if vs[i] != Zero() {
        return false;
      }
    }
    r := true;
  }

  // vs_test: a common space.
  method Test(test: array<Word>, vs: array<Word>) returns (r: bool)
    requires test.Length == vs.Length == VS_WORDS
    ensures r <==> Members(test[..]) * Members(vs[..]) != {}
  {
    hide Members, Zero, And;
    MeetIs(test[..], vs[..]);
    for i := 0 to VS_WORDS
      invariant forall k :: 0 <= k < i ==> And(vs[k], test[k]) == Zero()
    {
      if And(vs[i], test[i]) != Zero() {
        return true;
      }
    }
    r := false;
  }

  // vs_issub
  method IsSub(subset: array<Word>, vs: array<Word>) returns (r: bool)
    requires subset.Length == vs.Length == VS_WORDS
    ensures r <==> Members(subset[..]) <= Members(vs[..])
  {
    hide Members, And;
    CoverIs(subset[..], vs[..]);
    for i := 0 to VS_WORDS
      invariant forall k :: 0 <= k < i ==> And(vs[k], subset[k]) == subset[k]
    {
      if And(vs[i], subset[i]) != subset[i] {
        return false;
      }
    }
    r := true;
  }

  // vs_alloc and vs_cnt
  class Allocator {
    var cnt: nat

    constructor ()
      ensures cnt == 0
    {
      cnt := 0;
    }

    // A bit that no earlier call gave out; refused after 64.
    method Alloc(id: array<Word>) returns (ok: bool)
      requires id.Length == VS_WORDS && cnt <= MAX_NUM_OF_VS
      modifies this, id
      ensures ok == (old(cnt) < MAX_NUM_OF_VS)
      ensures ok ==> cnt == old(cnt) + 1 && Members(id[..]) == {old(cnt)}
      ensures !ok ==> cnt == old(cnt) && id[..] == old(id[..])
    {
      hide Members;
      if cnt >= MAX_NUM_OF_VS {
        return false;
      }
      Clear(id);
      assert id[..][0] == Zero() && id[..][1] == Zero();
      id[cnt / BITS_PER_VS_WORD] := Or(id[cnt / BITS_PER_VS_WORD], OneBit(cnt % BITS_PER_VS_WORD));
      OneMember(id[..], cnt);
      cnt := cnt + 1;
      ok := true;
    }
  }

  lemma {:induction false} OneMember(w: seq<Word>, n: nat)
    requires |w| == VS_WORDS && n < MAX_NUM_OF_VS
    requires forall k :: 0 <= k < VS_WORDS ==> w[k] == if k == n / 32 then Or(Zero(), OneBit(n % 32)) else Zero()
    ensures Members(w) == {n}
  {
    forall i | 0 <= i < MAX_NUM_OF_VS ensures InWords(w, i) <==> i == n {
      assert i == n <==> i / 32 == n / 32 && i % 32 == n % 32;
    }
  }
}
