/** Attributes of kernel objects as numbers, in either byte order and any length
    (constable/object_endian.c:12-186). */
module Codec {

  type Byte = b: int | 0 <= b < 256

  /* Digits of a number, the lowest first */

  function Rev(s: seq<Byte>): (r: seq<Byte>)
    ensures |r| == |s| && forall i :: 0 <= i < |s| ==> r[i] == s[|s| - 1 - i]
  {
    if s == [] then [] else Rev(s[1..]) + [s[0]]
  }

  // The digits of bytes that are stored with the highest first, or the lowest.
  function DigitsOf(highFirst: bool, s: seq<Byte>): (r: seq<Byte>)
    ensures |r| == |s| && forall i :: 0 <= i < |s| ==> r[i] == if highFirst then s[|s| - 1 - i] else s[i]
  {
    if highFirst then Rev(s) else s
  }

  function Pow(n: nat): (p: nat)
    ensures p > 0
  {
    if n == 0 then 1 else 256 * Pow(n - 1)
  }

  function Unsigned(d: seq<Byte>): nat { if d == [] then 0 else d[0] + 256 * Unsigned(d[1..]) }

  predicate Negative(d: seq<Byte>) { d != [] && d[|d| - 1] >= 128 }

  // The number that digits stand for.
  function Value(signed: bool, d: seq<Byte>): int {
    if signed && Negative(d) then Unsigned(d) - Pow(|d|) else Unsigned(d)
  }

  // Digits cut, or filled up with the sign, to a length.
  function Fit(signed: bool, d: seq<Byte>, n: nat): (r: seq<Byte>)
    ensures |r| == n
  {
    if n <= |d| then d[..n] else d + seq(n - |d|, _ => if signed && Negative(d) then 255 else 0)
  }

  // The number of n bytes that x becomes: the same modulo 256 to the n.
  function Wrap(signed: bool, n: nat, x: int): int {
    var m := x % Pow(n);
    if signed && 2 * m >= Pow(n) then m - Pow(n) else m
  }

  lemma {:induction false} UnsignedBelow(d: seq<Byte>)
    ensures Unsigned(d) < Pow(|d|)
  {
    if d != [] { UnsignedBelow(d[1..]); }
  }

  lemma {:induction false} UnsignedSplit(d: seq<Byte>, e: seq<Byte>)
    ensures Unsigned(d + e) == Unsigned(d) + Pow(|d|) * Unsigned(e)
  {
    if d == [] {
      assert d + e == e;
    } else {
      assert (d + e)[1..] == d[1..] + e;
      UnsignedSplit(d[1..], e);
      assert 256 * (Pow(|d| - 1) * Unsigned(e)) == Pow(|d|) * Unsigned(e);
    }
  }

  lemma {:induction false} PowAdd(m: nat, n: nat)
    ensures Pow(m + n) == Pow(m) * Pow(n)
  {
    if m > 0 {
      PowAdd(m - 1, n);
      assert 256 * (Pow(m - 1) * Pow(n)) == Pow(m) * Pow(n);
    }
  }

  lemma {:induction false} FillValue(k: nat, b: Byte)
    requires b == 0 || b == 255
    ensures Unsigned(seq(k, _ => b)) == if b == 0 then 0 else Pow(k) - 1
  {
    if k > 0 {
      FillValue(k - 1, b);
      assert seq(k, _ => b)[1..] == seq(k - 1, _ => b);
    }
  }

  // The sign is the upper half.
  lemma {:induction false} SignIs(d: seq<Byte>)
    requires d != []
    ensures Negative(d) <==> 2 * Unsigned(d) >= Pow(|d|)
    ensures Unsigned(d) < Pow(|d|)
  {
    var n := |d| - 1;
    var h := d[n];
    assert d == d[..n] + [h];
    UnsignedSplit(d[..n], [h]);
    UnsignedBelow(d[..n]);
    var p, u := Pow(n), Unsigned(d[..n]);
    assert Unsigned([h]) == h && Pow(|d|) == 256 * p;
    if h >= 128 {
      Scale(p, 128, h);
    } else {
      Scale(p, h, 127);
    }
    Scale(p, h, 255);
  }

  lemma Distribute(p: nat, u: int, v: int)
    ensures p * u - p * v == (u - v) * p && p * (u - v) == (u - v) * p
  {
  }

  lemma Scale(p: nat, a: int, b: int)
    requires a <= b
    ensures p * a <= p * b
  {
  }

  // Adding a multiple of the modulus changes nothing.
  lemma {:induction false} WrapIs(signed: bool, n: nat, x: int, u: nat, k: int)
    requires u < Pow(n) && x == u + k * Pow(n)
    ensures Wrap(signed, n, x) == if signed && 2 * u >= Pow(n) then u - Pow(n) else u
  {
    ModUnique(x, Pow(n), u, k);
  }

  lemma {:induction false} ModUnique(x: int, m: nat, u: nat, k: int)
    requires m > 0 && u < m && x == u + k * m
    ensures x % m == u
  {
    var q := x / m;
    assert x == q * m + x % m;
    assert (q - k) * m == u - x % m;
    if q - k >= 1 { Scale(m, 1, q - k); }
    if q - k <= -1 { Scale(m, q - k, -1); }
  }

  // A number that fits stays what it is.
  lemma {:induction false} WrapValue(signed: bool, d: seq<Byte>)
    requires d != []
    ensures Value(signed, d) == Wrap(signed, |d|, Value(signed, d))
  {
    SignIs(d);
    WrapIs(signed, |d|, Value(signed, d), Unsigned(d), if signed && Negative(d) then -1 else 0);
  }

  // Cutting takes the number modulo; filling up with the sign keeps it.
  lemma {:induction false} FitValue(signed: bool, d: seq<Byte>, n: nat)
    requires d != [] && n > 0
    ensures Value(signed, Fit(signed, d, n)) == Wrap(signed, n, Value(signed, d))
    ensures n >= |d| ==> Value(signed, Fit(signed, d, n)) == Value(signed, d)
  {
    if n <= |d| {
      CutValue(signed, d, n);
      if n == |d| { assert d[..n] == d; }
    } else {
      FilledValue(signed, d, n);
      WrapValue(signed, Fit(signed, d, n));
    }
  }

  lemma {:induction false} CutValue(signed: bool, d: seq<Byte>, n: nat)
    requires 0 < n <= |d|
    ensures Value(signed, d[..n]) == Wrap(signed, n, Value(signed, d))
  {
    var lo, hi := d[..n], d[n..];
    assert d == lo + hi;
    UnsignedSplit(lo, hi);
    PowAdd(n, |hi|);
    SignIs(lo);
    var over := if signed && Negative(d) then Pow(|hi|) else 0;
    Distribute(Pow(n), Unsigned(hi), over);
    hide Unsigned, Pow, Wrap, Negative;
    WrapIs(signed, n, Value(signed, d), Unsigned(lo), Unsigned(hi) - over);
  }

  lemma {:induction false} FilledValue(signed: bool, d: seq<Byte>, n: nat)
    requires d != [] && n > |d|
    ensures Value(signed, Fit(signed, d, n)) == Value(signed, d)
  {
    var b: Byte := if signed && Negative(d) then 255 else 0;
    var e := seq(n - |d|, _ => b);
    assert Fit(signed, d, n) == d + e;
    assert e[|e| - 1] == b && (d + e)[n - 1] == b;
    FillValue(n - |d|, b);
    FilledUnsigned(d, e, b);
  }

  lemma {:induction false} FilledUnsigned(d: seq<Byte>, e: seq<Byte>, b: Byte)
    requires Unsigned(e) == if b == 0 then 0 else Pow(|e|) - 1
    ensures Unsigned(d + e) == Unsigned(d) + if b == 0 then 0 else Pow(|d| + |e|) - Pow(|d|)
  {
    hide Pow, Unsigned;
    UnsignedSplit(d, e);
    PowAdd(|d|, |e|);
    LessOne(Pow(|d|), Pow(|e|));
  }

  lemma LessOne(p: nat, q: nat)
    ensures p * 0 == 0 && p * (q - 1) == p * q - p
  {
  }

  // What is got back after setting: the number modulo the length of the
  // attribute, and then modulo the length asked for.
  lemma {:induction false} SetThenGet(signed: bool, v: seq<Byte>, length: nat, maxlen: nat)
    requires v != [] && length > 0 && maxlen > 0
    ensures var got := Fit(signed, Fit(signed, v, length), maxlen);
      && Value(signed, got) == Wrap(signed, maxlen, Wrap(signed, length, Value(signed, v)))
      && (length >= |v| && maxlen >= |v| ==> Value(signed, got) == Value(signed, v))
  {
    FitValue(signed, v, length);
    FitValue(signed, Fit(signed, v, length), maxlen);
    FitValue(signed, v, maxlen);
  }

  /* Copies */

  // memcpy
  method Copy(dest: array<Byte>, to: nat, src: array<Byte>, from: nat, n: nat)
    requires dest != src && to + n <= dest.Length && from + n <= src.Length
    modifies dest
    ensures forall i :: 0 <= i < dest.Length ==> dest[i] == if to <= i < to + n then src[from + i - to]
        else old(dest[i])
  {
    for k := 0 to n
      invariant forall i :: 0 <= i < dest.Length ==>
          dest[i] == if to <= i < to + k then src[from + i - to] else old(dest[i])
    {
      dest[to + k] := src[from + k];
    }
  }

  // memrcpy: the last byte first.
  method CopyReversed(dest: array<Byte>, to: nat, src: array<Byte>, from: nat, n: nat)
    requires dest != src && to + n <= dest.Length && from + n <= src.Length
    modifies dest
    ensures forall i :: 0 <= i < dest.Length ==> dest[i] == if to <= i < to + n then src[from + n - 1 - (i - to)]
        else old(dest[i])
  {
    var left, d := n, to;
    while left > 0
      invariant 0 <= left <= n && d == to + n - left
      invariant forall i :: 0 <= i < dest.Length ==>
          dest[i] == if to <= i < d then src[from + n - 1 - (i - to)] else old(dest[i])
    {
      left := left - 1;
      dest[d] := src[from + left];
      d := d + 1;
    }
  }

  // memset
  method Fill(dest: array<Byte>, to: nat, b: Byte, n: nat)
    requires to + n <= dest.Length
    modifies dest
    ensures forall i :: 0 <= i < dest.Length ==> dest[i] == if to <= i < to + n then b else old(dest[i])
  {
    for k := 0 to n
      invariant forall i :: 0 <= i < dest.Length ==> dest[i] == if to <= i < to + k then b else old(dest[i])
    {
      dest[to + k] := b;
    }
  }

  /* Strings */

  // The string in some bytes: what comes before the first 0.
  function StringIn(s: seq<Byte>): (t: seq<Byte>)
    ensures |t| <= |s| && t == s[..|t|] && (|t| < |s| ==> s[|t|] == 0) && forall i :: 0 <= i < |t| ==> t[i] != 0
  {
    if s == [] || s[0] == 0 then [] else [s[0]] + StringIn(s[1..])
  }

  lemma {:induction false} StringIs(s: seq<Byte>, k: nat)
    requires k <= |s| && (k < |s| ==> s[k] == 0) && forall i :: 0 <= i < k ==> s[i] != 0
    ensures StringIn(s) == s[..k]
  {
    if k > 0 { StringIs(s[1..], k - 1); }
  }

  function Cut(s: seq<Byte>, n: nat): seq<Byte> { if |s| <= n then s else s[..n] }

  // strncpy: up to the first 0, and 0 from there.
  method CopyString(dest: array<Byte>, to: nat, src: array<Byte>, from: nat, n: nat)
    requires dest != src && to + n <= dest.Length && from + n <= src.Length
    modifies dest
    ensures forall i :: 0 <= i < dest.Length ==>
      dest[i] == if to <= i < to + n then (if i - to < |StringIn(src[from..from + n])| then src[from + i - to] else 0)
        else old(dest[i])
  {
    ghost var s := src[from..from + n];
    var k := 0;
    while k < n && src[from + k] != 0
      invariant 0 <= k <= n && s == src[from..from + n] && forall i :: 0 <= i < k ==> s[i] != 0
      invariant forall i :: 0 <= i < dest.Length ==>
          dest[i] == if to <= i < to + k then src[from + i - to] else old(dest[i])
    {
      dest[to + k] := src[from + k];
      k := k + 1;
    }
    StringIs(s, k);
    Fill(dest, to + k, 0, n - k);
  }

  // Bytes that begin with t, and then 0 or the end, hold t; and t cut where a 0 is put.
  lemma {:induction false} Terminated(s: seq<Byte>, from: seq<Byte>, n: nat, end: nat)
    requires n <= |from| && n <= |s| && end < |s| && end <= n && s[end] == 0
    requires forall i :: 0 <= i < n && i != end ==> s[i] == if i < |StringIn(from[..n])| then from[i] else 0
    ensures StringIn(s) == Cut(StringIn(from[..n]), end)
  {
    var t := StringIn(from[..n]);
    StringIs(s, if |t| <= end then |t| else end);
  }

  lemma {:induction false} CutString(s: seq<Byte>, n: nat, end: nat)
    requires end <= n <= |s|
    ensures Cut(StringIn(s[..n]), end) == Cut(StringIn(s), end)
  {
    var t := StringIn(s);
    StringIs(s[..n], if |t| <= n then |t| else n);
  }

  lemma CutSame(s: seq<Byte>, m: nat, n: nat)
    requires m == n || (|s| <= m && |s| <= n)
    ensures Cut(s, m) == Cut(s, n)
  {
  }

  /* Objects */

  datatype AttrType = SignedType | UnsignedType | BitmapType | StringType | OtherType

  datatype Attr = Attr(offset: nat, length: nat, typ: AttrType)

  predicate IsInteger(a: Attr) { a.typ == SignedType || a.typ == UnsignedType }

  function Min(a: nat, b: nat): nat { if a < b then a else b }

  // Digits cut or filled up, byte by byte.
  lemma FitAt(signed: bool, d: seq<Byte>, n: nat, r: seq<Byte>)
    requires |r| == n
    requires forall i :: 0 <= i < n ==> r[i] == if i < |d| then d[i] else if signed && Negative(d) then 255 else 0
    ensures r == Fit(signed, d, n)
  {
  }

  class Object {
    const highFirst: bool          // __BYTE_ORDER of this host
    const attrs: seq<Attr>         // class->attr
    const data: array<Byte>
    var changed: bool              // OBJECT_FLAG_CHENDIAN

    constructor (highFirst: bool, attrs: seq<Attr>, data: array<Byte>, changed: bool)
      ensures this.highFirst == highFirst && this.attrs == attrs && this.data == data && this.changed == changed
    {
      this.highFirst, this.attrs, this.data, this.changed := highFirst, attrs, data, changed;
    }

    predicate Has(a: Attr) { a.length > 0 && a.offset + a.length <= data.Length }

    // The digits an attribute holds.
    function Digits(a: Attr): (d: seq<Byte>)
      requires Has(a)
      reads this, data
      ensures |d| == a.length
    {
      DigitsOf(highFirst != changed, data[a.offset..a.offset + a.length])
    }

    // The digits of an attribute, one by one.
    lemma DigitsAt(a: Attr)
      requires Has(a)
      ensures forall i :: 0 <= i < a.length ==>
        Digits(a)[i] == data[if highFirst != changed then a.offset + a.length - 1 - i else a.offset + i]
    {
    }

    // object_get_val for integers: on a host with the lowest byte first.
    method GetLow(a: Attr, buf: array<Byte>)
      requires Has(a) && buf != data && buf.Length > 0 && !highFirst
      modifies buf
      ensures buf[..] == Fit(a.typ == SignedType, Digits(a), buf.Length)
    {
      hide Negative, Digits, DigitsOf, Fit;
      var maxlen := buf.Length;
      var n := Min(a.length, maxlen);
      var s := a.typ == SignedType;
      ghost var d := Digits(a);
      DigitsAt(a);
      NegativeIs(d);
      if changed {
        CopyReversed(buf, 0, data, a.offset + a.length - n, n);
      } else {
        Copy(buf, 0, data, a.offset, n);
      }
      assert forall i :: 0 <= i < n ==> buf[i] == d[i];
      if maxlen > n {
        Fill(buf, n, if s && buf[n - 1] >= 128 then 255 else 0, maxlen - n);
      }
      FitAt(s, d, maxlen, buf[..]);
    }

    // On a host with the highest byte first.
    method GetHigh(a: Attr, buf: array<Byte>)
      requires Has(a) && buf != data && buf.Length > 0 && highFirst
      modifies buf
      ensures Rev(buf[..]) == Fit(a.typ == SignedType, Digits(a), buf.Length)
    {
      hide Negative, Digits, DigitsOf, Fit, Rev;
      var maxlen := buf.Length;
      var n := Min(a.length, maxlen);
      var s := a.typ == SignedType;
      ghost var d := Digits(a);
      DigitsAt(a);
      NegativeIs(d);
      if changed {
        CopyReversed(buf, maxlen - n, data, a.offset, n);
      } else {
        Copy(buf, maxlen - n, data, a.offset + a.length - n, n);
      }
      assert forall i :: 0 <= i < n ==> buf[maxlen - 1 - i] == d[i];
      if maxlen > n {
        assert buf[maxlen - 1 - (n - 1)] == d[n - 1];
        Fill(buf, 0, if s && buf[maxlen - n] >= 128 then 255 else 0, maxlen - n);
      }
      FitAt(s, d, maxlen, Rev(buf[..]));
    }

    // A string, cut so that the 0 behind it fits.
    method GetString(a: Attr, buf: array<Byte>)
      requires Has(a) && buf != data && buf.Length > 0
      modifies buf
      ensures StringIn(buf[..]) == Cut(StringIn(data[a.offset..a.offset + a.length]), buf.Length - 1)
    {
      hide StringIn, Cut;
      var maxlen := buf.Length;
      var n := Min(a.length, maxlen);
      var end := if maxlen > n then n else n - 1;
      CopyString(buf, 0, data, a.offset, n);
      buf[end] := 0;
      ghost var from := data[a.offset..a.offset + a.length];
      assert from[..n] == data[a.offset..a.offset + n];
      ghost var s, t := buf[..], StringIn(from[..n]);
      forall i | 0 <= i < n && i != end ensures s[i] == if i < |t| then from[i] else 0 { assert buf[i] == s[i]; }
      Terminated(s, from, n, end);
      CutString(from, n, end);
      CutSame(StringIn(from), end, maxlen - 1);
    }

    method SetString(a: Attr, buf: array<Byte>)
      requires Has(a) && buf != data && buf.Length > 0
      modifies data
      ensures StringIn(data[a.offset..a.offset + a.length]) == Cut(StringIn(buf[..]), a.length - 1)
      ensures forall i :: 0 <= i < data.Length && !(a.offset <= i < a.offset + a.length) ==> data[i] == old(data[i])
    {
      hide StringIn, Cut;
      var n := Min(a.length, buf.Length);
      var end := if a.length > n then n else n - 1;
      CopyString(data, a.offset, buf, 0, n);
      data[a.offset + end] := 0;
      assert buf[..][..n] == buf[0..0 + n];
      Terminated(data[a.offset..a.offset + a.length], buf[..], n, end);
      CutString(buf[..], n, end);
      CutSame(StringIn(buf[..]), end, a.length - 1);
    }

    // object_get_val: the digits of an integer, cut or filled up to the length of
    // the buffer; a bitmap the same way; a string.
    method GetVal(a: Attr, buf: array<Byte>) returns (r: int)
      requires Has(a) && buf != data && buf.Length > 0
      modifies buf
      ensures r == if a.typ == OtherType then -1 else 0
      ensures IsInteger(a) ==> DigitsOf(highFirst, buf[..]) == Fit(a.typ == SignedType, Digits(a), buf.Length)
      ensures a.typ == BitmapType ==> buf[..] == Fit(false, data[a.offset..a.offset + a.length], buf.Length)
      ensures a.typ == StringType ==>
          StringIn(buf[..]) == Cut(StringIn(data[a.offset..a.offset + a.length]), buf.Length - 1)
      ensures a.typ == OtherType ==> buf[..] == old(buf[..])
    {
      hide Negative, Digits;
      if a.typ == OtherType {
        return -1;
      }
      if a.typ == StringType {
        GetString(a, buf);
        return 0;
      }
      if a.typ == BitmapType {
        var n := Min(a.length, buf.Length);
        Copy(buf, 0, data, a.offset, n);
        Fill(buf, n, 0, buf.Length - n);
        FitAt(false, data[a.offset..a.offset + a.length], buf.Length, buf[..]);
        return 0;
      }
      if highFirst {
        GetHigh(a, buf);
      } else {
        GetLow(a, buf);
      }
      r := 0;
    }

    // object_set_val for integers: on a host with the lowest byte first.
    method SetLow(a: Attr, buf: array<Byte>)
      requires Has(a) && buf != data && buf.Length > 0 && !highFirst
      modifies data
      ensures Digits(a) == Fit(a.typ == SignedType, buf[..], a.length)
      ensures forall i :: 0 <= i < data.Length && !(a.offset <= i < a.offset + a.length) ==> data[i] == old(data[i])
    {
      hide Negative, Digits, DigitsOf, Fit;
      var maxlen := buf.Length;
      var n := Min(a.length, maxlen);
      var s := a.typ == SignedType;
      ghost var d := buf[..];
      NegativeIs(d);
      var sign := if s && buf[maxlen - 1] >= 128 then 255 else 0;
      if changed {
        CopyReversed(data, a.offset + a.length - n, buf, 0, n);
        if a.length > n {
          Fill(data, a.offset, sign, a.length - n);
        }
      } else {
        Copy(data, a.offset, buf, 0, n);
        if a.length > n {
          Fill(data, a.offset + n, sign, a.length - n);
        }
      }
      DigitsAt(a);
      FitAt(s, d, a.length, Digits(a));
    }

    // On a host with the highest byte first.
    method SetHigh(a: Attr, buf: array<Byte>)
      requires Has(a) && buf != data && buf.Length > 0 && highFirst
      modifies data
      ensures Digits(a) == Fit(a.typ == SignedType, Rev(buf[..]), a.length)
      ensures forall i :: 0 <= i < data.Length && !(a.offset <= i < a.offset + a.length) ==> data[i] == old(data[i])
    {
      hide Negative, Digits, DigitsOf, Fit, Rev;
      var maxlen := buf.Length;
      var n := Min(a.length, maxlen);
      var s := a.typ == SignedType;
      ghost var d := Rev(buf[..]);
      NegativeIs(d);
      var sign := if s && buf[0] >= 128 then 255 else 0;
      if changed {
        CopyReversed(data, a.offset, buf, maxlen - n, n);
        if a.length > n {
          Fill(data, a.offset + n, sign, a.length - n);
        }
      } else {
        Copy(data, a.offset + a.length - n, buf, maxlen - n, n);
        if a.length > n {
          Fill(data, a.offset, sign, a.length - n);
        }
      }
      DigitsAt(a);
      FitAt(s, d, a.length, Digits(a));
    }

    // object_set_val: the digits of the buffer, cut or filled up to the length of
    // the attribute, or its string. No other byte changes.
    method SetVal(a: Attr, buf: array<Byte>) returns (r: int)
      requires Has(a) && buf != data && buf.Length > 0
      modifies data
      ensures r == if a.typ == OtherType then -1 else 0
      ensures IsInteger(a) ==> Digits(a) == Fit(a.typ == SignedType, DigitsOf(highFirst, buf[..]), a.length)
      ensures a.typ == BitmapType ==> data[a.offset..a.offset + a.length] == Fit(false, buf[..], a.length)
      ensures a.typ == StringType ==>
          StringIn(data[a.offset..a.offset + a.length]) == Cut(StringIn(buf[..]), a.length - 1)
      ensures forall i :: 0 <= i < data.Length && !(a.offset <= i < a.offset + a.length) ==> data[i] == old(data[i])
      ensures a.typ == OtherType ==> data[..] == old(data[..])
    {
      hide Negative, Digits;
      if a.typ == OtherType {
        return -1;
      }
      if a.typ == StringType {
        SetString(a, buf);
        return 0;
      }
      if a.typ == BitmapType {
        var n := Min(a.length, buf.Length);
        Copy(data, a.offset, buf, 0, n);
        Fill(data, a.offset + n, 0, a.length - n);
        FitAt(false, buf[..], a.length, data[a.offset..a.offset + a.length]);
        return 0;
      }
      if highFirst {
        SetHigh(a, buf);
      } else {
        SetLow(a, buf);
      }
      r := 0;
    }

    // object_swap_endian
    method SwapEndian(a: Attr)
      requires Has(a)
      modifies data
      ensures Swapped(a, old(data[..]), data[..])
    {
      if a.typ == SignedType || a.typ == UnsignedType {
        var d := a.offset;
        var n := a.length - 1;
        while n > 0
          invariant d + d + n == 2 * a.offset + a.length - 1 && a.offset <= d && n >= -1
          invariant forall i :: 0 <= i < data.Length ==>
            data[i] == if a.offset <= i < d || d + n < i < a.offset + a.length then
              old(data[2 * a.offset + a.length - 1 - i]) else old(data[i])
          decreases n
        {
          var c := data[d];
          data[d] := data[d + n];
          data[d + n] := c;
          d := d + 1;
          n := n - 2;
        }
      }
    }

    // No two integer attributes share a byte.
    predicate Disjoint() {
      forall i, j :: 0 <= i < j < |attrs| && IsInteger(attrs[i]) && IsInteger(attrs[j]) ==> Apart(attrs[i], attrs[j])
    }

    // object_set_byte_order: every integer keeps its digits, and every byte
    // outside of the integers stays.
    method SetByteOrder(change: bool)
      requires Disjoint() && forall i :: 0 <= i < |attrs| ==> Has(attrs[i])
      modifies this, data
      ensures changed == change
      ensures forall i :: 0 <= i < |attrs| && IsInteger(attrs[i]) ==> Digits(attrs[i]) == old(Digits(attrs[i]))
      ensures forall k :: 0 <= k < data.Length && !InInteger(attrs, |attrs|, k) ==> data[k] == old(data[k])
    {
      hide DigitsOf, Part, Swapped, InInteger;
      if change == changed {
        return;
      }
      changed := change;
      ghost var was := data[..];
      forall i | 0 <= i < |attrs| ensures Part(attrs[i], was, data[..], false) { PartSelf(attrs[i], was); }
      var j := 0;
      while j < |attrs|
        invariant 0 <= j <= |attrs| && changed == change
        invariant forall i :: 0 <= i < |attrs| && IsInteger(attrs[i]) ==> Part(attrs[i], was, data[..], i < j)
        invariant forall k :: 0 <= k < data.Length && !InInteger(attrs, |attrs|, k) ==> data[k] == was[k]
      {
        ghost var before := data[..];
        SwapEndian(attrs[j]);
        NextSwapped(attrs, was, before, data[..], j);
        j := j + 1;
      }
      forall i | 0 <= i < |attrs| && IsInteger(attrs[i]) ensures Digits(attrs[i]) == old(Digits(attrs[i])) {
        TurnedDigits(attrs[i], was, data[..], highFirst != changed);
      }
    }
  }

  function Mirror(a: Attr, k: nat): int { 2 * a.offset + a.length - 1 - k }

  // The bytes of an integer are turned round, all others stay.
  ghost predicate Swapped(a: Attr, was: seq<Byte>, now: seq<Byte>) {
    && |now| == |was| && a.offset + a.length <= |was|
    && forall k :: 0 <= k < |now| ==>
        now[k] == if IsInteger(a) && a.offset <= k < a.offset + a.length then was[Mirror(a, k)] else was[k]
  }

  // The bytes of one attribute.
  ghost predicate Part(a: Attr, was: seq<Byte>, now: seq<Byte>, turned: bool) {
    && |now| == |was| && a.offset + a.length <= |was|
    && forall k :: a.offset <= k < a.offset + a.length ==> now[k] == was[if turned then Mirror(a, k) else k]
  }

  lemma PartSelf(a: Attr, was: seq<Byte>)
    requires a.offset + a.length <= |was|
    ensures Part(a, was, was, false)
  {
  }

  predicate Apart(a: Attr, b: Attr) { a.offset + a.length <= b.offset || b.offset + b.length <= a.offset }

  lemma {:induction false} NextSwapped(attrs: seq<Attr>, was: seq<Byte>, before: seq<Byte>, now: seq<Byte>, j: nat)
    requires j < |attrs| && Swapped(attrs[j], before, now) && |was| == |now|
    requires forall i, l :: 0 <= i < l < |attrs| && IsInteger(attrs[i]) && IsInteger(attrs[l]) ==>
        Apart(attrs[i], attrs[l])
    requires forall i :: 0 <= i < |attrs| && IsInteger(attrs[i]) ==> Part(attrs[i], was, before, i < j)
    requires forall k :: 0 <= k < |was| && !InInteger(attrs, |attrs|, k) ==> before[k] == was[k]
    ensures forall i :: 0 <= i < |attrs| && IsInteger(attrs[i]) ==> Part(attrs[i], was, now, i < j + 1)
    ensures forall k :: 0 <= k < |was| && !InInteger(attrs, |attrs|, k) ==> now[k] == was[k]
  {
    forall i | 0 <= i < |attrs| && IsInteger(attrs[i]) ensures Part(attrs[i], was, now, i < j + 1) {
      PartSwapped(attrs[i], attrs[j], was, before, now, i < j, i == j);
    }
  }

  lemma {:induction false} PartSwapped(a: Attr, b: Attr, was: seq<Byte>, before: seq<Byte>, now: seq<Byte>,
      turned: bool, same: bool)
    requires Part(a, was, before, turned) && Swapped(b, before, now) && IsInteger(a)
    requires if same then a == b && !turned else IsInteger(b) ==> Apart(a, b) || Apart(b, a)
    ensures Part(a, was, now, turned || same)
  {
    forall k | a.offset <= k < a.offset + a.length ensures now[k] == was[if turned || same then Mirror(a, k) else k] {
      if same {
        assert a.offset <= Mirror(a, k) < a.offset + a.length;
      }
    }
  }

  lemma {:induction false} TurnedDigits(a: Attr, was: seq<Byte>, now: seq<Byte>, highFirst: bool)
    requires Part(a, was, now, true)
    ensures DigitsOf(highFirst, now[a.offset..a.offset + a.length]) ==
        DigitsOf(!highFirst, was[a.offset..a.offset + a.length])
  {
    var n, w := now[a.offset..a.offset + a.length], was[a.offset..a.offset + a.length];
    forall i | 0 <= i < a.length ensures n[i] == w[a.length - 1 - i] {
      assert n[i] == now[a.offset + i] && Mirror(a, a.offset + i) == a.offset + (a.length - 1 - i);
    }
    hide Rev;
  }

  // Byte k belongs to an integer among the first n attributes.
  predicate InInteger(attrs: seq<Attr>, n: nat, k: nat)
    requires n <= |attrs|
  {
    exists i :: 0 <= i < n && IsInteger(attrs[i]) && attrs[i].offset <= k < attrs[i].offset + attrs[i].length
  }

  lemma NegativeIs(d: seq<Byte>)
    requires d != []
    ensures Negative(d) <==> d[|d| - 1] >= 128
  {
  }
}
