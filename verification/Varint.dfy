/**
 The varint of the Negentropy Protocol V1 (appendix of NIP-77), as
 encoding.rs writes and reads it: base-128 digits, most significant first,
 the high bit set on all but the last byte.

 Numbers are u64. Remainder, division and addition stand for the masks, shifts
 and ors of the source.
 */
module Varint {

  import opened Basics

  type Byte = b: nat | b < 256

  const U64: nat := 0x1_0000_0000_0000_0000

  // ------------------------------------------------------------------
  // What a varint is
  // ------------------------------------------------------------------

  /** Terminated: only the last byte has its high bit clear. */
  predicate IsVarint(v: seq<Byte>) {
    v != [] && v[|v| - 1] < 128 && forall i :: 0 <= i < |v| - 1 ==> v[i] >= 128
  }

  /** The base-128 value of the low seven bits. */
  function Value(v: seq<Byte>): nat {
    if v == [] then 0 else Value(v[..|v| - 1]) * 128 + v[|v| - 1] % 128
  }

  /** The digits of `n`, most significant first, all with the high bit set. */
  function High(n: nat): seq<Byte> {
    if n == 0 then [] else High(n / 128) + [n % 128 + 128]
  }

  function Encoding(n: nat): seq<Byte> {
    High(n / 128) + [n % 128]
  }

  lemma {:induction false} LastDigit(v: seq<Byte>, b: Byte)
    ensures Value(v + [b]) == Value(v) * 128 + b % 128
  {
    assert (v + [b])[..|v|] == v;
  }

  lemma {:induction false} LowBits(d: nat)
    requires d < 128
    ensures d % 128 == d && (d + 128) % 128 == d
  {
  }

  lemma {:induction false} HighDigits(n: nat)
    ensures forall i :: 0 <= i < |High(n)| ==> High(n)[i] >= 128
    ensures Value(High(n)) == n
  {
    if n > 0 {
      hide Value;
      var q, r := n / 128, n % 128;
      assert n == 128 * q + r;
      LowBits(r);
      HighDigits(q);
      LastDigit(High(q), r + 128);
      assert High(n) == High(q) + [r + 128];
    }
  }

  /** An encoding is a varint with the value it encodes. */
  lemma {:induction false} EncodingValue(n: nat)
    ensures IsVarint(Encoding(n)) && Value(Encoding(n)) == n
  {
    hide High, Value;
    var q, r := n / 128, n % 128;
    assert n == 128 * q + r && Encoding(n) == High(q) + [r];
    LowBits(r);
    HighDigits(q);
    LastDigit(High(q), r);
  }

  // ------------------------------------------------------------------
  // Encoding
  // ------------------------------------------------------------------

  /** The digits of `n`, least significant first. */
  function Digits(n: nat): seq<Byte> {
    if n == 0 then [] else [n % 128] + Digits(n / 128)
  }

  function Reversed(s: seq<Byte>): (r: seq<Byte>)
    ensures |r| == |s|
    ensures forall k :: 0 <= k < |s| ==> r[k] == s[|s| - 1 - k]
  {
    if s == [] then [] else Reversed(s[1..]) + [s[0]]
  }

  predicate Small(s: seq<Byte>) {
    forall k :: 0 <= k < |s| ==> s[k] < 128
  }

  function Marked(s: seq<Byte>): seq<Byte>
    requires Small(s)
  {
    seq(|s|, k requires 0 <= k < |s| => s[k] + 128)
  }

  lemma {:induction false} DigitsReversed(n: nat)
    ensures Small(Digits(n))
    ensures Marked(Reversed(Digits(n))) == High(n)
  {
    if n > 0 {
      DigitsReversed(n / 128);
      MarkedExtends(Reversed(Digits(n / 128)), n % 128);
      assert Digits(n)[1..] == Digits(n / 128);
      hide Marked, High;
    }
  }

  lemma {:induction false} MarkedExtends(s: seq<Byte>, digit: Byte)
    requires Small(s) && digit < 128
    ensures Small(s + [digit]) && Marked(s + [digit]) == Marked(s) + [digit + 128]
  {
  }

  /** `encode_varint`. */
  method Encode(n: nat) returns (o: seq<Byte>)
    requires n < U64
    ensures o == Encoding(n)
  {
    if n == 0 {
      return [0];
    }
    o := [];
    var m := n;
    while m != 0
      invariant Digits(n) == o + Digits(m)
    {
      o := o + [m % 128];
      m := m / 128;
    }
    EncodingIsMarked(n, Reversed(o));
    o := Reverse(o);
    o := MarkAllButLast(o);
  }

  /** The digits reversed, every byte but the last marked. */
  lemma {:induction false} EncodingIsMarked(n: nat, r: seq<Byte>)
    requires n > 0 && r == Reversed(Digits(n))
    ensures Small(r) && r != []
    ensures Marked(r[..|r| - 1]) + [r[|r| - 1]] == Encoding(n)
  {
    DigitsReversed(n);
    DigitsReversed(n / 128);
    assert Digits(n)[1..] == Digits(n / 128);
    assert r == Reversed(Digits(n / 128)) + [n % 128];
    assert r[..|r| - 1] == Reversed(Digits(n / 128));
  }

  method Reverse(s: seq<Byte>) returns (r: seq<Byte>)
    ensures r == Reversed(s)
  {
    r := s;
    var lo, hi := 0, |s| - 1;
    while lo < hi
      invariant 0 <= lo <= hi + 1 && lo + hi == |s| - 1 && |r| == |s|
      invariant forall k :: 0 <= k < lo || hi < k < |s| ==> r[k] == s[|s| - 1 - k]
      invariant forall k :: lo <= k <= hi ==> r[k] == s[k]
    {
      r := r[lo := r[hi]][hi := r[lo]];
      lo, hi := lo + 1, hi - 1;
    }
  }

  method MarkAllButLast(s: seq<Byte>) returns (r: seq<Byte>)
    requires Small(s) && s != []
    ensures r == Marked(s[..|s| - 1]) + [s[|s| - 1]]
  {
    r := s;
    var last := |s| - 1;
    for k := 0 to last
      invariant |r| == |s|
      invariant forall i :: 0 <= i < k ==> r[i] == Marked(s[..last])[i]
      invariant forall i :: k <= i < |s| ==> r[i] == s[i]
    {
      r := r[k := r[k] + 128];
    }
  }

  // ------------------------------------------------------------------
  // Decoding
  // ------------------------------------------------------------------

  /** `decode_varint`: the value modulo 2^64 of the varint in front, which it
      takes off, or nothing where no byte terminates one. */
  method Decode(encoded: seq<Byte>) returns (res: Option<nat>, rest: seq<Byte>, ghost varint: seq<Byte>)
    ensures res.Some? ==> IsVarint(varint) && encoded == varint + rest && res.value == Value(varint) % U64
    ensures res.None? ==> rest == [] && forall i :: 0 <= i < |encoded| ==> encoded[i] >= 128
  {
    var value := 0;
    rest, varint := encoded, [];
    while true
      invariant encoded == varint + rest
      invariant forall i :: 0 <= i < |varint| ==> varint[i] >= 128
      invariant value == Value(varint) % U64
      decreases |rest|
    {
      if rest == [] {
        return None, rest, varint;
      }
      var byte := rest[0];
      rest := rest[1..];
      ghost var next := varint + [byte];
      assert next[..|next| - 1] == varint;
      ShiftWraps(Value(varint), byte % 128);
      value := (value * 128) % U64 + byte % 128;
      varint := next;
      if byte < 128 {
        return Some(value), rest, varint;
      }
    }
  }

  /** Wrapping at every shift is wrapping once at the end. */
  lemma {:induction false} ShiftWraps(v: nat, digit: nat)
    requires digit < 128
    ensures ((v % U64) * 128) % U64 + digit == (v * 128 + digit) % U64
  {
    var q, m := v / U64, v % U64;
    var a, b := m * 128 / U64, (m * 128) % U64;
    assert v == q * U64 + m && m * 128 == a * U64 + b;
    assert b == 128 * (m - a * 0x200_0000_0000_0000);
    Remainder(v * 128 + digit, q * 128 + a, b + digit);
  }

  lemma {:induction false} Remainder(n: nat, q: nat, r: nat)
    requires n == q * U64 + r && r < U64
    ensures n % U64 == r
  {
  }

  /** At most one varint stands in front of a byte string. */
  lemma {:induction false} FrontIsUnique(v: seq<Byte>, w: seq<Byte>, s: seq<Byte>, t: seq<Byte>)
    requires IsVarint(v) && IsVarint(w) && v + s == w + t
    ensures v == w && s == t
  {
    assert |v| == |w| by {
      assert (v + s)[|v| - 1] == v[|v| - 1] && (w + t)[|w| - 1] == w[|w| - 1];
    }
    assert v == (v + s)[..|v|] && w == (w + t)[..|w|];
    assert s == (v + s)[|v|..] && t == (w + t)[|w|..];
  }

  lemma {:induction false} EncodingInFront(n: nat, suffix: seq<Byte>)
    requires n < U64
    ensures
      var e := Encoding(n);
      IsVarint(e) && Value(e) % U64 == n && |e| > 0 && (e + suffix)[|e| - 1] < 128
  {
    EncodingValue(n);
  }

  /** Decoding undoes encoding and leaves what follows untouched. */
  method RoundTrip(n: nat, suffix: seq<Byte>) returns (res: Option<nat>, rest: seq<Byte>)
    requires n < U64
    ensures res == Some(n) && rest == suffix
  {
    hide *;
    var o := Encode(n);
    EncodingInFront(n, suffix);
    ghost var varint;
    res, rest, varint := Decode(o + suffix);
    FrontIsUnique(varint, o, rest, suffix);
  }

  /** No encoding is the start of another. */
  lemma {:induction false} PrefixFree(a: nat, b: nat, s: seq<Byte>, t: seq<Byte>)
    requires Encoding(a) + s == Encoding(b) + t
    ensures a == b && s == t
  {
    EncodingValue(a);
    EncodingValue(b);
    FrontIsUnique(Encoding(a), Encoding(b), s, t);
  }

  function EncodeAll(ns: seq<nat>): seq<Byte> {
    if ns == [] then [] else Encoding(ns[0]) + EncodeAll(ns[1..])
  }

  /** A concatenation of encodings can be read back in one way. */
  lemma {:induction false} ConcatenationIsUnique(ms: seq<nat>, ns: seq<nat>)
    requires EncodeAll(ms) == EncodeAll(ns)
    ensures ms == ns
  {
    if ms != [] && ns != [] {
      PrefixFree(ms[0], ns[0], EncodeAll(ms[1..]), EncodeAll(ns[1..]));
      ConcatenationIsUnique(ms[1..], ns[1..]);
      assert ms == [ms[0]] + ms[1..] && ns == [ns[0]] + ns[1..];
    }
  }

  /** No varint with the same value is shorter. */
  lemma {:induction false} Shortest(n: nat, v: seq<Byte>)
    requires IsVarint(v) && Value(v) == n
    ensures |Encoding(n)| <= |v|
  {
    HighShortest(n / 128, v[..|v| - 1]);
  }

  lemma {:induction false} HighShortest(n: nat, v: seq<Byte>)
    requires Value(v) == n
    ensures |High(n)| <= |v|
  {
    if n > 0 {
      assert Value(v[..|v| - 1]) == n / 128;
      HighShortest(n / 128, v[..|v| - 1]);
    }
  }
}
