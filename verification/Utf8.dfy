/** UTF-8 as section 3 of RFC 3629 defines it. */
module Utf8 {
  import opened Bytes

  type Scalar = u: nat | u < 0xD800 || 0xE000 <= u < 0x110000

  function Tail(u: nat): byte {
    (0x80 + u % 64) as byte
  }

  function Encode(u: Scalar): (s: seq<byte>)
    ensures 1 <= |s| <= 4
  {
    if u < 0x80 then [u as byte]
    else if u < 0x800 then [(0xC0 + u / 64) as byte, Tail(u)]
    else if u < 0x10000 then [(0xE0 + u / 4096) as byte, Tail(u / 64), Tail(u)]
    else assert u / 0x40000 <= 4; [(0xF0 + u / 0x40000) as byte, Tail(u / 4096), Tail(u / 64), Tail(u)]
  }

  function EncodeAll(us: seq<Scalar>): seq<byte> {
    if us == [] then [] else EncodeAll(us[..|us| - 1]) + Encode(us[|us| - 1])
  }

  /** A byte whose two high bits are 10. */
  predicate Continuation(c: byte) {
    c as int / 64 == 2
  }

  lemma EncodeShape(u: Scalar)
    ensures !Continuation(Encode(u)[0])
    ensures forall k :: 0 < k < |Encode(u)| ==> Continuation(Encode(u)[k])
    ensures Encode(u)[0] < 0x80 <==> u < 0x80
    ensures u < 0x80 ==> Encode(u)[0] as int == u
    ensures u != 0 ==> 0 !in Encode(u)
  {
  }

  lemma EncodeAllMore(us: seq<Scalar>, u: Scalar)
    ensures EncodeAll(us + [u]) == EncodeAll(us) + Encode(u)
  {
    hide Encode;
    assert (us + [u])[..|us|] == us;
  }

  lemma {:induction false} EncodeAllJoin(us: seq<Scalar>, vs: seq<Scalar>)
    ensures EncodeAll(us + vs) == EncodeAll(us) + EncodeAll(vs)
    decreases |vs|
  {
    if vs == [] {
      assert us + vs == us;
      hide Encode;
    } else {
      hide *;
      var before, v := vs[..|vs| - 1], vs[|vs| - 1];
      EncodeAllJoin(us, before);
      EncodeAllMore(us + before, v);
      EncodeAllMore(before, v);
      Regroup(us, before, [v]);
      Regroup(EncodeAll(us), EncodeAll(before), Encode(v));
      assert vs == before + [v];
    }
  }

  lemma EncodeAllOne(u: Scalar)
    ensures EncodeAll([u]) == Encode(u)
  {
    assert [u][..0] == [];
  }

  /** The number of characters, counted by the bytes that start one. */
  function Starts(s: seq<byte>): nat {
    if s == [] then 0 else Starts(s[..|s| - 1]) + if Continuation(s[|s| - 1]) then 0 else 1
  }

  lemma {:induction false} StartsJoin(s: seq<byte>, t: seq<byte>)
    ensures Starts(s + t) == Starts(s) + Starts(t)
  {
    if t == [] {
      assert s + t == s;
    } else {
      StartsJoin(s, t[..|t| - 1]);
      assert (s + t)[..|s + t| - 1] == s + t[..|t| - 1];
    }
  }

  lemma {:induction false} StartsTail(s: seq<byte>)
    requires forall k :: 0 < k < |s| ==> Continuation(s[k])
    requires |s| > 0 && !Continuation(s[0])
    ensures Starts(s) == 1
  {
    if |s| > 1 {
      StartsTail(s[..|s| - 1]);
    } else {
      assert s[..0] == [];
    }
  }

  /** Each character has exactly one byte that is not a continuation. */
  lemma {:induction false} StartsCountScalars(us: seq<Scalar>)
    ensures Starts(EncodeAll(us)) == |us|
  {
    if us != [] {
      var u := us[|us| - 1];
      StartsCountScalars(us[..|us| - 1]);
      StartsJoin(EncodeAll(us[..|us| - 1]), Encode(u));
      EncodeShape(u);
      StartsTail(Encode(u));
    }
  }

  // ---------- reading it back ----------

  /** How many bytes a character has, by its first. */
  function LengthOf(c: byte): nat {
    if c < 0xC0 then 1 else if c < 0xE0 then 2 else if c < 0xF0 then 3 else 4
  }

  function Bits(c: byte): nat {
    c as int % 64
  }

  /** The character a well-formed sequence stands for. */
  function Decode(s: seq<byte>): nat
    requires 1 <= |s| <= 4
  {
    if |s| == 1 then s[0]
    else if |s| == 2 then s[0] as int % 32 * 64 + Bits(s[1])
    else if |s| == 3 then s[0] as int % 16 * 4096 + Bits(s[1]) * 64 + Bits(s[2])
    else s[0] as int % 8 * 0x40000 + Bits(s[1]) * 4096 + Bits(s[2]) * 64 + Bits(s[3])
  }

  lemma Digits(u: nat)
    ensures u == u / 64 * 64 + u % 64
    ensures u / 64 == u / 4096 * 64 + u / 64 % 64
    ensures u / 4096 == u / 0x40000 * 64 + u / 4096 % 64
  {
    assert u / 64 / 64 == u / 4096;
    assert u / 4096 / 64 == u / 0x40000;
  }

  lemma TailBits(u: nat)
    ensures Bits(Tail(u)) == u % 64
  {
  }

  lemma Lead(x: nat)
    ensures x < 32 ==> (0xC0 + x) % 32 == x
    ensures x < 16 ==> (0xE0 + x) % 16 == x
    ensures x < 8 ==> (0xF0 + x) % 8 == x
  {
  }

  lemma LengthEncode(u: Scalar)
    ensures LengthOf(Encode(u)[0]) == |Encode(u)|
  {
    hide Tail;
  }

  lemma DecodeEncode(u: Scalar)
    ensures LengthOf(Encode(u)[0]) == |Encode(u)|
    ensures Decode(Encode(u)) == u
  {
    hide *;
    LengthEncode(u);
    DecodeWide(u);
    DecodeTwo(u);
    DecodeThree(u);
  }

  lemma DecodeWide(u: Scalar)
    ensures u < 0x80 || u >= 0x10000 ==> Decode(Encode(u)) == u
  {
    hide Bits, Tail, LengthOf;
    LengthEncode(u);
    if u >= 0x10000 {
      Digits(u);
      TailBits(u);
      TailBits(u / 64);
      TailBits(u / 4096);
      Lead(u / 0x40000);
      assert Decode(Encode(u)) == (0xF0 + u / 0x40000) % 8 * 0x40000 + u / 4096 % 64 * 4096 + u / 64 % 64 * 64 + u % 64;
    }
  }

  lemma DecodeTwo(u: Scalar)
    ensures 0x80 <= u < 0x800 ==> Decode(Encode(u)) == u
  {
    hide Bits, Tail, LengthOf;
    LengthEncode(u);
    if 0x80 <= u < 0x800 {
      TailBits(u);
      Lead(u / 64);
      assert Decode(Encode(u)) == (0xC0 + u / 64) % 32 * 64 + u % 64;
    }
  }

  lemma DecodeThree(u: Scalar)
    ensures 0x800 <= u < 0x10000 ==> Decode(Encode(u)) == u
  {
    hide Bits, Tail, LengthOf;
    LengthEncode(u);
    if 0x800 <= u < 0x10000 {
      Digits(u);
      TailBits(u);
      TailBits(u / 64);
      Lead(u / 4096);
      assert Decode(Encode(u)) == (0xE0 + u / 4096) % 16 * 4096 + u / 64 % 64 * 64 + u % 64;
    }
  }

  /** The characters some bytes stand for are unique. */
  lemma {:induction false} EncodeAllInjective(us: seq<Scalar>, vs: seq<Scalar>)
    requires EncodeAll(us) == EncodeAll(vs)
    ensures us == vs
    decreases |us|
  {
    StartsCountScalars(us);
    StartsCountScalars(vs);
    hide *;
    if us != [] {
      EncodeAllFirst(us);
      EncodeAllFirst(vs);
      SameFirst(us[0], vs[0], EncodeAll(us[1..]), EncodeAll(vs[1..]));
      EncodeAllInjective(us[1..], vs[1..]);
      assert us == [us[0]] + us[1..] && vs == [vs[0]] + vs[1..];
    }
  }

  lemma SameFirst(u: Scalar, v: Scalar, s: seq<byte>, t: seq<byte>)
    requires Encode(u) + s == Encode(v) + t
    ensures u == v && s == t
  {
    DecodeEncode(u);
    DecodeEncode(v);
    hide *;
    assert Encode(u)[0] == (Encode(u) + s)[0] == (Encode(v) + t)[0] == Encode(v)[0];
    assert (Encode(u) + s)[..|Encode(u)|] == Encode(u) && (Encode(v) + t)[..|Encode(v)|] == Encode(v);
    assert (Encode(u) + s)[|Encode(u)|..] == s && (Encode(v) + t)[|Encode(v)|..] == t;
  }

  lemma EncodeAllFirst(us: seq<Scalar>)
    requires us != []
    ensures EncodeAll(us) == Encode(us[0]) + EncodeAll(us[1..])
  {
    assert us == [us[0]] + us[1..];
    EncodeAllJoin([us[0]], us[1..]);
    EncodeAllOne(us[0]);
    hide Encode;
  }
}
