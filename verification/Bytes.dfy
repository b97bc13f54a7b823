/** Bytes, the growing byte vector the encoders push onto, and what all modules share. */
module Bytes {

  type byte = x: int | 0 <= x < 256

  datatype Option<+T> = None | Some(value: T)

  function One(b: bool): nat {
    if b then 1 else 0
  }

  lemma Regroup<T>(a: seq<T>, b: seq<T>, c: seq<T>)
    ensures (a + b) + c == a + (b + c)
  {
  }

  const TWO_32 := 0x1_0000_0000

  /** A 32-bit number, most significant byte first, cut to its low 32 bits. */
  function U32Bytes(v: nat): (s: seq<byte>)
    ensures |s| == 4
  {
    [v / 0x1000000 % 256, v / 0x10000 % 256, v / 0x100 % 256, v % 256]
  }

  function ReadU32(s: seq<byte>): nat
    requires |s| == 4
  {
    s[0] as int * 0x1000000 + s[1] as int * 0x10000 + s[2] as int * 0x100 + s[3]
  }

  lemma Nested(v: nat)
    ensures v / 0x100 / 0x100 == v / 0x10000
    ensures v / 0x10000 / 0x100 == v / 0x1000000
  {
  }

  lemma U32RoundTrip(v: nat)
    ensures ReadU32(U32Bytes(v)) == v % TWO_32
  {
    Nested(v);
    var a := v / 0x100;
    var b := a / 0x100;
    var c := b / 0x100;
    var e := c / 0x100;
    assert v == 0x100 * a + v % 0x100;
    assert a == 0x100 * b + a % 0x100;
    assert b == 0x100 * c + b % 0x100;
    assert c == 0x100 * e + c % 0x100;
    var low := ReadU32(U32Bytes(v));
    assert v == TWO_32 * e + low;
    Remainder(v, e, low);
  }

  lemma Remainder(v: nat, e: nat, low: nat)
    requires v == TWO_32 * e + low && low < TWO_32
    ensures low == v % TWO_32
  {
  }

  /** `std::vector<unsigned char>`, only ever grown at its end. */
  class ByteVector {
    var bytes: seq<byte>

    constructor (initial: seq<byte>)
      ensures bytes == initial
    {
      bytes := initial;
    }

    method PushBack(b: byte)
      modifies this
      ensures bytes == old(bytes) + [b]
    {
      bytes := bytes + [b];
    }

    method Insert(more: seq<byte>)
      modifies this
      ensures bytes == old(bytes) + more
    {
      bytes := bytes + more;
    }

    method PutU32(v: nat)
      modifies this
      ensures bytes == old(bytes) + U32Bytes(v)
    {
      PushBack(v / 0x1000000 % 256);
      PushBack(v / 0x10000 % 256);
      PushBack(v / 0x100 % 256);
      PushBack(v % 256);
    }
  }
}
