/**
 The CRC of PNG chunks. `FeedBit` is the bit-serial register that section 3.4
 of RFC 2083 describes; `CrcTable.Crc32` is the table-driven form.
 */
module Crc {
  import opened Bytes

  const POLYNOMIAL: bv32 := 0xEDB88320
  const ALL_ONES: bv32 := 0xFFFFFFFF

  function Xor(a: bv32, b: bv32): bv32 {
    a ^ b
  }

  predicate Odd(c: bv32) {
    c & 1 == 1
  }

  function Half(c: bv32): bv32 {
    c >> 1
  }

  // ---------- the bit-serial definition ----------

  /** One data bit into the register, whose low bit is the oldest. */
  function FeedBit(c: bv32, bit: bool): bv32 {
    if Odd(c) != bit then Xor(POLYNOMIAL, Half(c)) else Half(c)
  }

  /** The n lowest bits of d, least significant first. */
  function FeedBits(c: bv32, d: bv32, n: nat): bv32
    decreases n
  {
    if n == 0 then c else FeedBits(FeedBit(c, Odd(d)), Half(d), n - 1)
  }

  function FeedBytes(c: bv32, data: seq<byte>): bv32 {
    if data == [] then c
    else FeedBits(FeedBytes(c, data[..|data| - 1]), data[|data| - 1] as bv32, 8)
  }

  function BitCrc(data: seq<byte>): (c: nat)
    ensures c < TWO_32
  {
    Xor(FeedBytes(ALL_ONES, data), ALL_ONES) as nat
  }

  // ---------- the register without input, and its linearity ----------

  function Step(c: bv32): bv32 {
    if Odd(c) then Xor(POLYNOMIAL, Half(c)) else Half(c)
  }

  function Steps(c: bv32, n: nat): bv32
    decreases n
  {
    if n == 0 then c else Steps(Step(c), n - 1)
  }

  function Halves(d: bv32, n: nat): bv32
    decreases n
  {
    if n == 0 then d else Halves(Half(d), n - 1)
  }

  lemma HalfXor(x: bv32, y: bv32)
    ensures Half(Xor(x, y)) == Xor(Half(x), Half(y))
  {
  }

  lemma OddXor(x: bv32, y: bv32)
    ensures Odd(Xor(x, y)) == (Odd(x) != Odd(y))
  {
    assert (x ^ y) & 1 == (x & 1) ^ (y & 1);
    assert (x & 1 == 0 || x & 1 == 1) && (y & 1 == 0 || y & 1 == 1);
  }

  lemma XorAssociative(p: bv32, a: bv32, b: bv32)
    ensures Xor(p, Xor(a, b)) == Xor(Xor(p, a), b)
  {
  }

  lemma XorMoves(p: bv32, a: bv32, b: bv32)
    ensures Xor(p, Xor(a, b)) == Xor(a, Xor(p, b))
  {
  }

  lemma XorTwice(p: bv32, z: bv32)
    ensures Xor(p, Xor(p, z)) == z
  {
  }

  lemma XorCancels(p: bv32, a: bv32, b: bv32)
    ensures Xor(Xor(p, a), Xor(p, b)) == Xor(a, b)
  {
    hide Xor;
    XorMoves(Xor(p, a), p, b);
    XorAssociative(p, a, b);
    XorTwice(p, Xor(a, b));
  }

  lemma XorRegroup(p: bv32, a: bv32, b: bv32)
    ensures Xor(p, Xor(a, b)) == Xor(Xor(p, a), b) == Xor(a, Xor(p, b))
    ensures Xor(Xor(p, a), Xor(p, b)) == Xor(a, b)
  {
    hide Xor;
    XorAssociative(p, a, b);
    XorMoves(p, a, b);
    XorCancels(p, a, b);
  }

  lemma StepLinear(x: bv32, y: bv32)
    ensures Step(Xor(x, y)) == Xor(Step(x), Step(y))
  {
    HalfXor(x, y);
    OddXor(x, y);
    XorRegroup(POLYNOMIAL, Half(x), Half(y));
    hide Half, Odd, Xor;
  }

  lemma {:induction false} StepsLinear(x: bv32, y: bv32, n: nat)
    ensures Steps(Xor(x, y), n) == Xor(Steps(x, n), Steps(y, n))
    decreases n
  {
    hide Step, Xor;
    if n > 0 {
      StepLinear(x, y);
      StepsLinear(Step(x), Step(y), n - 1);
    }
  }

  /** Feeding a bit is stepping with that bit xored in. */
  lemma FeedIsStep(c: bv32, d: bv32)
    ensures Xor(FeedBit(c, Odd(d)), Half(d)) == Step(Xor(c, d))
  {
    HalfXor(c, d);
    OddXor(c, d);
    XorRegroup(POLYNOMIAL, Half(c), Half(d));
    hide Half, Odd, Xor;
  }

  lemma {:induction false} FeedBitsIsSteps(c: bv32, d: bv32, n: nat)
    ensures Steps(Xor(c, d), n) == Xor(FeedBits(c, d, n), Halves(d, n))
    decreases n
  {
    hide Step, Xor, FeedBit, Odd, Half;
    if n > 0 {
      FeedIsStep(c, d);
      FeedBitsIsSteps(FeedBit(c, Odd(d)), Half(d), n - 1);
    }
  }

  // ---------- a byte at a time ----------

  lemma HalvesByte(x: bv32)
    ensures Halves(x, 8) == x >> 8
  {
  }

  /** With the low byte clear, eight steps only shift. */
  lemma HighSteps(x: bv32)
    requires x & 0xFF == 0
    ensures Steps(x, 8) == x >> 8
  {
  }

  function TableEntry(i: nat): bv32
    requires i < 256
  {
    Steps(i as bv32, 8)
  }

  function Low(x: bv32): bv32 {
    x & 0xFF
  }

  function High(x: bv32): bv32 {
    x & 0xFFFFFF00
  }

  function Shift8(x: bv32): bv32 {
    x >> 8
  }

  lemma SplitLowByte(x: bv32)
    ensures x == Xor(Low(x), High(x))
    ensures Low(x) as nat < 256
    ensures High(x) & 0xFF == 0 && Shift8(High(x)) == Shift8(x)
  {
  }

  function TableIndex(c: bv32, d: byte): (i: nat)
    ensures i < 256
  {
    SplitLowByte(Xor(c, d as bv32));
    Low(Xor(c, d as bv32)) as nat
  }

  lemma ByteAsWord(c: bv32, d: byte)
    ensures Shift8(d as bv32) == 0
    ensures Shift8(Xor(c, d as bv32)) == Shift8(c)
  {
    var w := d as bv32;
    assert w <= 0xFF;
    assert w >> 8 == 0;
    ShiftPastByte(c, w);
  }

  lemma ShiftPastByte(c: bv32, w: bv32)
    requires w >> 8 == 0
    ensures (c ^ w) >> 8 == c >> 8
  {
  }

  lemma XorZero(x: bv32)
    ensures Xor(x, 0) == x
  {
  }

  lemma EntryOfLow(x: bv32)
    requires Low(x) as nat < 256
    ensures TableEntry(Low(x) as nat) == Steps(Low(x), 8)
  {
    hide Steps, Low;
    assert (Low(x) as nat) as bv32 == Low(x);
  }

  /** The table turns eight bit steps into one lookup. */
  lemma TableStep(c: bv32, d: byte)
    ensures FeedBits(c, d as bv32, 8) == Xor(TableEntry(TableIndex(c, d)), Shift8(c))
  {
    var w := d as bv32;
    var x := Xor(c, w);
    hide *;
    ByteStep(c, d);
    FeedBitsIsSteps(c, w, 8);
    XorZero(FeedBits(c, w, 8));
    SplitLowByte(x);
    StepsLinear(Low(x), High(x), 8);
    EntryOfLow(x);
    assert TableIndex(c, d) == Low(x) as nat by { IndexOf(c, d); }
  }

  lemma IndexOf(c: bv32, d: byte)
    ensures TableIndex(c, d) == Low(Xor(c, d as bv32)) as nat
  {
    hide Xor, Low;
  }

  lemma ByteStep(c: bv32, d: byte)
    ensures Halves(d as bv32, 8) == 0
    ensures Steps(High(Xor(c, d as bv32)), 8) == Shift8(c)
  {
    var x := Xor(c, d as bv32);
    HalvesByte(d as bv32);
    ByteAsWord(c, d);
    SplitLowByte(x);
    HighSteps(High(x));
    hide Steps, Halves, Xor, Low, High;
  }

  // ---------- the lazily filled table ----------

  /** The function-local static table, all zeroes until it is first needed. */
  class CrcTable {
    const table: array<bv32>

    /** A non-zero entry 1 is the sign that the table has been filled. */
    ghost predicate Valid()
      reads this, table
    {
      table.Length == 256 &&
      (table[1] != 0 ==> Filled())
    }

    ghost predicate Filled()
      requires table.Length == 256
      reads this, table
    {
      forall i :: 0 <= i < 256 ==> table[i] == TableEntry(i)
    }

    constructor ()
      ensures Valid() && fresh(table)
    {
      table := new bv32[256](_ => 0);
    }

    method Fill()
      requires table.Length == 256
      modifies table
      ensures Filled()
    {
      hide TableEntry, Odd, Half, Xor;
      for i := 0 to 256
        invariant forall j :: 0 <= j < i ==> table[j] == TableEntry(j)
      {
        var c := Entry(i);
        table[i] := c;
      }
    }

    /** The inner loop: eight steps of one table index. */
    static method Entry(i: nat) returns (c: bv32)
      requires i < 256
      ensures c == TableEntry(i)
    {
      c := i as bv32;
      for k := 0 to 8
        invariant Steps(c, 8 - k) == TableEntry(i)
      {
        hide Odd, Half, Xor, TableEntry;
        c := if Odd(c) then Xor(POLYNOMIAL, Half(c)) else Half(c);
      }
    }

    method Crc32(data: seq<byte>) returns (crc: nat)
      requires Valid()
      modifies table
      ensures Valid()
      ensures crc == BitCrc(data)
    {
      hide Steps, FeedBits, Xor, TableIndex, TableEntry, Shift8;
      if table[1] == 0 {
        Fill();
      }
      var c := ALL_ONES;
      for i := 0 to |data|
        invariant Filled()
        invariant c == FeedBytes(ALL_ONES, data[..i])
      {
        TableStep(c, data[i]);
        assert data[..i + 1][..i] == data[..i];
        c := Xor(table[TableIndex(c, data[i])], Shift8(c));
      }
      assert data[..|data|] == data;
      crc := Xor(c, ALL_ONES) as nat;
    }
  }
}
