/** `encode_png`, and the proof that a decoder gets the pixels back. */
module PngEncoder {
  import opened Bytes
  import opened PngFormat
  import Crc

  // ---------- what the encoder writes ----------

  /** The RGB of n pixels from pixel `at` on, the fourth byte of each left out. */
  function Pixels(rgba: seq<byte>, at: nat, n: nat): (s: seq<byte>)
    requires 4 * (at + n) <= |rgba|
    ensures |s| == 3 * n
  {
    if n == 0 then []
    else Pixels(rgba, at, n - 1) + rgba[4 * (at + n - 1)..4 * (at + n - 1) + 3]
  }

  /** The first h rows of an image w wide. */
  function Rows(rgba: seq<byte>, w: nat, h: nat): (s: seq<byte>)
    requires 4 * (h * w) <= |rgba|
    decreases h
  {
    if h == 0 then []
    else
      assert h * w == (h - 1) * w + w;
      Rows(rgba, w, h - 1) + [0] + Pixels(rgba, (h - 1) * w, w)
  }

  function Block(data: seq<byte>, final: bool): (s: seq<byte>)
    requires |data| <= 65535
    ensures |s| == 5 + |data|
  {
    var n := |data|;
    [if final then 1 else 0, n % 256, n / 256, 255 - n % 256, 255 - n / 256] + data
  }

  /** The stored blocks from `at` to the end, the last one marked final. */
  function BlocksFrom(raw: seq<byte>, at: nat): seq<byte>
    requires at <= |raw|
    decreases |raw| - at
  {
    if |raw| - at <= 65535 then Block(raw[at..], true)
    else Block(raw[at..at + 65535], false) + BlocksFrom(raw, at + 65535)
  }

  function Zlib(raw: seq<byte>): seq<byte> {
    [0x78, 0x01] + BlocksFrom(raw, 0) + U32Bytes(Adler(raw))
  }

  function ChunkBytes(kind: seq<byte>, data: seq<byte>): seq<byte> {
    U32Bytes(|data|) + kind + data + U32Bytes(Crc.BitCrc(kind + data))
  }

  function Header(w: nat, h: nat): (s: seq<byte>)
    ensures |s| == 13
  {
    U32Bytes(w) + U32Bytes(h) + [8, 2, 0, 0, 0]
  }

  function File(w: nat, h: nat, zlib: seq<byte>): seq<byte> {
    SIGNATURE + ChunkBytes(IHDR, Header(w, h)) + ChunkBytes(IDAT, zlib) + ChunkBytes(IEND, [])
  }

  /** What the source's `int` arithmetic allows, and every chunk's length fits its field. */
  ghost predicate Encodable(rgba: seq<byte>, w: nat, h: nat) {
    w < TWO_32 && h < TWO_32 && |rgba| == 4 * (h * w) && |Zlib(Rows(rgba, w, h))| < TWO_32
  }

  // ---------- decoding it ----------

  lemma InflateBlock(data: seq<byte>, final: bool, rest: seq<byte>)
    requires |data| <= 65535
    ensures final ==> Inflate(Block(data, final) + rest) == Some((data, rest))
    ensures !final && Inflate(rest).None? ==> Inflate(Block(data, final) + rest).None?
    ensures !final && Inflate(rest).Some? ==>
              Inflate(Block(data, final) + rest) == Some((data + Inflate(rest).value.0, Inflate(rest).value.1))
  {
    var s := Block(data, final) + rest;
    assert s[5..5 + |data|] == data;
    assert s[5 + |data|..] == rest;
    assert |data| == |data| % 256 + 256 * (|data| / 256);
  }

  lemma {:induction false} InflateBlocks(raw: seq<byte>, at: nat, rest: seq<byte>)
    requires at <= |raw|
    ensures Inflate(BlocksFrom(raw, at) + rest) == Some((raw[at..], rest))
    decreases |raw| - at
  {
    hide Inflate, Block;
    if |raw| - at <= 65535 {
      InflateBlock(raw[at..], true, rest);
    } else {
      var next := at + 65535;
      InflateBlocks(raw, next, rest);
      InflateBlock(raw[at..next], false, BlocksFrom(raw, next) + rest);
      assert BlocksFrom(raw, at) + rest == Block(raw[at..next], false) + (BlocksFrom(raw, next) + rest);
      assert raw[at..next] + raw[next..] == raw[at..];
    }
  }

  lemma UnzlibZlib(raw: seq<byte>)
    ensures Unzlib(Zlib(raw)) == Some(raw)
  {
    hide Inflate, BlocksFrom, Adler, ReadU32, U32Bytes;
    var check := U32Bytes(Adler(raw));
    U32RoundTrip(Adler(raw));
    InflateBlocks(raw, 0, check);
    assert Zlib(raw)[2..] == BlocksFrom(raw, 0) + check;
    assert raw[0..] == raw;
  }

  lemma ReadChunk(kind: seq<byte>, data: seq<byte>, rest: seq<byte>, more: seq<Chunk>)
    requires |kind| == 4 && |data| < TWO_32
    requires ReadChunks(rest) == Some(more)
    ensures ReadChunks(ChunkBytes(kind, data) + rest) == Some([Chunk(kind, data)] + more)
  {
    hide Crc.BitCrc, ReadU32, U32Bytes;
    var s := ChunkBytes(kind, data) + rest;
    U32RoundTrip(|data|);
    U32RoundTrip(Crc.BitCrc(kind + data));
    ChunkParts(U32Bytes(|data|), kind, data, U32Bytes(Crc.BitCrc(kind + data)), rest);
    assert Chunk(s[4..8], s[8..8 + |data|]) == Chunk(kind, data);
  }

  lemma ChunkParts(length: seq<byte>, kind: seq<byte>, data: seq<byte>, crc: seq<byte>, rest: seq<byte>)
    requires |length| == 4 && |kind| == 4 && |crc| == 4
    ensures
      var s, n := length + kind + data + crc + rest, |data|;
      && s[..4] == length && s[4..8] == kind && s[8..8 + n] == data && s[4..8 + n] == kind + data
      && s[8 + n..12 + n] == crc && s[12 + n..] == rest
  {
  }

  lemma {:induction false} PixelsJoin(rgba: seq<byte>, at: nat, n: nat, m: nat)
    requires 4 * (at + n + m) <= |rgba|
    ensures Pixels(rgba, at, n + m) == Pixels(rgba, at, n) + Pixels(rgba, at + n, m)
    decreases m
  {
    if m > 0 {
      PixelsJoin(rgba, at, n, m - 1);
    }
  }

  lemma RowsUnfold(rgba: seq<byte>, w: nat, h: nat)
    requires 0 < h && 4 * (h * w) <= |rgba|
    ensures h * w == (h - 1) * w + w
    ensures Rows(rgba, w, h) == Rows(rgba, w, h - 1) + [0] + Pixels(rgba, (h - 1) * w, w)
  {
    RowFits(h - 1, w, h);
    hide Pixels;
  }

  lemma {:induction false} ReadRowsOfRows(rgba: seq<byte>, w: nat, h: nat)
    requires 4 * (h * w) <= |rgba|
    ensures ReadRows(Rows(rgba, w, h), w, h) == Some(Pixels(rgba, 0, h * w))
    decreases h
  {
    if h == 0 {
      hide Pixels;
      assert Pixels(rgba, 0, 0) == [];
    } else {
      hide *;
      RowsUnfold(rgba, w, h);
      ReadRowsOfRows(rgba, w, h - 1);
      ReadLastRow(Rows(rgba, w, h - 1), Pixels(rgba, (h - 1) * w, w), w, h);
      PixelsJoin(rgba, 0, (h - 1) * w, w);
    }
  }

  lemma ReadLastRow(above: seq<byte>, row: seq<byte>, w: nat, h: nat)
    requires |row| == 3 * w && h > 0
    ensures ReadRows(above, w, h - 1).None? ==> ReadRows(above + [0] + row, w, h).None?
    ensures ReadRows(above, w, h - 1).Some? ==>
              ReadRows(above + [0] + row, w, h) == Some(ReadRows(above, w, h - 1).value + row)
  {
    var raw := above + [0] + row;
    assert raw[..|above|] == above && raw[|above| + 1..] == row;
  }

  lemma ReadNothing()
    ensures ReadChunks([]) == Some([])
  {
  }

  /** Section by section, the decoder undoes the encoder. */
  lemma DecodeFile(rgba: seq<byte>, w: nat, h: nat)
    requires Encodable(rgba, w, h)
    ensures Decode(File(w, h, Zlib(Rows(rgba, w, h)))) == Some(Image(w, h, Pixels(rgba, 0, h * w)))
  {
    hide Rows, Zlib, Header, ReadChunks, ChunkBytes, DecodeChunks, Pixels;
    var raw := Rows(rgba, w, h);
    var zlib := Zlib(raw);
    var head := Header(w, h);
    var end := ChunkBytes(IEND, []);
    var data := ChunkBytes(IDAT, zlib) + end;
    var file := File(w, h, zlib);
    var chunks := [Chunk(IHDR, head)] + ([Chunk(IDAT, zlib)] + ([Chunk(IEND, [])] + []));

    ReadNothing();
    ReadChunk(IEND, [], [], []);
    assert end + [] == end;
    ReadChunk(IDAT, zlib, end, [Chunk(IEND, [])] + []);
    ReadChunk(IHDR, head, data, [Chunk(IDAT, zlib)] + ([Chunk(IEND, [])] + []));
    assert file[8..] == ChunkBytes(IHDR, head) + data;
    assert ReadChunks(file[8..]) == Some(chunks);
    DecodeTheChunks(chunks, rgba, w, h);
  }

  lemma DecodeTheChunks(chunks: seq<Chunk>, rgba: seq<byte>, w: nat, h: nat)
    requires Encodable(rgba, w, h)
    requires chunks == [Chunk(IHDR, Header(w, h)), Chunk(IDAT, Zlib(Rows(rgba, w, h))), Chunk(IEND, [])]
    ensures DecodeChunks(chunks) == Some(Image(w, h, Pixels(rgba, 0, h * w)))
  {
    var zlib := Zlib(Rows(rgba, w, h));
    HeaderFields(w, h);
    hide Rows, Zlib, Header, Unzlib, ReadRows, Pixels, ReadU32, U32Bytes, JoinIdat;
    assert chunks[1..2] == [Chunk(IDAT, zlib)];
    JoinOne(zlib);
    UnzlibZlib(Rows(rgba, w, h));
    ReadRowsOfRows(rgba, w, h);
  }

  lemma HeaderFields(w: nat, h: nat)
    requires w < TWO_32 && h < TWO_32
    ensures ReadU32(Header(w, h)[..4]) == w && ReadU32(Header(w, h)[4..8]) == h
    ensures Header(w, h)[8..] == [8, 2, 0, 0, 0]
  {
    hide ReadU32, U32Bytes;
    U32RoundTrip(w);
    U32RoundTrip(h);
    assert Header(w, h)[..4] == U32Bytes(w) && Header(w, h)[4..8] == U32Bytes(h);
  }

  lemma JoinOne(data: seq<byte>)
    ensures JoinIdat([Chunk(IDAT, data)]) == Some(data)
  {
    var chunks := [Chunk(IDAT, data)];
    assert chunks[1..] == [];
    assert data + [] == data;
    assert JoinIdat(chunks[1..]) == Some([]);
  }

  ghost predicate PixelKept(rgb: seq<byte>, rgba: seq<byte>, i: nat) {
    && 3 * i + 3 <= |rgb| && 4 * i + 4 <= |rgba|
    && rgb[3 * i..3 * i + 3] == rgba[4 * i..4 * i + 3]
  }

  /** What `Pixels` means, pixel by pixel. */
  lemma {:induction false} PixelAt(rgba: seq<byte>, n: nat, i: nat)
    requires 4 * n <= |rgba| && i < n
    ensures PixelKept(Pixels(rgba, 0, n), rgba, i)
    decreases n
  {
    var before := Pixels(rgba, 0, n - 1);
    if i < n - 1 {
      PixelAt(rgba, n - 1, i);
      assert Pixels(rgba, 0, n)[3 * i..3 * i + 3] == before[3 * i..3 * i + 3];
    } else {
      assert Pixels(rgba, 0, n)[3 * i..3 * i + 3] == rgba[4 * i..4 * i + 3];
    }
  }

  // ---------- the encoder itself ----------

  method PutChunk(out: ByteVector, table: Crc.CrcTable, kind: seq<byte>, data: seq<byte>)
    requires table.Valid()
    modifies out, table.table
    ensures table.Valid()
    ensures out.bytes == old(out.bytes) + ChunkBytes(kind, data)
  {
    out.PutU32(|data|);
    var start := |out.bytes|;
    out.Insert(kind);
    out.Insert(data);
    assert out.bytes[start..] == kind + data;
    var crc := table.Crc32(out.bytes[start..]);
    out.PutU32(crc);
  }

  method PutRow(raw: ByteVector, rgba: seq<byte>, at: nat, width: nat)
    requires 4 * (at + width) <= |rgba|
    modifies raw
    ensures raw.bytes == old(raw.bytes) + [0] + Pixels(rgba, at, width)
  {
    raw.PushBack(0);
    for x := 0 to width
      invariant raw.bytes == old(raw.bytes) + [0] + Pixels(rgba, at, x)
    {
      var p := (at + x) * 4;
      raw.Insert(rgba[p..p + 3]);
    }
  }

  method PutRows(rgba: seq<byte>, width: nat, height: nat) returns (raw: ByteVector)
    requires 4 * (height * width) <= |rgba|
    ensures fresh(raw) && raw.bytes == Rows(rgba, width, height)
  {
    raw := new ByteVector([]);
    for y := 0 to height
      invariant fresh(raw)
      invariant 4 * (y * width) <= |rgba|
      invariant raw.bytes == Rows(rgba, width, y)
    {
      hide Pixels;
      RowFits(y, width, height);
      PutRow(raw, rgba, y * width, width);
    }
  }

  lemma RowFits(y: nat, width: nat, height: nat)
    requires y < height
    ensures (y + 1) * width == y * width + width
    ensures y * width + width <= height * width
  {
    assert height * width == (y + 1) * width + (height - y - 1) * width;
  }

  method PutBlock(zlib: ByteVector, data: seq<byte>, final: bool)
    requires |data| <= 65535
    modifies zlib
    ensures zlib.bytes == old(zlib.bytes) + Block(data, final)
  {
    var length := |data|;
    zlib.PushBack(if final then 1 else 0);
    zlib.PushBack(length % 256);
    zlib.PushBack(length / 256 % 256);
    zlib.PushBack(255 - length % 256);
    zlib.PushBack(255 - length / 256 % 256);
    zlib.Insert(data);
  }

  method PutBlocks(zlib: ByteVector, raw: seq<byte>)
    modifies zlib
    ensures zlib.bytes == old(zlib.bytes) + BlocksFrom(raw, 0)
  {
    hide Block;
    var at := 0;
    var more := true;
    while more
      invariant at <= |raw|
      invariant more ==> zlib.bytes + BlocksFrom(raw, at) == old(zlib.bytes) + BlocksFrom(raw, 0)
      invariant !more ==> zlib.bytes == old(zlib.bytes) + BlocksFrom(raw, 0)
      decreases more, |raw| - at
    {
      var length := if |raw| - at < 65535 then |raw| - at else 65535;
      FirstBlock(raw, at);
      PutBlock(zlib, raw[at..at + length], at + length == |raw|);
      at := at + length;
      more := at < |raw|;
    }
  }

  /** One turn of the loop writes the first block of what is left. */
  lemma FirstBlock(raw: seq<byte>, at: nat)
    requires at <= |raw|
    ensures
      var length := if |raw| - at < 65535 then |raw| - at else 65535;
      BlocksFrom(raw, at) == Block(raw[at..at + length], at + length == |raw|)
        + if at + length == |raw| then [] else BlocksFrom(raw, at + length)
  {
    hide Block;
    if |raw| - at <= 65535 {
      assert raw[at..|raw|] == raw[at..];
    }
  }

  method AdlerSums(raw: seq<byte>) returns (a: nat, b: nat)
    ensures b * 65536 + a == Adler(raw)
  {
    a, b := 1, 0;
    for i := 0 to |raw|
      invariant a == AdlerS1(raw[..i]) % 65521
      invariant b == AdlerS2(raw[..i]) % 65521
    {
      assert raw[..i + 1][..i] == raw[..i];
      ModAdd(AdlerS1(raw[..i]), raw[i]);
      a := (a + raw[i]) % 65521;
      ModAdd(AdlerS1(raw[..i + 1]), AdlerS2(raw[..i]));
      b := (b + a) % 65521;
      ModSum(AdlerS2(raw[..i]), AdlerS1(raw[..i + 1]));
    }
    assert raw[..|raw|] == raw;
  }

  lemma ModAdd(x: nat, y: nat)
    ensures (x % 65521 + y) % 65521 == (x + y) % 65521
  {
  }

  lemma ModSum(x: nat, y: nat)
    ensures (x % 65521 + y % 65521) % 65521 == (x + y) % 65521
  {
    ModAdd(x, y % 65521);
    ModAdd(y, x);
  }

  /** The image data, wrapped in zlib. */
  method Compress(raw: seq<byte>) returns (zlib: seq<byte>)
    ensures zlib == Zlib(raw)
  {
    hide Adler, BlocksFrom, U32Bytes;
    var out := new ByteVector([0x78, 0x01]);
    PutBlocks(out, raw);
    var a, b := AdlerSums(raw);
    out.PutU32(b * 65536 + a);
    zlib := out.bytes;
  }

  method PutFile(width: nat, height: nat, zlib: seq<byte>, table: Crc.CrcTable) returns (png: seq<byte>)
    requires table.Valid()
    modifies table.table
    ensures table.Valid()
    ensures png == File(width, height, zlib)
  {
    hide ChunkBytes, U32Bytes;
    var out := new ByteVector(SIGNATURE);
    var header := new ByteVector([]);
    header.PutU32(width);
    header.PutU32(height);
    header.Insert([8, 2, 0, 0, 0]);
    assert header.bytes == Header(width, height);
    PutChunk(out, table, IHDR, header.bytes);
    PutChunk(out, table, IDAT, zlib);
    PutChunk(out, table, IEND, []);
    png := out.bytes;
  }

  /**
   The whole encoder. Decoding its output gives back the size and, for every
   pixel, the red, green and blue the caller passed.
   */
  method EncodePng(rgba: seq<byte>, width: nat, height: nat, table: Crc.CrcTable) returns (png: seq<byte>)
    requires |rgba| == 4 * (height * width)
    requires table.Valid()
    modifies table.table
    ensures table.Valid()
    ensures Encodable(rgba, width, height) ==>
              var decoded := Decode(png);
              && decoded.Some?
              && decoded.value.width == width && decoded.value.height == height
              && |decoded.value.rgb| == 3 * (height * width)
              && forall i :: 0 <= i < height * width ==> PixelKept(decoded.value.rgb, rgba, i)
  {
    var raw := PutRows(rgba, width, height);
    var zlib := Compress(raw.bytes);
    png := PutFile(width, height, zlib, table);
    if Encodable(rgba, width, height) {
      DecodedPixels(rgba, width, height);
    }
  }

  /** The round trip, as a fact about the encoder's output. */
  lemma DecodedPixels(rgba: seq<byte>, w: nat, h: nat)
    requires Encodable(rgba, w, h)
    ensures
      var decoded := Decode(File(w, h, Zlib(Rows(rgba, w, h))));
      && decoded.Some?
      && decoded.value.width == w && decoded.value.height == h
      && |decoded.value.rgb| == 3 * (h * w)
      && forall i :: 0 <= i < h * w ==> PixelKept(decoded.value.rgb, rgba, i)
  {
    hide Decode, File, Zlib, Rows, Pixels, PixelKept;
    DecodeFile(rgba, w, h);
    forall i | 0 <= i < h * w
      ensures PixelKept(Pixels(rgba, 0, h * w), rgba, i)
    {
      PixelAt(rgba, h * w, i);
    }
  }
}
