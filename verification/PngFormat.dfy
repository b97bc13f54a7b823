/**
 A reference decoder for the PNG files the clipboard offers, written from the
 formats alone: chunks (sections 3.1-3.4 of RFC 2083), the zlib wrapper and
 Adler-32 (section 2.2 of RFC 1950), stored deflate blocks (section 3.2.4 of
 RFC 1951) and rows with filter type None (section 6.2 of RFC 2083).
 */
module PngFormat {
  import opened Bytes
  import Crc

  datatype Chunk = Chunk(kind: seq<byte>, data: seq<byte>)

  datatype Image = Image(width: nat, height: nat, rgb: seq<byte>)

  const SIGNATURE: seq<byte> := [0x89, 0x50, 0x4E, 0x47, 0x0D, 0x0A, 0x1A, 0x0A]
  const IHDR: seq<byte> := [0x49, 0x48, 0x44, 0x52]
  const IDAT: seq<byte> := [0x49, 0x44, 0x41, 0x54]
  const IEND: seq<byte> := [0x49, 0x45, 0x4E, 0x44]

  /** All chunks up to the end of the file: length, kind, data, CRC of kind and data. */
  function ReadChunks(s: seq<byte>): Option<seq<Chunk>> {
    if s == [] then Some([])
    else if |s| < 12 then None
    else
      var length := ReadU32(s[..4]);
      if |s| < 12 + length then None
      else if ReadU32(s[8 + length..12 + length]) != Crc.BitCrc(s[4..8 + length]) then None
      else
        match ReadChunks(s[12 + length..])
        case None => None
        case Some(rest) => Some([Chunk(s[4..8], s[8..8 + length])] + rest)
  }

  /** Stored blocks up to the one with BFINAL, and what follows it. */
  function Inflate(s: seq<byte>): Option<(seq<byte>, seq<byte>)> {
    if |s| < 5 || s[0] / 2 % 4 != 0 then None
    else
      var length := s[1] as int + 256 * s[2] as int;
      var inverse := s[3] as int + 256 * s[4] as int;
      if length + inverse != 65535 || |s| < 5 + length then None
      else if s[0] % 2 == 1 then Some((s[5..5 + length], s[5 + length..]))
      else
        match Inflate(s[5 + length..])
        case None => None
        case Some(more) => Some((s[5..5 + length] + more.0, more.1))
  }

  // Adler-32 as defined: two sums, reduced only at the end.

  function AdlerS1(data: seq<byte>): nat {
    if data == [] then 1 else AdlerS1(data[..|data| - 1]) + data[|data| - 1]
  }

  function AdlerS2(data: seq<byte>): nat {
    if data == [] then 0 else AdlerS2(data[..|data| - 1]) + AdlerS1(data)
  }

  function Adler(data: seq<byte>): (n: nat)
    ensures n < TWO_32
  {
    AdlerS2(data) % 65521 * 65536 + AdlerS1(data) % 65521
  }

  /** zlib: method 8, no preset dictionary, header a multiple of 31, checksum, nothing after. */
  function Unzlib(s: seq<byte>): Option<seq<byte>> {
    if |s| < 2 || s[0] % 16 != 8 || s[0] / 16 > 7 || s[1] / 32 % 2 != 0 ||
       (s[0] as int * 256 + s[1] as int) % 31 != 0
    then None
    else
      match Inflate(s[2..])
      case None => None
      case Some((data, check)) =>
        if |check| == 4 && ReadU32(check) == Adler(data) then Some(data) else None
  }

  /** The pixels of h rows of w RGB pixels, each row led by filter type None. */
  function ReadRows(raw: seq<byte>, w: nat, h: nat): Option<seq<byte>>
    decreases h
  {
    if h == 0 then if raw == [] then Some([]) else None
    else
      var at := |raw| - (3 * w + 1);
      if at < 0 || raw[at] != 0 then None
      else
        match ReadRows(raw[..at], w, h - 1)
        case None => None
        case Some(above) => Some(above + raw[at + 1..])
  }

  /** The data of a run of IDAT chunks, joined. */
  function JoinIdat(chunks: seq<Chunk>): Option<seq<byte>> {
    if chunks == [] then Some([])
    else if chunks[0].kind != IDAT then None
    else
      match JoinIdat(chunks[1..])
      case None => None
      case Some(more) => Some(chunks[0].data + more)
  }

  function Decode(file: seq<byte>): Option<Image> {
    if !(SIGNATURE <= file) then None
    else
      match ReadChunks(file[8..])
      case None => None
      case Some(chunks) => DecodeChunks(chunks)
  }

  /** IHDR (8-bit RGB, not interlaced), the IDATs, IEND. */
  function DecodeChunks(chunks: seq<Chunk>): Option<Image> {
    var last := |chunks| - 1;
    if last < 1 || chunks[0].kind != IHDR || |chunks[0].data| != 13 ||
       chunks[0].data[8..] != [8, 2, 0, 0, 0] || chunks[last] != Chunk(IEND, [])
    then None
    else
      var w, h := ReadU32(chunks[0].data[..4]), ReadU32(chunks[0].data[4..8]);
      match JoinIdat(chunks[1..last])
      case None => None
      case Some(zlib) =>
        match Unzlib(zlib)
        case None => None
        case Some(raw) =>
          match ReadRows(raw, w, h)
          case None => None
          case Some(rgb) => Some(Image(w, h, rgb))
  }
}
