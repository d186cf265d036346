/**
 The dependency-free reader of Terrarium tiles: the walk over PNG chunks (PNG Second Edition,
 sections 5.3, 11.2.2 and 11.2.4), and the centre pixel of the decompressed scanlines.
 Decompression is an arbitrary function that may fail.
 */
module Png {
  import opened Arithmetic
  import opened Wrappers

  type byte = x: int | 0 <= x < 256

  const MAX_U32: nat := 0x1_0000_0000

  /** Chunk types, as the numbers their four letters spell. */
  const IHDR: nat := 0x4948_4452
  const IDAT: nat := 0x4944_4154
  const IEND: nat := 0x4945_4E44

  /** The number that `width` bytes spell, most significant first. */
  function Number(s: seq<byte>, at: nat, width: nat): nat
    requires at + width <= |s|
  {
    if width == 0 then 0 else Number(s, at, width - 1) * 256 + s[at + width - 1] as nat
  }

  function U32(s: seq<byte>, at: nat): nat
    requires at + 4 <= |s|
  {
    Number(s, at, 4)
  }

  function Bytes(n: nat, width: nat): (b: seq<byte>)
    ensures |b| == width
  {
    if width == 0 then [] else Bytes(n / 256, width - 1) + [n % 256]
  }

  predicate Fits(n: nat, width: nat) {
    if width == 0 then n == 0 else Fits(n / 256, width - 1)
  }

  lemma FitsU32(n: nat)
    requires n < MAX_U32
    ensures Fits(n, 4)
  {
    assert Fits(n / 256 / 256 / 256, 1);
    assert Fits(n / 256 / 256, 2);
    assert Fits(n / 256, 3);
  }

  lemma {:induction false} NumberRoundTrip(s: seq<byte>, at: nat, n: nat, width: nat)
    requires at + width <= |s| && Fits(n, width) && s[at..at + width] == Bytes(n, width)
    ensures Number(s, at, width) == n
  {
    if width == 0 {
    } else {
      var written := s[at..at + width];
      assert written[..width - 1] == Bytes(n / 256, width - 1) && written[..width - 1] == s[at..at + (width - 1)];
      assert written[width - 1] == n % 256;
      NumberRoundTrip(s, at, n / 256, width - 1);
    }
  }

  /** A slice that stops at the end of the sequence. */
  function Slice(s: seq<byte>, from: nat, to: nat): seq<byte>
    requires from <= to
  {
    if from >= |s| then [] else if to > |s| then s[from..] else s[from..to]
  }

  /** Dimensions not yet seen are 0; the reader treats the two alike. */
  datatype Found = Found(width: nat, height: nat, idat: seq<byte>)

  const NOTHING := Found(0, 0, [])

  /** What one chunk adds; an IHDR too short to hold two dimensions raises. */
  function Note(ctype: nat, data: seq<byte>, found: Found): Option<Found> {
    if ctype == IHDR then
      if |data| < 8 then None else Some(found.(width := U32(data, 0), height := U32(data, 4)))
    else if ctype == IDAT then Some(found.(idat := found.idat + data))
    else Some(found)
  }

  /** The chunks as the walk sees them, one after the other. */
  datatype Pieces = End | Piece(ctype: nat, data: seq<byte>, rest: Pieces)

  /** From `pos` to the first IEND, or to where fewer than eight bytes are left. */
  function Scan(png: seq<byte>, pos: nat): Pieces
    decreases |png| - pos
  {
    if pos + 8 > |png| || U32(png, pos + 4) == IEND then End
    else
      var length := U32(png, pos);
      Piece(U32(png, pos + 4), Slice(png, pos + 8, pos + 8 + length), Scan(png, pos + 12 + length))
  }

  /** What the pieces add to what was found before them; None when one of them raises. */
  function Collect(pieces: Pieces, found: Found): Option<Found> {
    match pieces
    case End => Some(found)
    case Piece(ctype, data, rest) =>
      match Note(ctype, data, found)
      case None => None
      case Some(next) => Collect(rest, next)
  }

  method NoteChunk(ctype: nat, chunk: seq<byte>, found: Found) returns (r: Option<Found>)
    ensures r == Note(ctype, chunk, found)
  {
    r := Some(found);
    if ctype == IHDR {
      if |chunk| < 8 {
        return None;
      }
      r := Some(found.(width := U32(chunk, 0), height := U32(chunk, 4)));
    } else if ctype == IDAT {
      r := Some(found.(idat := found.idat + chunk));
    }
  }

  method WalkChunks(png: seq<byte>) returns (r: Option<Found>)
    ensures r == Collect(Scan(png, 8), NOTHING)
  {
    var pos: nat := 8;
    r := Some(NOTHING);
    while pos + 8 <= |png| && U32(png, pos + 4) != IEND
      invariant r.Some? && Collect(Scan(png, pos), r.value) == Collect(Scan(png, 8), NOTHING)
      decreases |png| - pos
    {
      var length := U32(png, pos);
      r := NoteChunk(U32(png, pos + 4), Slice(png, pos + 8, pos + 8 + length), r.value);
      if r.None? {
        return;
      }
      pos := pos + 12 + length;
    }
  }

  /**
   Where a file ends.  With fewer than eight bytes left nothing more is read.  A last chunk whose data reach
   the end of the file, or would go past it, is read with the data there are: image data add to those
   before, a header needs eight bytes or raises, IEND and other types add nothing.
   */
  lemma LastChunk(png: seq<byte>, pos: nat, found: Found)
    ensures |png| < pos + 8 ==> Collect(Scan(png, pos), found) == Some(found)
    ensures pos + 8 <= |png| && |png| <= pos + 8 + U32(png, pos) ==>
              var ctype, data := U32(png, pos + 4), png[pos + 8..];
              Collect(Scan(png, pos), found)
              == if ctype == IHDR then if |data| < 8 then None else Some(Found(U32(data, 0), U32(data, 4), found.idat))
                 else if ctype == IDAT then Some(Found(found.width, found.height, found.idat + data))
                 else Some(found)
  {
    if pos + 8 <= |png| && |png| <= pos + 8 + U32(png, pos) {
      var length := U32(png, pos);
      assert Slice(png, pos + 8, pos + 8 + length) == png[pos + 8..];
      assert Scan(png, pos + 12 + length) == End;
    }
  }

  // ---------------------------------------------------------------- files as lists of chunks

  datatype Chunk = Chunk(ctype: nat, data: seq<byte>, crc: seq<byte>)

  predicate WellFormed(c: Chunk) {
    && c.ctype < MAX_U32 && |c.crc| == 4 && |c.data| < MAX_U32
    && (c.ctype == IHDR ==> |c.data| >= 8)
  }

  predicate AllWellFormed(chunks: seq<Chunk>) {
    forall i :: 0 <= i < |chunks| ==> WellFormed(chunks[i])
  }

  function Encode(c: Chunk): seq<byte>
    requires WellFormed(c)
  {
    Bytes(|c.data|, 4) + Bytes(c.ctype, 4) + c.data + c.crc
  }

  function EncodeAll(chunks: seq<Chunk>): seq<byte>
    requires AllWellFormed(chunks)
  {
    if chunks == [] then [] else Encode(chunks[0]) + EncodeAll(chunks[1..])
  }

  /** The chunks before the first IEND. */
  function BeforeEnd(chunks: seq<Chunk>): seq<Chunk> {
    if chunks == [] || chunks[0].ctype == IEND then [] else [chunks[0]] + BeforeEnd(chunks[1..])
  }

  predicate Ends(chunks: seq<Chunk>) {
    exists i :: 0 <= i < |chunks| && chunks[i].ctype == IEND
  }

  function Payload(chunks: seq<Chunk>): seq<byte> {
    if chunks == [] then [] else (if chunks[0].ctype == IDAT then chunks[0].data else []) + Payload(chunks[1..])
  }

  /** The dimensions of the last IHDR, if any. */
  function Dimensions(chunks: seq<Chunk>): (d: Option<(nat, nat)>)
    requires AllWellFormed(chunks)
  {
    if chunks == [] then None
    else if Dimensions(chunks[1..]).Some? then Dimensions(chunks[1..])
    else if chunks[0].ctype == IHDR then Some((U32(chunks[0].data, 0), U32(chunks[0].data, 4)))
    else None
  }

  /** What a list of chunks adds to what was found before it. */
  function Adds(found: Found, chunks: seq<Chunk>): Found
    requires AllWellFormed(chunks)
  {
    var d := Dimensions(chunks);
    Found(if d.Some? then d.value.0 else found.width, if d.Some? then d.value.1 else found.height,
          found.idat + Payload(chunks))
  }

  /** The chunk can be read at `pos`. */
  predicate ChunkHere(png: seq<byte>, pos: nat, c: Chunk) {
    && pos + 12 + |c.data| <= |png|
    && U32(png, pos) == |c.data| && U32(png, pos + 4) == c.ctype
    && Slice(png, pos + 8, pos + 8 + |c.data|) == c.data
  }

  /** The chunks can be read one after the other from `pos`, and `rest` bytes are left. */
  ghost predicate ChunksHere(png: seq<byte>, pos: nat, chunks: seq<Chunk>, rest: nat)
    decreases |chunks|
  {
    if chunks == [] then pos + rest == |png|
    else ChunkHere(png, pos, chunks[0]) && ChunksHere(png, pos + 12 + |chunks[0].data|, chunks[1..], rest)
  }

  lemma EncodedHeader(c: Chunk, more: seq<byte>)
    requires WellFormed(c)
    ensures var tail, n := Encode(c) + more, |c.data|;
            && |tail| == 12 + n + |more|
            && tail[..4] == Bytes(n, 4) && tail[4..8] == Bytes(c.ctype, 4) && tail[8..8 + n] == c.data && tail[12 + n..] == more
  {
  }

  lemma ChunkAt(png: seq<byte>, pos: nat, c: Chunk, more: seq<byte>)
    requires WellFormed(c) && pos <= |png| && png[pos..] == Encode(c) + more
    ensures ChunkHere(png, pos, c) && png[pos + 12 + |c.data|..] == more
  {
    var n, tail := |c.data|, png[pos..];
    assert |tail| == 12 + n + |more|;
    EncodedHeader(c, more);
    assert png[pos..pos + 4] == tail[..4];
    assert png[pos + 4..pos + 8] == tail[4..8];
    FitsU32(n);
    FitsU32(c.ctype);
    NumberRoundTrip(png, pos, n, 4);
    NumberRoundTrip(png, pos + 4, c.ctype, 4);
    assert png[pos + 8..pos + 8 + n] == tail[8..8 + n];
    assert png[pos + 12 + n..] == tail[12 + n..];
  }

  lemma EncodedFirst(png: seq<byte>, pos: nat, c: Chunk, tail: seq<Chunk>, rest: seq<byte>)
    requires WellFormed(c) && AllWellFormed(tail) && pos <= |png| && png[pos..] == Encode(c) + EncodeAll(tail) + rest
    ensures ChunkHere(png, pos, c) && png[pos + 12 + |c.data|..] == EncodeAll(tail) + rest
  {
    assert Encode(c) + EncodeAll(tail) + rest == Encode(c) + (EncodeAll(tail) + rest);
    ChunkAt(png, pos, c, EncodeAll(tail) + rest);
  }

  lemma {:induction false} EncodedHere(png: seq<byte>, pos: nat, chunks: seq<Chunk>, rest: seq<byte>)
    requires AllWellFormed(chunks) && pos <= |png| && png[pos..] == EncodeAll(chunks) + rest
    ensures ChunksHere(png, pos, chunks, |rest|)
    decreases |chunks|
  {
    if chunks == [] {
    } else {
      EncodedFirst(png, pos, chunks[0], chunks[1..], rest);
      EncodedHere(png, pos + 12 + |chunks[0].data|, chunks[1..], rest);
    }
  }

  lemma BeforeEndKeeps(chunks: seq<Chunk>)
    requires AllWellFormed(chunks)
    ensures AllWellFormed(BeforeEnd(chunks))
  {
    if chunks != [] && chunks[0].ctype != IEND {
      assert AllWellFormed(chunks[1..]);
      BeforeEndKeeps(chunks[1..]);
    }
  }

  function PiecesOf(chunks: seq<Chunk>): Pieces {
    if chunks == [] then End else Piece(chunks[0].ctype, chunks[0].data, PiecesOf(chunks[1..]))
  }

  lemma PiecesOfFirst(c: Chunk, chunks: seq<Chunk>)
    ensures PiecesOf([c] + chunks) == Piece(c.ctype, c.data, PiecesOf(chunks))
  {
    assert ([c] + chunks)[1..] == chunks;
  }

  lemma EndsLater(chunks: seq<Chunk>)
    requires Ends(chunks) && chunks[0].ctype != IEND
    ensures Ends(chunks[1..])
  {
    var i :| 0 <= i < |chunks| && chunks[i].ctype == IEND;
    assert chunks[1..][i - 1].ctype == IEND;
  }

  /** For any chunks readable from `pos`, the walk sees those before the first IEND, whatever follows;
      without an IEND what follows must be too short to be a chunk. */
  lemma {:induction false} PiecesRead(png: seq<byte>, pos: nat, chunks: seq<Chunk>, rest: nat)
    requires ChunksHere(png, pos, chunks, rest) && (Ends(chunks) || rest < 8)
    ensures Scan(png, pos) == PiecesOf(BeforeEnd(chunks))
    decreases |chunks|
  {
    if chunks != [] && chunks[0].ctype != IEND {
      if Ends(chunks) {
        EndsLater(chunks);
      }
      PiecesRead(png, pos + 12 + |chunks[0].data|, chunks[1..], rest);
      PiecesOfFirst(chunks[0], BeforeEnd(chunks[1..]));
    }
  }

  /** Collecting them finds the dimensions of the last IHDR and the joined IDAT data. */
  lemma {:induction false} CollectAdds(chunks: seq<Chunk>, found: Found)
    requires AllWellFormed(chunks)
    ensures Collect(PiecesOf(chunks), found) == Some(Adds(found, chunks))
  {
    if chunks == [] {
      assert found.idat + [] == found.idat;
    } else {
      var c, tail := chunks[0], chunks[1..];
      CollectAdds(tail, Note(c.ctype, c.data, found).value);
      assert found.idat + (c.data + Payload(tail)) == found.idat + c.data + Payload(tail);
      assert [] + Payload(tail) == Payload(tail);
    }
  }

  /** The reader's result on any file made of chunks. */
  lemma WalkReads(signature: seq<byte>, chunks: seq<Chunk>, rest: seq<byte>)
    requires |signature| == 8 && AllWellFormed(chunks) && (Ends(chunks) || |rest| < 8)
    ensures AllWellFormed(BeforeEnd(chunks))
    ensures Collect(Scan(signature + (EncodeAll(chunks) + rest), 8), NOTHING) == Some(Adds(NOTHING, BeforeEnd(chunks)))
  {
    var png := signature + (EncodeAll(chunks) + rest);
    assert png[8..] == EncodeAll(chunks) + rest;
    EncodedHere(png, 8, chunks, rest);
    PiecesRead(png, 8, chunks, |rest|);
    BeforeEndKeeps(chunks);
    CollectAdds(BeforeEnd(chunks), NOTHING);
  }

  // ---------------------------------------------------------------- the centre pixel

  /** Terrarium elevation in metres. */
  function Terrarium(r: byte, g: byte, b: byte): real {
    r as real * 256.0 + g as real + b as real / 256.0 - 32768.0
  }

  function Rgb(r: byte, g: byte, b: byte): int {
    r as int * 0x1_0000 + g as int * 0x100 + b as int
  }

  lemma TerrariumScaled(r: byte, g: byte, b: byte)
    ensures Terrarium(r, g, b) == Rgb(r, g, b) as real / 256.0 - 32768.0
  {
  }

  lemma RgbInjective(r: byte, g: byte, b: byte, r': byte, g': byte, b': byte)
    ensures Rgb(r, g, b) == Rgb(r', g', b') <==> r == r' && g == g' && b == b'
    ensures 0 <= Rgb(r, g, b) < 0x100_0000
  {
  }

  /** Distinct colours are distinct elevations, from -32768 up to 32768. */
  lemma TerrariumInjective(r: byte, g: byte, b: byte, r': byte, g': byte, b': byte)
    ensures Terrarium(r, g, b) == Terrarium(r', g', b') <==> r == r' && g == g' && b == b'
    ensures -32768.0 <= Terrarium(r, g, b) < 32768.0
  {
    TerrariumScaled(r, g, b);
    TerrariumScaled(r', g', b');
    RgbInjective(r, g, b, r', g', b');
  }

  /** Offset of the centre pixel in scanlines of one filter byte and `width` pixels of three bytes. */
  function CentreOffset(width: nat, height: nat): nat {
    height / 2 * (1 + width * 3) + 1 + width / 2 * 3
  }

  type Inflate = seq<byte> -> Option<seq<byte>>

  /** The fallback branch of `_decode_png_center`, once the walk is done. */
  function Centre(found: Option<Found>, inflate: Inflate): Option<real> {
    if found.None? then None
    else if found.value.idat == [] || found.value.width == 0 || found.value.height == 0 then None
    else
      match inflate(found.value.idat)
      case None => None
      case Some(raw) =>
        var i := CentreOffset(found.value.width, found.value.height);
        if i + 2 < |raw| then Some(Terrarium(raw[i], raw[i + 1], raw[i + 2])) else None
  }

  method DecodeFallback(png: seq<byte>, inflate: Inflate) returns (elevation: Option<real>)
    ensures elevation == Centre(Collect(Scan(png, 8), NOTHING), inflate)
  {
    var found := WalkChunks(png);
    if found.None? || found.value.idat == [] || found.value.width == 0 || found.value.height == 0 {
      return None;
    }
    var raw := inflate(found.value.idat);
    if raw.None? {
      return None;
    }
    var i := CentreOffset(found.value.width, found.value.height);
    if i + 2 >= |raw.value| {
      return None;
    }
    elevation := Some(Terrarium(raw.value[i], raw.value[i + 1], raw.value[i + 2]));
  }

  /** A decoded image, as the imaging library gives it. */
  datatype Image = Image(width: nat, height: nat, pixel: (nat, nat) -> (byte, byte, byte))

  function Elevation(colour: (byte, byte, byte)): real { Terrarium(colour.0, colour.1, colour.2) }

  datatype DecodeError = LibraryRaised

  /**
   `_decode_png_center`: the imaging library when it can be imported, the fallback otherwise.  Only a
   failing import is caught, so a library that cannot open the bytes, or opens an image without
   pixels, raises to the caller, while the fallback answers None.
   */
  method DecodeCentre(png: seq<byte>, library: Option<seq<byte> -> Option<Image>>, inflate: Inflate)
    returns (r: Result<Option<real>, DecodeError>)
    ensures library.None? ==> r == Success(Centre(Collect(Scan(png, 8), NOTHING), inflate))
    ensures library.Some? ==>
              var image := library.value(png);
              r == if image.None? || image.value.width == 0 || image.value.height == 0 then Failure(LibraryRaised)
                   else Success(Some(Elevation(image.value.pixel(image.value.height / 2, image.value.width / 2))))
  {
    if library.None? {
      var elevation := DecodeFallback(png, inflate);
      return Success(elevation);
    }
    var image := library.value(png);
    if image.None? || image.value.width == 0 || image.value.height == 0 {
      return Failure(LibraryRaised);
    }
    var (red, green, blue) := image.value.pixel(image.value.height / 2, image.value.width / 2);
    r := Success(Some(Terrarium(red, green, blue)));
  }

  /** The offset is within `height` scanlines, in row `height / 2`, past its filter byte, at pixel `width / 2`. */
  lemma CentreInBounds(width: nat, height: nat)
    requires width > 0 && height > 0
    ensures var i, row := CentreOffset(width, height), 1 + 3 * width;
            i + 2 < height * row && i / row == height / 2 && i % row == 1 + 3 * (width / 2)
  {
    var row, cy, within := 1 + 3 * width, height / 2, 1 + 3 * (width / 2);
    MulStep(cy, height, row);
    assert within + 2 < row;
    DivMod(cy, row, within);
  }

  /** Signature, IHDR, further chunks of other kinds, IEND, and anything after it. */
  function ImageFile(signature: seq<byte>, header: Chunk, middle: seq<Chunk>, end: Chunk, rest: seq<byte>): seq<byte>
    requires WellFormed(header) && AllWellFormed(middle) && WellFormed(end)
  {
    signature + (EncodeAll([header] + (middle + [end])) + rest)
  }

  ghost predicate IsImage(header: Chunk, middle: seq<Chunk>, end: Chunk) {
    && WellFormed(header) && header.ctype == IHDR && AllWellFormed(middle) && WellFormed(end) && end.ctype == IEND
    && forall i :: 0 <= i < |middle| ==> middle[i].ctype != IHDR && middle[i].ctype != IEND
  }

  /** The walk recovers the dimensions of the IHDR and the joined IDAT data of the image. */
  lemma WalksImage(signature: seq<byte>, header: Chunk, middle: seq<Chunk>, end: Chunk, rest: seq<byte>)
    requires |signature| == 8 && IsImage(header, middle, end)
    ensures Collect(Scan(ImageFile(signature, header, middle, end, rest), 8), NOTHING)
            == Some(Found(U32(header.data, 0), U32(header.data, 4), Payload(middle)))
  {
    var chunks := [header] + (middle + [end]);
    assert chunks[|chunks| - 1] == end;
    WalkReads(signature, chunks, rest);
    assert chunks[1..] == middle + [end];
    MiddleBeforeEnd(middle, end);
    assert ([header] + middle)[1..] == middle;
    assert [] + ([] + Payload(middle)) == Payload(middle);
  }

  /** The scanlines of an image: one filter byte and three bytes a pixel in each row, or more. */
  predicate Complete(raw: seq<byte>, width: nat, height: nat) { |raw| >= height * (1 + 3 * width) }

  /** The elevation is that of the three bytes at the centre. */
  predicate IsCentre(elevation: Option<real>, raw: seq<byte>, width: nat, height: nat) {
    var i := CentreOffset(width, height);
    i + 2 < |raw| && elevation == Some(Terrarium(raw[i], raw[i + 1], raw[i + 2]))
  }

  lemma CentreReads(found: Option<Found>, inflate: Inflate, raw: seq<byte>)
    requires found.Some? && found.value.width > 0 && found.value.height > 0 && found.value.idat != []
    requires inflate(found.value.idat) == Some(raw) && Complete(raw, found.value.width, found.value.height)
    ensures IsCentre(Centre(found, inflate), raw, found.value.width, found.value.height)
  {
    CentreInBounds(found.value.width, found.value.height);
  }

  /** The elevation read is that of the centre pixel, once the data decompress to `height` scanlines or more. */
  lemma DecodesImage(signature: seq<byte>, header: Chunk, middle: seq<Chunk>, end: Chunk, rest: seq<byte>,
                     inflate: Inflate, raw: seq<byte>)
    requires |signature| == 8 && IsImage(header, middle, end) && Payload(middle) != []
    requires inflate(Payload(middle)) == Some(raw)
    requires var width, height := U32(header.data, 0), U32(header.data, 4);
             width > 0 && height > 0 && Complete(raw, width, height)
    ensures var png := ImageFile(signature, header, middle, end, rest);
            IsCentre(Centre(Collect(Scan(png, 8), NOTHING), inflate), raw, U32(header.data, 0), U32(header.data, 4))
  {
    WalksImage(signature, header, middle, end, rest);
    CentreReads(Collect(Scan(ImageFile(signature, header, middle, end, rest), 8), NOTHING), inflate, raw);
  }

  /** On such an image the fallback agrees with the imaging library if and only if the bytes at the centre
      are the pixel's colour, as they are in an unfiltered row. */
  lemma ReadersAgree(elevation: Option<real>, raw: seq<byte>, width: nat, height: nat, colour: (byte, byte, byte))
    requires IsCentre(elevation, raw, width, height)
    ensures var i := CentreOffset(width, height);
            elevation == Some(Elevation(colour)) <==> (raw[i], raw[i + 1], raw[i + 2]) == colour
  {
    var i := CentreOffset(width, height);
    TerrariumInjective(raw[i], raw[i + 1], raw[i + 2], colour.0, colour.1, colour.2);
  }

  lemma {:induction false} MiddleBeforeEnd(middle: seq<Chunk>, end: Chunk)
    requires AllWellFormed(middle) && end.ctype == IEND
    requires forall i :: 0 <= i < |middle| ==> middle[i].ctype != IHDR && middle[i].ctype != IEND
    ensures BeforeEnd(middle + [end]) == middle && Dimensions(middle) == None
  {
    if middle == [] {
    } else {
      MiddleBeforeEnd(middle[1..], end);
      assert (middle + [end])[1..] == middle[1..] + [end];
    }
  }
}
