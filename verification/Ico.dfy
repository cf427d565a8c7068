/**
 The icon writer (assets/icon/render.py): DIB frames and the ICO container, with a reader that follows
 the directory. `struct.pack` refuses a number its field cannot hold; so does the model.
 */
module Ico {
  import opened Wrappers
  import opened Sequences

  type Byte = n: nat | n < 256

  datatype Pixel = Pixel(r: Byte, g: Byte, b: Byte, a: Byte)

  /** `rows` from the top; every row is `width` pixels. */
  datatype Image = Image(width: nat, rows: seq<seq<Pixel>>)

  predicate ValidImage(img: Image) {
    forall y :: 0 <= y < |img.rows| ==> |img.rows[y]| == img.width
  }

  // ---------------------------------------------------------------------------
  // Little-endian fields
  // ---------------------------------------------------------------------------

  function Power(k: nat): nat {
    if k == 0 then 1 else 256 * Power(k - 1)
  }

  /** The `k` low octets of a number, lowest first. */
  function Little(n: nat, k: nat): (s: seq<Byte>)
    ensures |s| == k
  {
    if k == 0 then [] else [n % 256] + Little(n / 256, k - 1)
  }

  function ReadLittle(s: seq<Byte>): nat {
    if s == [] then 0 else s[0] + 256 * ReadLittle(s[1..])
  }

  lemma {:induction false} LittleRoundTrip(n: nat, k: nat)
    requires n < Power(k)
    ensures ReadLittle(Little(n, k)) == n
    decreases k
  {
    if k > 0 {
      LittleRoundTrip(n / 256, k - 1);
      assert Little(n, k)[1..] == Little(n / 256, k - 1);
    }
  }

  const MAX16: nat := 0x1_0000
  const MAX32: nat := 0x1_0000_0000

  lemma Powers()
    ensures Power(2) == MAX16 && Power(4) == MAX32
  {
    assert Power(3) == 256 * Power(2) && Power(4) == 256 * Power(3);
  }

  /** The field at a position. */
  function Field(file: seq<Byte>, at: nat, k: nat): nat
    requires at + k <= |file|
  {
    ReadLittle(file[at..at + k])
  }

  // ---------------------------------------------------------------------------
  // A DIB frame
  // ---------------------------------------------------------------------------

  function Bgra(p: Pixel): seq<Byte> {
    [p.b, p.g, p.r, p.a]
  }

  function RowBytes(row: seq<Pixel>): (s: seq<Byte>)
    ensures |s| == 4 * |row|
  {
    if row == [] then [] else RowBytes(row[..|row| - 1]) + Bgra(row[|row| - 1])
  }

  /** The rows from the bottom up. */
  function BottomUp(rows: seq<seq<Pixel>>): seq<Byte> {
    if rows == [] then [] else BottomUp(rows[1..]) + RowBytes(rows[0])
  }

  /** Octets in a row of the mask: a bit a pixel, padded to four octets. */
  function MaskRow(width: nat): nat {
    (width + 31) / 32 * 4
  }

  function Zeros(n: nat): (s: seq<Byte>)
    ensures |s| == n
  {
    seq(n, i => 0)
  }

  /** Its own size, the width, and the height of the pixels and the mask together. */
  function HeaderSizes(width: nat, height: nat): (s: seq<Byte>)
    ensures |s| == 12
  {
    Little(40, 4) + Little(width, 4) + Little(height * 2, 4)
  }

  /** One plane of 32 bits, not compressed. */
  function HeaderFormat(): (s: seq<Byte>)
    ensures |s| == 8
  {
    Little(1, 2) + Little(32, 2) + Little(0, 4)
  }

  /** The size of the rest, and four fields left at 0. */
  function HeaderRest(size: nat): (s: seq<Byte>)
    ensures |s| == 20
  {
    Little(size, 4) + Little(0, 4) + Little(0, 4) + Little(0, 4) + Little(0, 4)
  }

  function DibHeader(width: nat, height: nat, size: nat): (s: seq<Byte>)
    ensures |s| == 40
  {
    HeaderSizes(width, height) + HeaderFormat() + HeaderRest(size)
  }

  function DibBody(img: Image): seq<Byte> {
    BottomUp(img.rows) + Zeros(MaskRow(img.width) * |img.rows|)
  }

  /** The header's fields can hold the numbers; its width and height are signed. */
  predicate DibFits(img: Image) {
    img.width < MAX32 / 2 && |img.rows| * 2 < MAX32 / 2 && |DibBody(img)| < MAX32
  }

  function DibOf(img: Image): seq<Byte> {
    DibHeader(img.width, |img.rows|, |DibBody(img)|) + DibBody(img)
  }

  /** One row, from left to right. */
  method AppendRow(xor: seq<Byte>, row: seq<Pixel>) returns (more: seq<Byte>)
    ensures more == xor + RowBytes(row)
  {
    more := xor;
    var x := 0;
    while x < |row|
      invariant 0 <= x <= |row|
      invariant more == xor + RowBytes(row[..x])
    {
      assert row[..x + 1][..x] == row[..x];
      more := more + Bgra(row[x]);
      x := x + 1;
    }
    assert row[..x] == row;
  }

  /** `_dib`. */
  method Dib(img: Image) returns (dib: Option<seq<Byte>>)
    requires ValidImage(img)
    ensures dib == if DibFits(img) then Some(DibOf(img)) else None
  {
    var xor: seq<Byte> := [];
    var y := |img.rows|;
    while y > 0
      invariant 0 <= y <= |img.rows|
      invariant xor == BottomUp(img.rows[y..])
    {
      y := y - 1;
      assert img.rows[y..][1..] == img.rows[y + 1..];
      xor := AppendRow(xor, img.rows[y]);
    }
    assert img.rows[0..] == img.rows;
    var mask := Zeros(MaskRow(img.width) * |img.rows|);
    var size := |xor| + |mask|;
    if img.width >= MAX32 / 2 || |img.rows| * 2 >= MAX32 / 2 || size >= MAX32 {
      return None;
    }
    return Some(DibHeader(img.width, |img.rows|, size) + (xor + mask));
  }

  lemma {:induction false} RowBytesAt(row: seq<Pixel>, x: nat)
    requires x < |row|
    ensures RowBytes(row)[4 * x..4 * x + 4] == Bgra(row[x])
    decreases |row|
  {
    var last := |row| - 1;
    if x < last {
      RowBytesAt(row[..last], x);
      assert RowBytes(row)[4 * x..4 * x + 4] == RowBytes(row[..last])[4 * x..4 * x + 4];
    }
  }

  /** The length of `k` rows. */
  function Rows(k: nat, stride: nat): nat {
    if k == 0 then 0 else Rows(k - 1, stride) + stride
  }

  lemma {:induction false} RowsIsProduct(k: nat, stride: nat)
    ensures Rows(k, stride) == k * stride
    decreases k
  {
    if k > 0 {
      RowsIsProduct(k - 1, stride);
      assert k * stride == (k - 1) * stride + stride;
    }
  }

  predicate Even(rows: seq<seq<Pixel>>, width: nat) {
    forall y :: 0 <= y < |rows| ==> |rows[y]| == width
  }

  lemma {:induction false} BottomUpLength(rows: seq<seq<Pixel>>, width: nat)
    requires Even(rows, width)
    ensures |BottomUp(rows)| == Rows(|rows|, 4 * width)
    decreases |rows|
  {
    if rows != [] {
      BottomUpLength(rows[1..], width);
    }
  }

  /** Row `y` of `h` lies below `h - 1 - y` others. */
  lemma {:induction false} BottomUpAt(rows: seq<seq<Pixel>>, width: nat, y: nat)
    requires y < |rows| && Even(rows, width)
    ensures var at := Rows(|rows| - 1 - y, 4 * width);
      at + 4 * width <= |BottomUp(rows)| && BottomUp(rows)[at..at + 4 * width] == RowBytes(rows[y])
    decreases |rows|
  {
    BottomUpLength(rows[1..], width);
    var below := BottomUp(rows[1..]);
    if y > 0 {
      BottomUpAt(rows[1..], width, y - 1);
      Prefixed(below, RowBytes(rows[0]), Rows(|rows| - 1 - y, 4 * width), 4 * width);
    }
  }

  lemma Prefixed(s: seq<Byte>, t: seq<Byte>, at: nat, n: nat)
    requires at + n <= |s|
    ensures (s + t)[at..at + n] == s[at..at + n]
  {
  }

  lemma SubSlice(s: seq<Byte>, at: nat, row: seq<Byte>, x: nat)
    requires at + |row| <= |s| && s[at..at + |row|] == row && x + 4 <= |row|
    ensures s[at + x..at + x + 4] == row[x..x + 4]
  {
    var found, wanted := s[at + x..at + x + 4], row[x..x + 4];
    forall i | 0 <= i < 4
      ensures found[i] == wanted[i]
    {
      assert s[at..at + |row|][x + i] == s[at + x + i];
    }
  }

  lemma Inside(header: seq<Byte>, pixels: seq<Byte>, mask: seq<Byte>, at: nat)
    requires at + 4 <= |pixels|
    ensures (header + (pixels + mask))[|header| + at..|header| + at + 4] == pixels[at..at + 4]
  {
  }

  lemma PixelInRow(s: seq<Byte>, at: nat, row: seq<Byte>, width: nat, x: nat)
    requires |row| == 4 * width && x < width && at + 4 * width <= |s| && s[at..at + 4 * width] == row
    ensures s[at + 4 * x..at + 4 * x + 4] == row[4 * x..4 * x + 4]
  {
    SubSlice(s, at, row, 4 * x);
  }

  lemma PixelInRows(rows: seq<seq<Pixel>>, width: nat, x: nat, y: nat)
    requires Even(rows, width) && x < width && y < |rows|
    ensures var at := Rows(|rows| - 1 - y, 4 * width) + 4 * x;
      at + 4 <= |BottomUp(rows)| && BottomUp(rows)[at..at + 4] == Bgra(rows[y][x])
  {
    BottomUpAt(rows, width, y);
    RowBytesAt(rows[y], x);
    PixelInRow(BottomUp(rows), Rows(|rows| - 1 - y, 4 * width), RowBytes(rows[y]), width, x);
  }

  /** Every pixel is found, blue first, in its bottom-up place. */
  lemma PixelIsRecovered(img: Image, x: nat, y: nat)
    requires ValidImage(img) && x < img.width && y < |img.rows|
    ensures var at := 40 + (|img.rows| - 1 - y) * (4 * img.width) + 4 * x;
      var dib, p := DibOf(img), img.rows[y][x];
      0 <= at && at + 4 <= |dib| && dib[at] == p.b && dib[at + 1] == p.g && dib[at + 2] == p.r && dib[at + 3] == p.a
  {
    var w, h := img.width, |img.rows|;
    PixelInRows(img.rows, w, x, y);
    RowsIsProduct(h - 1 - y, 4 * w);
    var header := DibHeader(w, h, |DibBody(img)|);
    Inside(header, BottomUp(img.rows), Zeros(MaskRow(w) * h), Rows(h - 1 - y, 4 * w) + 4 * x);
    FourOctets(DibOf(img), 40 + Rows(h - 1 - y, 4 * w) + 4 * x, img.rows[y][x]);
  }

  /** Blue, green, red, alpha. */
  lemma FourOctets(s: seq<Byte>, at: nat, p: Pixel)
    requires at + 4 <= |s| && s[at..at + 4] == Bgra(p)
    ensures s[at] == p.b && s[at + 1] == p.g && s[at + 2] == p.r && s[at + 3] == p.a
  {
    var four := s[at..at + 4];
    assert four[0] == s[at] && four[1] == s[at + 1] && four[2] == s[at + 2] && four[3] == s[at + 3];
  }

  lemma MaskRowPadding(width: nat)
    ensures MaskRow(width) % 4 == 0 && width <= 8 * MaskRow(width) < width + 32
  {
  }

  /** The header says what follows it: the size of the rest, which is the pixels and a mask of whole rows. */
  lemma DibLayout(img: Image)
    requires ValidImage(img) && DibFits(img)
    ensures var dib, w, h := DibOf(img), img.width, |img.rows|;
      && |dib| >= 40
      && Field(dib, 0, 4) == 40 && Field(dib, 4, 4) == w && Field(dib, 8, 4) == 2 * h
      && Field(dib, 20, 4) == |dib| - 40
      && |dib| - 40 == h * (4 * w) + MaskRow(w) * h
      && MaskRow(w) % 4 == 0 && w <= 8 * MaskRow(w) < w + 32
      && dib[40 + h * (4 * w)..] == Zeros(MaskRow(w) * h)
  {
    var w, h, size := img.width, |img.rows|, |DibBody(img)|;
    BottomUpLength(img.rows, w);
    RowsIsProduct(h, 4 * w);
    HeaderFields(w, h, size, DibBody(img));
    MaskRowPadding(w);
    Rest(DibHeader(w, h, size), BottomUp(img.rows), Zeros(MaskRow(w) * h));
  }

  lemma Rest(header: seq<Byte>, pixels: seq<Byte>, mask: seq<Byte>)
    ensures (header + (pixels + mask))[|header| + |pixels|..] == mask
  {
  }

  lemma HeaderFields(width: nat, height: nat, size: nat, body: seq<Byte>)
    requires width < MAX32 && height * 2 < MAX32 && size < MAX32
    ensures var dib := DibHeader(width, height, size) + body;
      && |dib| >= 40 && Field(dib, 0, 4) == 40 && Field(dib, 4, 4) == width
      && Field(dib, 8, 4) == 2 * height && Field(dib, 20, 4) == size
  {
    var dib := DibHeader(width, height, size) + body;
    Powers();
    LittleRoundTrip(40, 4);
    LittleRoundTrip(width, 4);
    LittleRoundTrip(height * 2, 4);
    LittleRoundTrip(size, 4);
    SizesAt(width, height);
    RestAt(size);
    InParts(HeaderSizes(width, height), HeaderFormat(), HeaderRest(size), body);
    assert dib[0..12][0..4] == dib[0..4] && dib[0..12][4..8] == dib[4..8] && dib[0..12][8..12] == dib[8..12];
    assert dib[20..40][0..4] == dib[20..24];
  }

  lemma SizesAt(width: nat, height: nat)
    ensures var s := HeaderSizes(width, height);
      s[0..4] == Little(40, 4) && s[4..8] == Little(width, 4) && s[8..12] == Little(height * 2, 4)
  {
  }

  lemma RestAt(size: nat)
    ensures HeaderRest(size)[0..4] == Little(size, 4)
  {
  }

  lemma InParts(a: seq<Byte>, b: seq<Byte>, c: seq<Byte>, body: seq<Byte>)
    requires |a| == 12 && |b| == 8 && |c| == 20
    ensures (a + b + c + body)[0..12] == a && (a + b + c + body)[20..40] == c
  {
  }

  // ---------------------------------------------------------------------------
  // The container
  // ---------------------------------------------------------------------------

  function Entry(img: Image, size: nat, offset: nat): seq<Byte> {
    [img.width % 256, |img.rows| % 256, 0, 0] + Little(1, 2) + Little(32, 2) + Little(size, 4) + Little(offset, 4)
  }

  /** The entries of the first `n` frames, each blob behind the one before it. */
  function Directory(frames: seq<Image>, blobs: seq<seq<Byte>>, n: nat): (s: seq<Byte>)
    requires |frames| == |blobs| && n <= |frames|
    ensures |s| == 16 * n
  {
    if n == 0 then []
    else Directory(frames, blobs, n - 1) + Entry(frames[n - 1], |blobs[n - 1]|, Start(|frames|) + Reach(blobs, n - 1))
  }

  function Concat(blobs: seq<seq<Byte>>): seq<Byte> {
    if blobs == [] then [] else blobs[0] + Concat(blobs[1..])
  }

  /** How far the first `i` blobs reach. */
  function Reach(blobs: seq<seq<Byte>>, i: nat): nat
    requires i <= |blobs|
  {
    if i == 0 then 0 else |blobs[0]| + Reach(blobs[1..], i - 1)
  }

  function Start(n: nat): nat {
    6 + 16 * n
  }

  function IcoHeader(n: nat): (s: seq<Byte>)
    ensures |s| == 6
  {
    Little(0, 2) + Little(1, 2) + Little(n, 2)
  }

  function IcoOf(frames: seq<Image>, blobs: seq<seq<Byte>>): seq<Byte>
    requires |frames| == |blobs|
  {
    Assembled(IcoHeader(|frames|), Directory(frames, blobs, |frames|), Concat(blobs))
  }

  function Assembled(header: seq<Byte>, directory: seq<Byte>, body: seq<Byte>): seq<Byte> {
    header + directory + body
  }

  /** Every size and every offset fits its field. */
  predicate EntriesFit(blobs: seq<seq<Byte>>) {
    forall i :: 0 <= i < |blobs| ==> EntryFits(blobs, i)
  }

  predicate EntryFits(blobs: seq<seq<Byte>>, i: nat)
    requires i < |blobs|
  {
    |blobs[i]| < MAX32 && Start(|blobs|) + Reach(blobs, i) < MAX32
  }

  predicate IsDib(img: Image) {
    img.width < 256
  }

  function BlobOf(img: Image, png: Image -> seq<Byte>): seq<Byte> {
    if IsDib(img) then DibOf(img) else png(img)
  }

  function BlobsOf(frames: seq<Image>, png: Image -> seq<Byte>): (blobs: seq<seq<Byte>>)
    ensures |blobs| == |frames|
  {
    if frames == [] then [] else BlobsOf(frames[..|frames| - 1], png) + [BlobOf(frames[|frames| - 1], png)]
  }

  predicate FramesFit(frames: seq<Image>) {
    forall i :: 0 <= i < |frames| ==> IsDib(frames[i]) ==> DibFits(frames[i])
  }

  method Blobs(frames: seq<Image>, png: Image -> seq<Byte>) returns (blobs: Option<seq<seq<Byte>>>)
    requires forall i :: 0 <= i < |frames| ==> ValidImage(frames[i])
    ensures blobs == if FramesFit(frames) then Some(BlobsOf(frames, png)) else None
  {
    var made: seq<seq<Byte>> := [];
    var i := 0;
    while i < |frames|
      invariant 0 <= i <= |frames|
      invariant made == BlobsOf(frames[..i], png)
      invariant forall j :: 0 <= j < i ==> IsDib(frames[j]) ==> DibFits(frames[j])
    {
      assert frames[..i + 1][..i] == frames[..i];
      if frames[i].width >= 256 {
        made := made + [png(frames[i])];
      } else {
        var dib := Dib(frames[i]);
        if dib.None? {
          return None;
        }
        made := made + [dib.value];
      }
      i := i + 1;
    }
    assert frames[..i] == frames;
    return Some(made);
  }

  /** The entries of `write_ico`, with its running offset. */
  method WriteEntries(frames: seq<Image>, blobs: seq<seq<Byte>>) returns (out: Option<seq<Byte>>)
    requires |frames| == |blobs|
    ensures out == if EntriesFit(blobs) then Some(Directory(frames, blobs, |frames|)) else None
  {
    var written, offset, i := [], Start(|frames|), 0;
    while i < |frames|
      invariant 0 <= i <= |frames|
      invariant offset == Start(|frames|) + Reach(blobs, i)
      invariant written == Directory(frames, blobs, i)
      invariant forall j :: 0 <= j < i ==> EntryFits(blobs, j)
    {
      if |blobs[i]| >= MAX32 || offset >= MAX32 {
        assert !EntryFits(blobs, i);
        return None;
      }
      assert EntryFits(blobs, i);
      ReachStep(blobs, i);
      written := written + Entry(frames[i], |blobs[i]|, offset);
      offset := offset + |blobs[i]|;
      i := i + 1;
    }
    return Some(written);
  }

  lemma {:induction false} ReachStep(blobs: seq<seq<Byte>>, i: nat)
    requires i < |blobs|
    ensures Reach(blobs, i + 1) == Reach(blobs, i) + |blobs[i]|
    decreases i
  {
    if i > 0 {
      ReachStep(blobs[1..], i - 1);
    }
  }

  /** The blobs one after another. */
  method WriteBlobs(blobs: seq<seq<Byte>>) returns (out: seq<Byte>)
    ensures out == Concat(blobs)
  {
    out := [];
    var i := 0;
    assert blobs[0..] == blobs;
    while i < |blobs|
      invariant 0 <= i <= |blobs|
      invariant out + Concat(blobs[i..]) == Concat(blobs)
    {
      assert blobs[i..][1..] == blobs[i + 1..];
      Regroup(out, blobs[i], Concat(blobs[i + 1..]));
      out := out + blobs[i];
      i := i + 1;
    }
    assert out + [] == out;
  }

  /** `write_ico`, up to the bytes it writes; `None` where `struct.pack` raises. */
  method WriteIco(frames: seq<Image>, png: Image -> seq<Byte>) returns (file: Option<seq<Byte>>)
    requires forall i :: 0 <= i < |frames| ==> ValidImage(frames[i])
    ensures file.Some? <==> FramesFit(frames) && |frames| < MAX16 && EntriesFit(BlobsOf(frames, png))
    ensures file.Some? ==> file.value == IcoOf(frames, BlobsOf(frames, png))
  {
    var blobs := Blobs(frames, png);
    if blobs.None? || |frames| >= MAX16 {
      return None;
    }
    var entries := WriteEntries(frames, blobs.value);
    if entries.None? {
      return None;
    }
    var body := WriteBlobs(blobs.value);
    return Some(IcoHeader(|frames|) + entries.value + body);
  }

  // ---------------------------------------------------------------------------
  // Reading it back by its directory
  // ---------------------------------------------------------------------------

  lemma {:induction false} DirectoryAt(frames: seq<Image>, blobs: seq<seq<Byte>>, n: nat, i: nat)
    requires |frames| == |blobs| && i < n <= |frames|
    ensures Directory(frames, blobs, n)[16 * i..16 * i + 16] == Entry(frames[i], |blobs[i]|, Start(|frames|) + Reach(blobs, i))
    decreases n
  {
    var entry := Entry(frames[n - 1], |blobs[n - 1]|, Start(|frames|) + Reach(blobs, n - 1));
    if i < n - 1 {
      DirectoryAt(frames, blobs, n - 1, i);
      Prefixed(Directory(frames, blobs, n - 1), entry, 16 * i, 16);
    }
  }

  lemma After(s: seq<Byte>, t: seq<Byte>, at: nat, n: nat)
    requires at + n <= |t|
    ensures (s + t)[|s| + at..|s| + at + n] == t[at..at + n]
  {
  }

  lemma {:induction false} ConcatAt(blobs: seq<seq<Byte>>, i: nat)
    requires i < |blobs|
    ensures Reach(blobs, i) + |blobs[i]| <= |Concat(blobs)|
    ensures Concat(blobs)[Reach(blobs, i)..Reach(blobs, i) + |blobs[i]|] == blobs[i]
    decreases i
  {
    if i > 0 {
      ConcatAt(blobs[1..], i - 1);
      After(blobs[0], Concat(blobs[1..]), Reach(blobs[1..], i - 1), |blobs[i]|);
    }
  }

  lemma {:induction false} ConcatLength(blobs: seq<seq<Byte>>)
    ensures |Concat(blobs)| == Reach(blobs, |blobs|)
    decreases |blobs|
  {
    if blobs != [] {
      ConcatLength(blobs[1..]);
    }
  }

  function SizeField(file: seq<Byte>, i: nat): nat
    requires Start(i + 1) <= |file|
  {
    Field(file, Start(i) + 8, 4)
  }

  function OffsetField(file: seq<Byte>, i: nat): nat
    requires Start(i + 1) <= |file|
  {
    Field(file, Start(i) + 12, 4)
  }

  lemma EntryFields(file: seq<Byte>, at: nat, img: Image, size: nat, offset: nat)
    requires at + 16 <= |file| && file[at..at + 16] == Entry(img, size, offset) && size < MAX32 && offset < MAX32
    ensures Field(file, at + 8, 4) == size && Field(file, at + 12, 4) == offset
    ensures file[at] == img.width % 256 && file[at + 1] == |img.rows| % 256
  {
    var entry := file[at..at + 16];
    Powers();
    LittleRoundTrip(size, 4);
    LittleRoundTrip(offset, 4);
    assert entry[8..12] == Little(size, 4) && entry[12..16] == Little(offset, 4);
    SubSlice(file, at, entry, 8);
    SubSlice(file, at, entry, 12);
    assert file[at] == entry[0] && file[at + 1] == entry[1];
  }

  lemma IcoLength(frames: seq<Image>, blobs: seq<seq<Byte>>)
    requires |frames| == |blobs|
    ensures |IcoOf(frames, blobs)| == Start(|frames|) + Reach(blobs, |blobs|)
  {
    ConcatLength(blobs);
  }

  lemma EntryIsFound(frames: seq<Image>, blobs: seq<seq<Byte>>, i: nat)
    requires |frames| == |blobs| && i < |frames|
    ensures Start(i) + 16 <= |IcoOf(frames, blobs)|
    ensures IcoOf(frames, blobs)[Start(i)..Start(i) + 16] == Entry(frames[i], |blobs[i]|, Start(|frames|) + Reach(blobs, i))
  {
    var start := Start(|frames|);
    DirectoryAt(frames, blobs, |frames|, i);
    EntryInFile(IcoHeader(|frames|), Directory(frames, blobs, |frames|), Concat(blobs), i,
                Entry(frames[i], |blobs[i]|, start + Reach(blobs, i)));
  }

  lemma EntryInFile(header: seq<Byte>, directory: seq<Byte>, body: seq<Byte>, i: nat, entry: seq<Byte>)
    requires |header| == 6 && 16 * i + 16 <= |directory| && directory[16 * i..16 * i + 16] == entry
    ensures Start(i) + 16 <= |Assembled(header, directory, body)|
    ensures Assembled(header, directory, body)[Start(i)..Start(i) + 16] == entry
  {
    Between(header, directory, body, 16 * i, 16);
  }

  lemma Between(s: seq<Byte>, t: seq<Byte>, u: seq<Byte>, at: nat, n: nat)
    requires at + n <= |t|
    ensures |s| + at + n <= |s + t + u| && (s + t + u)[|s| + at..|s| + at + n] == t[at..at + n]
  {
  }

  lemma BlobIsFound(frames: seq<Image>, blobs: seq<seq<Byte>>, i: nat)
    requires |frames| == |blobs| && i < |frames|
    ensures var at := Start(|frames|) + Reach(blobs, i);
      at + |blobs[i]| <= |IcoOf(frames, blobs)| && IcoOf(frames, blobs)[at..at + |blobs[i]|] == blobs[i]
  {
    ConcatAt(blobs, i);
    After(IcoHeader(|frames|) + Directory(frames, blobs, |frames|), Concat(blobs), Reach(blobs, i), |blobs[i]|);
  }

  lemma EntryReads(frames: seq<Image>, blobs: seq<seq<Byte>>, i: nat)
    requires |frames| == |blobs| && i < |frames|
    requires EntryFits(blobs, i)
    ensures var file := IcoOf(frames, blobs);
      && Start(i + 1) <= |file|
      && SizeField(file, i) == |blobs[i]| && OffsetField(file, i) == Start(|frames|) + Reach(blobs, i)
      && file[Start(i)] == frames[i].width % 256 && file[Start(i) + 1] == |frames[i].rows| % 256
  {
    EntryIsFound(frames, blobs, i);
    EntryFields(IcoOf(frames, blobs), Start(i), frames[i], |blobs[i]|, Start(|frames|) + Reach(blobs, i));
  }

  /**
   Read by its directory, the file gives back every blob, whatever the blobs; the first starts where
   the directory ends, each where the one before it ends, and the last ends with the file.
   */
  lemma ReadBack(frames: seq<Image>, blobs: seq<seq<Byte>>, i: nat)
    requires |frames| == |blobs| && i < |frames| < MAX16 && EntriesFit(blobs)
    ensures var file, n := IcoOf(frames, blobs), |frames|;
      && Start(n) <= |file| && Field(file, 4, 2) == n
      && SizeField(file, i) == |blobs[i]|
      && OffsetField(file, i) + SizeField(file, i) <= |file|
      && file[OffsetField(file, i)..OffsetField(file, i) + SizeField(file, i)] == blobs[i]
      && (i == 0 ==> OffsetField(file, i) == Start(n))
      && (i > 0 ==> OffsetField(file, i) == OffsetField(file, i - 1) + SizeField(file, i - 1))
      && (i == n - 1 ==> OffsetField(file, i) + SizeField(file, i) == |file|)
  {
    EntryReads(frames, blobs, i);
    BlobIsFound(frames, blobs, i);
    if i > 0 {
      EntryReads(frames, blobs, i - 1);
      ReachStep(blobs, i - 1);
    }
    ReachStep(blobs, i);
    IcoLength(frames, blobs);
    CountField(frames, blobs);
  }

  lemma CountField(frames: seq<Image>, blobs: seq<seq<Byte>>)
    requires |frames| == |blobs| < MAX16
    ensures |IcoOf(frames, blobs)| >= 6 && Field(IcoOf(frames, blobs), 4, 2) == |frames|
  {
    Powers();
    LittleRoundTrip(|frames|, 2);
    assert IcoOf(frames, blobs)[4..6] == Little(|frames|, 2);
  }

  /** A reader takes a 0 in the width octet for 256. */
  function ReadWidth(b: Byte): nat {
    if b == 0 then 256 else b
  }

  lemma OctetSurvivesExactlyWhen(n: nat)
    ensures ReadWidth(n % 256) == n <==> 1 <= n <= 256
  {
  }

  /** The width read back is the frame's exactly when it is from 1 to 256. */
  lemma WidthSurvivesExactlyWhen(frames: seq<Image>, blobs: seq<seq<Byte>>, i: nat)
    requires |frames| == |blobs| && i < |frames| && EntriesFit(blobs)
    ensures var file := IcoOf(frames, blobs);
      Start(i) + 1 < |file| && (ReadWidth(file[Start(i)]) == frames[i].width <==> 1 <= frames[i].width <= 256)
      && (ReadWidth(file[Start(i) + 1]) == |frames[i].rows| <==> 1 <= |frames[i].rows| <= 256)
  {
    EntryReads(frames, blobs, i);
    OctetSurvivesExactlyWhen(frames[i].width);
    OctetSurvivesExactlyWhen(|frames[i].rows|);
  }

  // ---------------------------------------------------------------------------
  // The fields that say what the file is
  // ---------------------------------------------------------------------------

  /** One plane of 32 bits a pixel, uncompressed, and nothing in the four fields behind the size. */
  lemma DibFormat(img: Image)
    ensures var dib := DibOf(img);
      && |dib| >= 40 && Field(dib, 12, 2) == 1 && Field(dib, 14, 2) == 32 && Field(dib, 16, 4) == 0
      && dib[24..40] == Zeros(16)
  {
    var w, h, size := img.width, |img.rows|, |DibBody(img)|;
    ZerosAt(size);
    MiddleParts(HeaderSizes(w, h), HeaderFormat(), HeaderRest(size), DibBody(img));
    FormatFields(DibOf(img));
    TailOfHeader(DibOf(img), HeaderRest(size));
  }

  lemma FormatFields(dib: seq<Byte>)
    requires |dib| >= 40 && dib[12..20] == HeaderFormat()
    ensures Field(dib, 12, 2) == 1 && Field(dib, 14, 2) == 32 && Field(dib, 16, 4) == 0
  {
    FormatAt();
    SubSlice(dib, 12, HeaderFormat(), 4);
    SubSlice(dib, 12, HeaderFormat(), 0);
    TwoPairs(dib, 12);
    TwoPairs(HeaderFormat(), 0);
    SmallFields();
  }

  lemma SmallFields()
    ensures ReadLittle(Little(1, 2)) == 1 && ReadLittle(Little(32, 2)) == 32
    ensures ReadLittle(Little(0, 2)) == 0 && ReadLittle(Little(0, 4)) == 0
  {
    Powers();
    LittleRoundTrip(1, 2);
    LittleRoundTrip(32, 2);
    LittleRoundTrip(0, 2);
    LittleRoundTrip(0, 4);
  }

  lemma TwoPairs(s: seq<Byte>, at: nat)
    requires at + 4 <= |s|
    ensures s[at..at + 4][0..2] == s[at..at + 2] && s[at..at + 4][2..4] == s[at + 2..at + 4]
  {
  }

  lemma TailOfHeader(dib: seq<Byte>, rest: seq<Byte>)
    requires |dib| >= 40 && |rest| == 20 && dib[20..40] == rest
    ensures dib[24..40] == rest[4..20]
  {
  }

  lemma FormatAt()
    ensures HeaderFormat()[0..2] == Little(1, 2) && HeaderFormat()[2..4] == Little(32, 2) && HeaderFormat()[4..8] == Little(0, 4)
  {
  }

  lemma {:induction false} LittleZero(k: nat)
    ensures Little(0, k) == Zeros(k)
    decreases k
  {
    if k > 0 {
      LittleZero(k - 1);
    }
  }

  lemma ZerosAt(size: nat)
    ensures HeaderRest(size)[4..20] == Zeros(16)
  {
    LittleZero(4);
  }

  lemma MiddleParts(a: seq<Byte>, b: seq<Byte>, c: seq<Byte>, body: seq<Byte>)
    requires |a| == 12 && |b| == 8 && |c| == 20
    ensures (a + b + c + body)[12..20] == b && (a + b + c + body)[20..40] == c
  {
  }

  /** An icon file by its type, */
  lemma IconType(frames: seq<Image>, blobs: seq<seq<Byte>>)
    requires |frames| == |blobs|
    ensures var file := IcoOf(frames, blobs);
      |file| >= 6 && Field(file, 0, 2) == 0 && Field(file, 2, 2) == 1
  {
    SmallFields();
    FirstFields(|frames|, Directory(frames, blobs, |frames|), Concat(blobs));
  }

  /** each entry of one plane and 32 bits a pixel. */
  lemma IconEntries(frames: seq<Image>, blobs: seq<seq<Byte>>, i: nat)
    requires |frames| == |blobs| && i < |frames|
    ensures Start(i) + 16 <= |IcoOf(frames, blobs)| && HasEntryFormat(IcoOf(frames, blobs), Start(i))
  {
    EntryIsFound(frames, blobs, i);
    EntryFormat(IcoOf(frames, blobs), Start(i), frames[i], |blobs[i]|, Start(|frames|) + Reach(blobs, i));
  }

  predicate HasEntryFormat(file: seq<Byte>, at: nat)
    requires at + 16 <= |file|
  {
    file[at + 2] == 0 && file[at + 3] == 0 && Field(file, at + 4, 2) == 1 && Field(file, at + 6, 2) == 32
  }

  lemma FirstFields(n: nat, directory: seq<Byte>, body: seq<Byte>)
    ensures var file := IcoHeader(n) + directory + body;
      file[0..2] == Little(0, 2) && file[2..4] == Little(1, 2)
  {
  }

  lemma EntryFormat(file: seq<Byte>, at: nat, img: Image, size: nat, offset: nat)
    requires at + 16 <= |file| && file[at..at + 16] == Entry(img, size, offset)
    ensures HasEntryFormat(file, at)
  {
    var entry := file[at..at + 16];
    EntryStart(img, size, offset);
    assert entry[2] == file[at + 2] && entry[3] == file[at + 3];
    SubSlice(file, at, entry, 4);
    TwoPairs(file, at + 4);
    TwoPairs(entry, 4);
    SmallFields();
  }

  lemma EntryStart(img: Image, size: nat, offset: nat)
    ensures var entry := Entry(img, size, offset);
      |entry| == 16 && entry[2] == 0 && entry[3] == 0 && entry[4..6] == Little(1, 2) && entry[6..8] == Little(32, 2)
  {
  }

  /** A frame narrower than 256 pixels is a DIB, any other a PNG. */
  lemma {:induction false} FrameKinds(frames: seq<Image>, png: Image -> seq<Byte>, i: nat)
    requires i < |frames|
    ensures BlobsOf(frames, png)[i] == if frames[i].width < 256 then DibOf(frames[i]) else png(frames[i])
    decreases |frames|
  {
    if i < |frames| - 1 {
      FrameKinds(frames[..|frames| - 1], png, i);
    }
  }
}
