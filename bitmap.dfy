/**
 * The TSPL `BITMAP` command of images/tspl_bitmap.py. A one-bit image, as the
 * imaging library delivers it after conversion to black and white, optionally
 * inverted, is packed into bytes row by row (eight pixels per byte, most
 * significant bit first, each row padded to whole bytes) and sent behind the
 * ASCII header `BITMAP x,y,bytes_per_row,height,0,` and followed by a newline.
 * Reading and converting the PNG file is not modelled: the converted image is
 * the input.
 */
module TsplBitmap {
  import opened Text
  import opened Seqs

  type Byte = x: int | 0 <= x < 256

  /** `(width_px + 7) // 8`: the fewest whole bytes that hold a row of `width` pixels. */
  function BytesPerRow(width: nat): (bpr: nat)
    ensures bpr * 8 >= width && bpr * 8 < width + 8
  {
    (width + 7) / 8
  }

  /** A converted one-bit image: `true` is a white pixel (255), `false` a black one (0). */
  datatype Image = Image(width: nat, height: nat, rows: seq<seq<bool>>)

  /** Every row holds exactly `width` pixels and there are `height` rows. */
  predicate WellFormed(img: Image) {
    |img.rows| == img.height && forall i :: 0 <= i < |img.rows| ==> |img.rows[i]| == img.width
  }

  /** `img.point(lambda p: 255 if p == 0 else 0, mode="1")`: every pixel flipped, the size kept. */
  function Invert(img: Image): (r: Image)
    ensures r.width == img.width && r.height == img.height && |r.rows| == |img.rows|
    ensures forall i :: 0 <= i < |img.rows| ==> |r.rows[i]| == |img.rows[i]|
    ensures forall i, j :: 0 <= i < |img.rows| && 0 <= j < |img.rows[i]| ==> r.rows[i][j] == !img.rows[i][j]
  {
    Image(img.width, img.height,
          seq(|img.rows|, i requires 0 <= i < |img.rows| =>
            seq(|img.rows[i]|, j requires 0 <= j < |img.rows[i]| => !img.rows[i][j])))
  }

  /** Inverting keeps an image well formed, and inverting twice gives the image back. */
  lemma InvertTwice(img: Image)
    ensures WellFormed(img) ==> WellFormed(Invert(img))
    ensures Invert(Invert(img)) == img
  {
    var twice := Invert(Invert(img));
    forall i | 0 <= i < |img.rows|
      ensures twice.rows[i] == img.rows[i]
    {
    }
  }

  function Pow2(n: nat): (r: nat)
    ensures r >= 1
  {
    if n == 0 then 1 else 2 * Pow2(n - 1)
  }

  /** The number whose binary digits, most significant first, are `bits`. */
  function PackBits(bits: seq<bool>): (v: nat)
    ensures v < Pow2(|bits|)
  {
    if bits == [] then 0 else 2 * PackBits(bits[..|bits| - 1]) + (if bits[|bits| - 1] then 1 else 0)
  }

  /** The `n` lowest binary digits of `v`, most significant first. */
  function UnpackBits(v: nat, n: nat): (bits: seq<bool>)
    ensures |bits| == n
  {
    if n == 0 then [] else UnpackBits(v / 2, n - 1) + [v % 2 == 1]
  }

  /** Packing loses nothing: the bits of a packed byte are the pixels it was packed from. */
  lemma {:induction false} UnpackPack(bits: seq<bool>)
    ensures UnpackBits(PackBits(bits), |bits|) == bits
    decreases |bits|
  {
    if bits != [] {
      var front := bits[..|bits| - 1];
      UnpackPack(front);
      var v := PackBits(bits);
      assert v / 2 == PackBits(front) && (v % 2 == 1) == bits[|bits| - 1];
      assert bits == front + [bits[|bits| - 1]];
    }
  }

  /** A row of pixels padded with black to `bpr` whole bytes. */
  function PadRow(row: seq<bool>, bpr: nat): (r: seq<bool>)
    requires |row| <= 8 * bpr
    ensures |r| == 8 * bpr && r[..|row|] == row
    ensures forall k :: |row| <= k < |r| ==> !r[k]
  {
    row + seq(8 * bpr - |row|, _ => false)
  }

  /** The bytes of one row: byte `b` carries pixels `8b` to `8b + 7`. */
  function RowBytes(row: seq<bool>, bpr: nat): (r: seq<Byte>)
    requires |row| <= 8 * bpr
    ensures |r| == bpr
  {
    var padded := PadRow(row, bpr);
    seq(bpr, b requires 0 <= b < bpr =>
      assert Pow2(8) == 256;
      PackBits(padded[8 * b..8 * b + 8]) as Byte)
  }

  /** Each byte of a row, read bit by bit from the top, is the next eight pixels of the padded row. */
  lemma RowBytesAreThePixels(row: seq<bool>, bpr: nat, b: nat)
    requires |row| <= 8 * bpr && b < bpr
    ensures UnpackBits(RowBytes(row, bpr)[b], 8) == PadRow(row, bpr)[8 * b..8 * b + 8]
  {
    UnpackPack(PadRow(row, bpr)[8 * b..8 * b + 8]);
  }

  /** `img.tobytes()` for a one-bit image: the rows' bytes one after another. */
  function ToBytes(rows: seq<seq<bool>>, bpr: nat): (r: seq<Byte>)
    requires forall i :: 0 <= i < |rows| ==> |rows[i]| <= 8 * bpr
    ensures |r| == |rows| * bpr
    decreases |rows|
  {
    if rows == [] then []
    else
      var rest := ToBytes(rows[1..], bpr);
      assert |rows| * bpr == bpr + (|rows| - 1) * bpr;
      RowBytes(rows[0], bpr) + rest
  }

  /** The bytes of the rows before `i` come first, then those of the rest. */
  lemma {:induction false} ToBytesSplit(rows: seq<seq<bool>>, bpr: nat, i: nat)
    requires forall j :: 0 <= j < |rows| ==> |rows[j]| <= 8 * bpr
    requires i <= |rows|
    ensures ToBytes(rows, bpr) == ToBytes(rows[..i], bpr) + ToBytes(rows[i..], bpr)
    decreases i
  {
    if i == 0 {
      assert rows[..0] == [] && rows[0..] == rows;
    } else {
      var first := RowBytes(rows[0], bpr);
      ToBytesSplit(rows[1..], bpr, i - 1);
      assert rows[..i][1..] == rows[1..][..i - 1];
      assert rows[1..][i - 1..] == rows[i..];
      assert rows[..i][0] == rows[0];
      assert ToBytes(rows[..i], bpr) == first + ToBytes(rows[1..][..i - 1], bpr);
      Regroup(first, ToBytes(rows[1..][..i - 1], bpr), ToBytes(rows[i..], bpr));
    }
  }

  /** Byte `b` of row `i` sits at offset `i * bpr + b` of the packed image. */
  lemma ToBytesAt(rows: seq<seq<bool>>, bpr: nat, i: nat, b: nat)
    requires forall j :: 0 <= j < |rows| ==> |rows[j]| <= 8 * bpr
    requires i < |rows| && b < bpr
    ensures i * bpr + b < |ToBytes(rows, bpr)|
    ensures ToBytes(rows, bpr)[i * bpr + b] == RowBytes(rows[i], bpr)[b]
  {
    ToBytesSplit(rows, bpr, i);
    var before, after := ToBytes(rows[..i], bpr), ToBytes(rows[i..], bpr);
    assert |before| == i * bpr;
    SuffixStep(rows, i);
    assert after == RowBytes(rows[i], bpr) + ToBytes(rows[i + 1..], bpr);
    IndexMiddle(before, RowBytes(rows[i], bpr), ToBytes(rows[i + 1..], bpr), b);
  }

  /** What `load_1bit_bitmap` returns. */
  datatype Loaded = Loaded(width: nat, height: nat, bytesPerRow: nat, raw: seq<Byte>)

  /**
   * `load_1bit_bitmap(path, invert)` on the converted image `img`: the size,
   * the row width in bytes and the packed pixels, inverted first when asked.
   * Width, height and row width are those of the image, whether inverted or not.
   */
  function Load1BitBitmap(img: Image, invert: bool): (r: Loaded)
    requires WellFormed(img)
    ensures r.width == img.width && r.height == img.height && r.bytesPerRow == BytesPerRow(img.width)
    ensures |r.raw| == img.height * r.bytesPerRow
    ensures r.raw == ToBytes((if invert then Invert(img) else img).rows, r.bytesPerRow)
  {
    InvertTwice(img);
    var pixels := if invert then Invert(img) else img;
    var bpr := BytesPerRow(pixels.width);
    Loaded(pixels.width, pixels.height, bpr, ToBytes(pixels.rows, bpr))
  }

  /**
   * Every byte of the loaded data, read bit by bit from the top, is the next
   * eight pixels of its row of the (possibly inverted) image, padded to whole bytes.
   */
  lemma LoadedBytesArePixels(img: Image, invert: bool, i: nat, b: nat)
    requires WellFormed(img) && i < img.height && b < BytesPerRow(img.width)
    ensures var r := Load1BitBitmap(img, invert);
            var pixels := if invert then Invert(img) else img;
            i * r.bytesPerRow + b < |r.raw|
            && UnpackBits(r.raw[i * r.bytesPerRow + b], 8) == PadRow(pixels.rows[i], r.bytesPerRow)[8 * b..8 * b + 8]
  {
    InvertTwice(img);
    var pixels := if invert then Invert(img) else img;
    var bpr := BytesPerRow(img.width);
    ToBytesAt(pixels.rows, bpr, i, b);
    RowBytesAreThePixels(pixels.rows[i], bpr, b);
  }

  predicate IsAscii(s: string) {
    forall k :: 0 <= k < |s| ==> s[k] as int < 128
  }

  /** `s.encode("ascii")` for a string that is all ASCII. */
  function Ascii(s: string): (r: seq<Byte>)
    requires IsAscii(s)
    ensures |r| == |s| && forall k :: 0 <= k < |s| ==> r[k] == s[k] as int
  {
    seq(|s|, k requires 0 <= k < |s| => s[k] as int as Byte)
  }

  /** The text of the command header, up to and including the comma before the data. */
  function Header(x: int, y: int, bpr: nat, height: nat): (r: string)
    ensures |r| > 11 && r[..7] == "BITMAP " && r[|r| - 3..] == ",0,"
  {
    "BITMAP " + IntToString(x) + "," + IntToString(y) + "," + IntToString(bpr) + "," + IntToString(height) + ",0,"
  }

  lemma IntToStringIsAscii(i: int)
    ensures IsAscii(IntToString(i))
  {
    var s := IntToString(i);
    if i < 0 {
      assert forall k :: 1 <= k < |s| ==> s[1..][k - 1] == s[k];
    }
  }

  /** The header is plain ASCII, so encoding it cannot fail. */
  lemma HeaderIsAscii(x: int, y: int, bpr: nat, height: nat)
    ensures IsAscii(Header(x, y, bpr, height))
  {
    var sx, sy, sb, sh := IntToString(x), IntToString(y), IntToString(bpr), IntToString(height);
    IntToStringIsAscii(x);
    IntToStringIsAscii(y);
    IntToStringIsAscii(bpr);
    IntToStringIsAscii(height);
    AsciiConcat("BITMAP ", sx);
    AsciiConcat("BITMAP " + sx, ",");
    AsciiConcat("BITMAP " + sx + ",", sy);
    AsciiConcat("BITMAP " + sx + "," + sy, ",");
    AsciiConcat("BITMAP " + sx + "," + sy + ",", sb);
    AsciiConcat("BITMAP " + sx + "," + sy + "," + sb, ",");
    AsciiConcat("BITMAP " + sx + "," + sy + "," + sb + ",", sh);
    AsciiConcat("BITMAP " + sx + "," + sy + "," + sb + "," + sh, ",0,");
  }

  lemma AsciiConcat(a: string, b: string)
    requires IsAscii(a) && IsAscii(b)
    ensures IsAscii(a + b)
  {
  }

  /**
   * `tspl_bitmap_bytes(path, x, y, invert)`: the ASCII header, the packed
   * pixels unchanged, and a newline byte.
   */
  function TsplBitmapBytes(img: Image, x: int, y: int, invert: bool): (r: seq<Byte>)
    requires WellFormed(img)
    ensures var loaded := Load1BitBitmap(img, invert);
            var header := Header(x, y, BytesPerRow(img.width), img.height);
            IsAscii(header)
            && |r| == |header| + |loaded.raw| + 1
            && r[..|header|] == Ascii(header)
            && r[|header|..|r| - 1] == loaded.raw
            && r[|r| - 1] == '\n' as int
  {
    var loaded := Load1BitBitmap(img, invert);
    HeaderIsAscii(x, y, loaded.bytesPerRow, loaded.height);
    var header := Ascii(Header(x, y, loaded.bytesPerRow, loaded.height));
    SplitFrame(header, loaded.raw, '\n' as int);
    header + loaded.raw + ['\n' as int]
  }

  /** The frame of an image and of its inverse differ only in the pixel bytes: same header, same length. */
  lemma InvertKeepsHeader(img: Image, x: int, y: int)
    requires WellFormed(img)
    ensures var plain, inverted := TsplBitmapBytes(img, x, y, false), TsplBitmapBytes(img, x, y, true);
            var n := |Header(x, y, BytesPerRow(img.width), img.height)|;
            |plain| == |inverted| && plain[..n] == inverted[..n] && plain[|plain| - 1] == inverted[|inverted| - 1]
  {
  }
}
