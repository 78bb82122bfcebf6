/**
 * The image-size reader: the first 24 bytes of a file, the PNG signature of
 * RFC 2083 section 3.1 and the big-endian IHDR width and height of RFC 2083
 * section 4.1.1, read as signed 32-bit integers. Also the alpha test on a
 * loaded image's bit depth.
 */
module Png {
  import opened Wrappers

  newtype byte = b: int | 0 <= b < 256

  /** The eight signature bytes every PNG file starts with. */
  const Signature: seq<byte> := [137, 80, 78, 71, 13, 10, 26, 10]

  /** `imghdr.what(...) == 'png'`: the file starts with the signature. */
  predicate IsPngData(data: seq<byte>) {
    |data| >= 8 && data[..8] == Signature
  }

  const TwoTo31: int := 0x8000_0000
  const TwoTo32: int := 0x1_0000_0000

  /** `struct.unpack('>i', b)`: a big-endian two's-complement 32-bit integer. */
  function ReadI32(b: seq<byte>): (x: int)
    requires |b| == 4
    ensures -TwoTo31 <= x < TwoTo31
    ensures x < 0 <==> b[0] >= 128
  {
    var u := b[0] as int * 0x100_0000 + b[1] as int * 0x1_0000 + b[2] as int * 0x100 + b[3] as int;
    if u < TwoTo31 then u else u - TwoTo32
  }

  /** `struct.pack('>i', x)`. */
  function WriteI32(x: int): (b: seq<byte>)
    requires -TwoTo31 <= x < TwoTo31
    ensures |b| == 4
  {
    var u := if x >= 0 then x else x + TwoTo32;
    var q1 := u / 256;
    var q2 := q1 / 256;
    [(q2 / 256) as byte, (q2 % 256) as byte, (q1 % 256) as byte, (u % 256) as byte]
  }

  /** Reading back a written integer gives it back. */
  lemma ReadWriteI32(x: int)
    requires -TwoTo31 <= x < TwoTo31
    ensures ReadI32(WriteI32(x)) == x
  {
    var u := if x >= 0 then x else x + TwoTo32;
    var q1 := u / 256;
    var q2 := q1 / 256;
    assert u == q1 * 256 + u % 256;
    assert q1 == q2 * 256 + q1 % 256;
    assert q2 == (q2 / 256) * 256 + q2 % 256;
    var b := WriteI32(x);
    assert b[0] as int == q2 / 256 && b[1] as int == q2 % 256 && b[2] as int == q1 % 256 && b[3] as int == u % 256;
  }

  /** Writing a read integer gives back the four bytes. */
  lemma WriteReadI32(b: seq<byte>)
    requires |b| == 4
    ensures WriteI32(ReadI32(b)) == b
  {
    var u := b[0] as int * 0x100_0000 + b[1] as int * 0x1_0000 + b[2] as int * 0x100 + b[3] as int;
    var q1 := (b[0] as int * 256 + b[1] as int) * 256 + b[2] as int;
    var q2 := b[0] as int * 256 + b[1] as int;
    assert u == q1 * 256 + b[3] as int && u / 256 == q1 && u % 256 == b[3] as int;
    assert q1 == q2 * 256 + b[2] as int && q1 / 256 == q2 && q1 % 256 == b[2] as int;
    assert q2 / 256 == b[0] as int && q2 % 256 == b[1] as int;
  }

  /**
   * `get_image_size` on the bytes of a file: nothing unless the file has at
   * least 24 bytes, starts with the signature and bytes 4 to 7 read as
   * 0x0d0a1a0a; otherwise the width and height at bytes 16 and 20.
   */
  function ImageSize(data: seq<byte>): (r: Option<(int, int)>)
    ensures r.Some? ==> |data| >= 24 && IsPngData(data)
    ensures r.Some? ==> r.value == (ReadI32(data[16..20]), ReadI32(data[20..24]))
  {
    if |data| < 24 then None
    else
      var head := data[..24];
      if !IsPngData(data) then None
      else if ReadI32(head[4..8]) != 0x0d0a1a0a then None
      else
        assert head[16..20] == data[16..20] && head[20..24] == data[20..24];
        Some((ReadI32(head[16..20]), ReadI32(head[20..24])))
  }

  /** The second test is implied by the first: the signature's bytes 4 to 7 are 0D 0A 1A 0A. */
  lemma SignatureCheck(data: seq<byte>)
    requires IsPngData(data) && |data| >= 24
    ensures ReadI32(data[..24][4..8]) == 0x0d0a1a0a
  {
    assert data[..24][4..8] == Signature[4..8] == [13, 10, 26, 10];
  }

  /** A file of at least 24 bytes has a size exactly when it is a PNG file. */
  lemma ImageSizeDefined(data: seq<byte>)
    ensures ImageSize(data).Some? <==> |data| >= 24 && IsPngData(data)
  {
    if |data| >= 24 && IsPngData(data) {
      SignatureCheck(data);
    }
  }

  /** The chunk length and type that open the IHDR chunk. */
  const IhdrStart: seq<byte> := [0, 0, 0, 13, 73, 72, 68, 82]

  /** The first 24 bytes of a PNG file of the given width and height. */
  function Header(width: int, height: int): (h: seq<byte>)
    requires -TwoTo31 <= width < TwoTo31 && -TwoTo31 <= height < TwoTo31
    ensures |h| == 24
  {
    Signature + IhdrStart + WriteI32(width) + WriteI32(height)
  }

  /** Whatever follows the header, the reader returns the width and height written into it. */
  lemma ImageSizeOfHeader(width: int, height: int, rest: seq<byte>)
    requires -TwoTo31 <= width < TwoTo31 && -TwoTo31 <= height < TwoTo31
    ensures ImageSize(Header(width, height) + rest) == Some((width, height))
  {
    var data := Header(width, height) + rest;
    assert data[..8] == Signature;
    assert data[16..20] == WriteI32(width);
    assert data[20..24] == WriteI32(height);
    SignatureCheck(data);
    ReadWriteI32(width);
    ReadWriteI32(height);
  }

  /** `image_has_alpha`: two or four channels of 8 bits, or of 32 bits for a float image. */
  predicate HasAlpha(isFloat: bool, depth: int) {
    var b := if isFloat then 32 else 8;
    depth == 2 * b || depth == 4 * b
  }

  /** For an image of `channels` channels of the image's own width, alpha is reported exactly for grey+alpha and RGBA. */
  lemma HasAlphaChannels(isFloat: bool, channels: nat)
    ensures HasAlpha(isFloat, channels * (if isFloat then 32 else 8)) <==> channels == 2 || channels == 4
  {
  }
}
