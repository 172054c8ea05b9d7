/**
 * The Darknet weight file as `WeightReader.__init__` reads it: three native
 * (little-endian) int32 header fields, 8 or 4 bytes of metadata that are
 * discarded, and a payload that `np.frombuffer` reinterprets as float32 values.
 * A float32 is kept as its 32-bit pattern: the loader only moves values.
 */
module WeightFile {
  import opened Wrappers

  type Byte = b: int | 0 <= b < 256
  type Word = w: int | 0 <= w < 0x1_0000_0000

  /** Unsigned little-endian value of four bytes. */
  function U32(b: seq<Byte>): (w: Word)
    requires |b| == 4
  {
    var b0, b1, b2, b3: int := b[0], b[1], b[2], b[3];
    assert b1 + 256 * (b2 + 256 * b3) <= 255 + 256 * (255 + 256 * 255);
    b0 + 256 * (b1 + 256 * (b2 + 256 * b3))
  }

  /** Two's-complement value of four bytes, as struct.unpack('i', ...) yields it. */
  function Int32(b: seq<Byte>): (n: int)
    requires |b| == 4
    ensures -0x8000_0000 <= n < 0x8000_0000
  {
    var u := U32(b);
    if u < 0x8000_0000 then u else u - 0x1_0000_0000
  }

  /** The version test that decides how much metadata follows the header. */
  predicate LongHeader(major: int, minor: int)
  {
    major * 10 + minor >= 2 && major < 1000 && minor < 1000
  }

  /** Bytes of metadata read and discarded after the three header fields. */
  function MetadataLength(major: int, minor: int): nat
  {
    if LongHeader(major, minor) then 8 else 4
  }

  datatype FileError =
    | HeaderTruncated      // struct.unpack got fewer than 4 bytes for a header field
    | PayloadMisaligned    // np.frombuffer: payload length not a multiple of 4

  /** Index of the first payload byte: `read(k)` near the end returns fewer bytes, so this is clamped. */
  function PayloadStart(file: seq<Byte>): (start: nat)
    requires |file| >= 12
    ensures start <= |file|
  {
    var k := 12 + MetadataLength(Int32(file[0..4]), Int32(file[4..8]));
    if k <= |file| then k else |file|
  }

  /** The float32 words of a payload whose length is a multiple of four. */
  function Words(p: seq<Byte>): (ws: seq<Word>)
    requires |p| % 4 == 0
    ensures |ws| * 4 == |p|
    ensures forall k :: 0 <= k < |ws| ==> ws[k] == U32(p[4 * k .. 4 * k + 4])
    decreases |p|
  {
    if p == [] then [] else [U32(p[..4])] + Words(p[4..])
  }

  /** `WeightReader.__init__` up to `all_weights`: the header is consumed and the payload split into words. */
  function ParseWeightFile(file: seq<Byte>): (r: Result<seq<Word>, FileError>)
    ensures r.Success? <==> |file| >= 12 && (|file| - PayloadStart(file)) % 4 == 0
    ensures r.Success? ==> 4 * |r.value| + PayloadStart(file) == |file|
    ensures r.Success? ==> forall k :: 0 <= k < |r.value| ==>
              r.value[k] == U32(file[PayloadStart(file) + 4 * k .. PayloadStart(file) + 4 * k + 4])
  {
    if |file| < 12 then Failure(HeaderTruncated)
    else
      var payload := file[PayloadStart(file)..];
      if |payload| % 4 != 0 then Failure(PayloadMisaligned)
      else
        var ws := Words(payload);
        assert forall k :: 0 <= k < |ws| ==>
          payload[4 * k .. 4 * k + 4] == file[PayloadStart(file) + 4 * k .. PayloadStart(file) + 4 * k + 4];
        Success(ws)
  }

  // ---------------------------------------------------------------------------
  // Writing a file, to state what the reader recovers from it.

  /** The four little-endian bytes of a 32-bit pattern. */
  function U32Bytes(w: Word): (b: seq<Byte>)
    ensures |b| == 4
  {
    var q1 := w / 256;
    var q2 := q1 / 256;
    [w % 256, q1 % 256, q2 % 256, q2 / 256]
  }

  function Int32Bytes(n: int): (b: seq<Byte>)
    requires -0x8000_0000 <= n < 0x8000_0000
    ensures |b| == 4
  {
    U32Bytes(if n >= 0 then n else n + 0x1_0000_0000)
  }

  function WordBytes(ws: seq<Word>): (p: seq<Byte>)
    ensures |p| == 4 * |ws|
  {
    if ws == [] then [] else U32Bytes(ws[0]) + WordBytes(ws[1..])
  }

  predicate IsInt32(n: int)
  {
    -0x8000_0000 <= n < 0x8000_0000
  }

  /** A weight file with the given header, metadata bytes and payload words. */
  function EncodeWeightFile(major: int, minor: int, revision: int, metadata: seq<Byte>, ws: seq<Word>): (file: seq<Byte>)
    requires IsInt32(major) && IsInt32(minor) && IsInt32(revision)
  {
    Int32Bytes(major) + Int32Bytes(minor) + Int32Bytes(revision) + metadata + WordBytes(ws)
  }

  lemma U32RoundTrip(w: Word)
    ensures U32(U32Bytes(w)) == w
  {
    var q1 := w / 256;
    var q2 := q1 / 256;
    assert w == w % 256 + 256 * q1;
    assert q1 == q1 % 256 + 256 * q2;
    assert q2 == q2 % 256 + 256 * (q2 / 256);
  }

  lemma Int32RoundTrip(n: int)
    requires IsInt32(n)
    ensures Int32(Int32Bytes(n)) == n
  {
    U32RoundTrip(if n >= 0 then n else n + 0x1_0000_0000);
  }

  lemma {:induction false} WordsRoundTrip(ws: seq<Word>)
    ensures Words(WordBytes(ws)) == ws
  {
    if ws != [] {
      var p := WordBytes(ws);
      assert p[..4] == U32Bytes(ws[0]);
      assert p[4..] == WordBytes(ws[1..]);
      U32RoundTrip(ws[0]);
      WordsRoundTrip(ws[1..]);
    }
  }

  /**
   * The reader recovers exactly the written payload when the metadata has the
   * length the version test asks for: 8 bytes iff LongHeader, else 4.
   */
  lemma {:induction false} ParseEncodeRoundTrip(major: int, minor: int, revision: int, metadata: seq<Byte>, ws: seq<Word>)
    requires IsInt32(major) && IsInt32(minor) && IsInt32(revision)
    requires |metadata| == MetadataLength(major, minor)
    ensures ParseWeightFile(EncodeWeightFile(major, minor, revision, metadata, ws)) == Success(ws)
  {
    var file := EncodeWeightFile(major, minor, revision, metadata, ws);
    assert file[0..4] == Int32Bytes(major);
    assert file[4..8] == Int32Bytes(minor);
    Int32RoundTrip(major);
    Int32RoundTrip(minor);
    assert PayloadStart(file) == 12 + |metadata|;
    assert file[PayloadStart(file)..] == WordBytes(ws);
    WordsRoundTrip(ws);
  }

  /** The version test on the examples the format is known by. */
  lemma HeaderExamples()
    ensures MetadataLength(0, 2) == 8
    ensures MetadataLength(0, 1) == 4
    ensures MetadataLength(1000, 5) == 4
  {
  }
}
