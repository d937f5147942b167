/** Compressed message frames: a flags byte and a payload. */
module Frames {
  import opened Types

  type Bytes = seq<bv8>

  datatype Algorithm = Zstd | NoCompression

  datatype Error = EmptyInput | CompressionFailed | DecompressionFailed | DecompressedTooLarge | UnsupportedAlgorithm

  datatype Outcome = Done(bytes: Bytes) | Failure(error: Error)

  const COMPRESSED: bv8 := 0x01
  const ALGORITHM_MASK: bv8 := 0x06
  const UNCOMPRESSED: bv8 := 0x00

  function FlagBits(a: Algorithm): bv8 {
    0x00
  }

  function FromFlagBits(bits: bv8): Option<Algorithm> {
    if bits & ALGORITHM_MASK == 0x00 then Some(Zstd) else None
  }

  function CompressedFlags(a: Algorithm): bv8 {
    COMPRESSED | FlagBits(a)
  }

  predicate IsCompressed(flags: bv8) {
    flags & COMPRESSED != 0
  }

  /** What a decoder yields for a payload: some bytes, and then the end or an error. */
  datatype Stream = Stream(bytes: Bytes, broken: bool)

  /** The zstd library: encoding may fail, and so may opening a decoder. */
  datatype Library = Library(encode: (Bytes, int) -> Option<Bytes>, decode: Bytes -> Option<Stream>)

  /** The one thing asked of it. */
  ghost predicate DecodesWhatItEncodes(z: Library) {
    forall data, level :: z.encode(data, level).Some? ==>
      z.decode(z.encode(data, level).value) == Some(Stream(data, false))
  }

  datatype Codec = Codec(algorithm: Algorithm, level: int, threshold: nat, maxDecompressedSize: nat)

  function Raw(data: Bytes): Bytes {
    [UNCOMPRESSED] + data
  }

  /** The frame of `data`, as a function. */
  function FrameOf(z: Library, c: Codec, data: Bytes): Outcome {
    if |data| < c.threshold || c.algorithm == NoCompression then Done(Raw(data))
    else
      match z.encode(data, c.level)
      case None => Failure(CompressionFailed)
      case Some(compressed) =>
        if |compressed| >= |data| then Done(Raw(data)) else Done([CompressedFlags(Zstd)] + compressed)
  }

  /** A whole stream, under a limit. */
  function Limited(s: Stream, limit: nat): Outcome {
    if |s.bytes| > limit then Failure(DecompressedTooLarge)
    else if s.broken then Failure(DecompressionFailed)
    else Done(s.bytes)
  }

  /** The content of a frame, as a function. */
  function ContentOf(z: Library, c: Codec, frame: Bytes): Outcome {
    if frame == [] then Failure(EmptyInput)
    else if !IsCompressed(frame[0]) then Done(frame[1..])
    else if FromFlagBits(frame[0]).None? then Failure(UnsupportedAlgorithm)
    else
      match z.decode(frame[1..])
      case None => Failure(DecompressionFailed)
      case Some(s) => Limited(s, c.maxDecompressedSize)
  }

  lemma FlagsReadBack()
    ensures forall a :: IsCompressed(CompressedFlags(a)) && FromFlagBits(CompressedFlags(a)) == Some(Zstd)
    ensures !IsCompressed(UNCOMPRESSED)
  {
  }

  /**
   For any two configurations, the second decodes the frame of the first back to the data if
   the frame is raw or the data fits the second's limit, and reports it as too large otherwise;
   a frame is at most one byte longer than the data, and is compressed only to be shorter.
   */
  lemma FrameRoundTrip(z: Library, a: Codec, b: Codec, data: Bytes)
    requires DecodesWhatItEncodes(z)
    ensures
      match FrameOf(z, a, data)
      case Failure(e) => e == CompressionFailed && z.encode(data, a.level).None?
      case Done(frame) =>
        && 1 <= |frame| <= |data| + 1
        && ContentOf(z, b, frame) == (if !IsCompressed(frame[0]) || |data| <= b.maxDecompressedSize then Done(data)
                                      else Failure(DecompressedTooLarge))
        && (IsCompressed(frame[0]) ==> |frame| <= |data| && a.algorithm == Zstd && |data| >= a.threshold)
  {
    FlagsReadBack();
    if |data| < a.threshold || a.algorithm == NoCompression {
      assert Raw(data)[1..] == data;
    } else if z.encode(data, a.level).Some? {
      var compressed := z.encode(data, a.level).value;
      assert Raw(data)[1..] == data;
      assert ([CompressedFlags(Zstd)] + compressed)[1..] == compressed;
    }
  }

  /** The data is long enough, and zstd makes it shorter. */
  ghost predicate WorthCompressing(z: Library, c: Codec, data: Bytes) {
    && c.algorithm == Zstd && |data| >= c.threshold
    && z.encode(data, c.level).Some? && |z.encode(data, c.level).value| < |data|
  }

  /** The frame byte by byte: 1 and what zstd makes of the data, or 0 and the data itself. */
  lemma CompressedExactlyWhen(z: Library, c: Codec, data: Bytes)
    ensures FrameOf(z, c, data).Failure? <==>
      c.algorithm == Zstd && |data| >= c.threshold && z.encode(data, c.level).None?
    ensures FrameOf(z, c, data).Done? ==>
      FrameOf(z, c, data).bytes == if WorthCompressing(z, c, data) then [0x01] + z.encode(data, c.level).value
                                   else [0x00] + data
    ensures FrameOf(z, c, data).Done? ==> (IsCompressed(FrameOf(z, c, data).bytes[0]) <==> WorthCompressing(z, c, data))
  {
    FlagsReadBack();
  }

  /** The answer for every frame: the payload is decoded exactly when bit 0 is set and bits 1 and 2 are not. */
  lemma AnswersExactlyWhen(z: Library, c: Codec, flags: bv8, payload: Bytes)
    ensures
      var r := ContentOf(z, c, [flags] + payload);
      if flags & 0x01 == 0 then r == Done(payload)
      else if flags & 0x06 != 0 then r == Failure(UnsupportedAlgorithm)
      else if z.decode(payload) == None then r == Failure(DecompressionFailed)
      else
        var s := z.decode(payload).value;
        && (r == Failure(DecompressedTooLarge) <==> |s.bytes| > c.maxDecompressedSize)
        && (r == Failure(DecompressionFailed) <==> s.broken && |s.bytes| <= c.maxDecompressedSize)
        && (r == Done(s.bytes) <==> !s.broken && |s.bytes| <= c.maxDecompressedSize)
    ensures ContentOf(z, c, []) == Failure(EmptyInput)
  {
    assert ([flags] + payload)[1..] == payload;
  }

  /** Of the flags byte only the low three bits matter; what is rejected is a compressed frame of another algorithm. */
  lemma OnlyLowBitsMatter(z: Library, c: Codec, f: bv8, g: bv8, payload: Bytes)
    ensures f & 0x07 == g & 0x07 ==> ContentOf(z, c, [f] + payload) == ContentOf(z, c, [g] + payload)
    ensures ContentOf(z, c, [f] + payload) == Failure(UnsupportedAlgorithm) <==> f & 0x01 == 0x01 && f & 0x06 != 0x00
  {
    assert ([f] + payload)[1..] == payload && ([g] + payload)[1..] == payload;
    LowBits(f, g);
  }

  lemma LowBits(f: bv8, g: bv8)
    ensures f & 0x07 == g & 0x07 ==> f & 0x01 == g & 0x01 && f & 0x06 == g & 0x06
    ensures f & 0x01 != 0 <==> f & 0x01 == 0x01
  {
    assert f & 0x01 == (f & 0x07) & 0x01 && g & 0x01 == (g & 0x07) & 0x01;
    assert f & 0x06 == (f & 0x07) & 0x06 && g & 0x06 == (g & 0x07) & 0x06;
  }

  /** The content of a compressed frame never exceeds the limit; a raw frame's content is its payload. */
  lemma ContentIsLimited(z: Library, c: Codec, frame: Bytes)
    requires ContentOf(z, c, frame).Done?
    ensures frame != []
    ensures IsCompressed(frame[0]) ==> |ContentOf(z, c, frame).bytes| <= c.maxDecompressedSize
    ensures !IsCompressed(frame[0]) ==> ContentOf(z, c, frame).bytes == frame[1..]
  {
  }
}

/** The codec's methods. */
module CompressionCodec {
  import opened Types
  import opened Frames

  const BUFFER_SIZE := 8192

  /** A zstd stream decoder: hands out what is left in chunks of whatever size it likes. */
  class Decoder {
    var left: Bytes
    const broken: bool

    constructor (s: Stream)
      ensures left == s.bytes && broken == s.broken
    {
      left, broken := s.bytes, s.broken;
    }

    /** `None` is an I/O error; zero bytes mean the end. */
    method Read(buffer: array<bv8>) returns (n: Option<nat>)
      requires buffer.Length > 0
      modifies this, buffer
      ensures n.None? <==> old(left) == [] && broken
      ensures n.Some? ==> n.value <= |old(left)| && n.value <= buffer.Length
      ensures n.Some? ==> buffer[..n.value] == old(left)[..n.value] && left == old(left)[n.value..]
      ensures n.Some? ==> (n.value == 0 <==> old(left) == [])
    {
      if left == [] {
        return if broken then None else Some(0);
      }
      var wanted: int := *;
      var size := Min(Max(1, wanted), Min(|left|, buffer.Length));
      for i := 0 to size
        invariant left == old(left)
        invariant buffer[..i] == left[..i]
      {
        buffer[i] := left[i];
      }
      left := left[size..];
      n := Some(size);
    }
  }

  method Compress(z: Library, c: Codec, data: Bytes) returns (r: Outcome)
    ensures r == FrameOf(z, c, data)
    ensures r.Done? ==>
      r.bytes == if WorthCompressing(z, c, data) then [0x01] + z.encode(data, c.level).value else [0x00] + data
    ensures r.Done? ==> 1 <= |r.bytes| <= |data| + 1
  {
    if |data| < c.threshold || c.algorithm == NoCompression {
      var result := [UNCOMPRESSED];
      result := result + data;
      return Done(result);
    }
    var encoded := z.encode(data, c.level);
    if encoded.None? {
      return Failure(CompressionFailed);
    }
    if |encoded.value| >= |data| {
      var result := [UNCOMPRESSED];
      result := result + data;
      return Done(result);
    }
    var result := [CompressedFlags(Zstd)];
    result := result + encoded.value;
    r := Done(result);
  }

  /**
   The result does not depend on the chunks. `peak` is the most content that was ever stored: within
   the limit for a compressed frame, the whole payload for a raw one, whatever the limit.
   */
  method Decompress(z: Library, c: Codec, frame: Bytes) returns (r: Outcome, ghost peak: nat)
    ensures r == ContentOf(z, c, frame)
    ensures frame != [] && IsCompressed(frame[0]) ==> peak <= c.maxDecompressedSize
    ensures frame != [] && !IsCompressed(frame[0]) ==> peak == |frame| - 1
    ensures r.Done? ==> |r.bytes| == peak
  {
    peak := 0;
    if frame == [] {
      return Failure(EmptyInput), 0;
    }
    var flags, payload := frame[0], frame[1..];
    if !IsCompressed(flags) {
      return Done(payload), |payload|;
    }
    var algorithm := FromFlagBits(flags);
    if algorithm.None? {
      return Failure(UnsupportedAlgorithm), 0;
    }
    var opening := z.decode(payload);
    if opening.None? {
      return Failure(DecompressionFailed), 0;
    }
    r, peak := ReadAll(opening.value, c.maxDecompressedSize);
  }

  method ReadAll(stream: Stream, limit: nat) returns (r: Outcome, ghost peak: nat)
    ensures r == Limited(stream, limit)
    ensures peak <= limit && (r.Done? ==> |r.bytes| == peak)
  {
    var decoder := new Decoder(stream);
    var decompressed: Bytes := [];
    var buffer := new bv8[BUFFER_SIZE](_ => 0);
    var totalRead := 0;
    peak := 0;
    while true
      invariant fresh(decoder) && fresh(buffer)
      invariant decompressed + decoder.left == stream.bytes && decoder.broken == stream.broken
      invariant totalRead == |decompressed| <= limit && peak == |decompressed|
      decreases |decoder.left|
    {
      ghost var before := decoder.left;
      var bytesRead := decoder.Read(buffer);
      if bytesRead.None? {
        return Failure(DecompressionFailed), peak;
      }
      if bytesRead.value == 0 {
        break;
      }
      totalRead := totalRead + bytesRead.value;
      if totalRead > limit {
        return Failure(DecompressedTooLarge), peak;
      }
      assert before == before[..bytesRead.value] + decoder.left;
      decompressed := decompressed + buffer[..bytesRead.value];
      peak := |decompressed|;
    }
    r := Done(decompressed);
  }
}
