/**
 * The audio assembler: decoding the provider's raw 16-bit PCM into sample
 * buffers, merging buffers with silent gaps, and encoding the result as a
 * RIFF WAVE file with the canonical 44-byte header (format tag 1, PCM).
 * Samples are exact reals; the byte buffer is an array of bytes.
 */
module AudioEngine {
  import opened Wrappers
  import opened Types

  /** The rate of the provider's PCM, and `decodeAudioData`'s default. */
  const DefaultSampleRate := 24000

  type Rate = r: int | r > 0 witness 1

  /** A Web Audio `AudioBuffer`, as far as this code uses it: one channel of samples. */
  datatype AudioBuffer = AudioBuffer(numberOfChannels: nat, sampleRate: Rate, data: seq<real>)

  /** `AudioBuffer.duration`: frames divided by the buffer's own rate. */
  function Duration(b: AudioBuffer): real {
    |b.data| as real / b.sampleRate as real
  }

  // ----- Little-endian byte layout -----

  /** What a `Uint8Array` store keeps of a UTF-16 code unit: its low eight bits. */
  function ByteOf(c: char): Byte {
    (c as int) % 256
  }

  /** `DataView.setUint16(_, v, true)`: `v` modulo 2^16, low byte first. */
  function LE16(v: int): (b: seq<Byte>)
    ensures |b| == 2
  {
    var u := v % 0x1_0000;
    [u % 256, u / 256]
  }

  /** `DataView.setUint32(_, v, true)`: `v` modulo 2^32, low byte first. */
  function LE32(v: int): (b: seq<Byte>)
    ensures |b| == 4
  {
    var u := v % 0x1_0000_0000;
    [u % 256, (u / 256) % 256, (u / 0x1_0000) % 256, u / 0x100_0000]
  }

  /** The unsigned little-endian 16-bit value at `at`. */
  function ReadU16(b: seq<Byte>, at: nat): nat
    requires at + 2 <= |b|
  {
    b[at] as int + 256 * b[at + 1] as int
  }

  /** The unsigned little-endian 32-bit value at `at`. */
  function ReadU32(b: seq<Byte>, at: nat): nat
    requires at + 4 <= |b|
  {
    b[at] as int + 256 * b[at + 1] as int + 0x1_0000 * b[at + 2] as int + 0x100_0000 * b[at + 3] as int
  }

  /** The signed (two's complement) little-endian 16-bit value of a byte pair. */
  function Int16LE(lo: Byte, hi: Byte): (v: int)
    ensures -0x8000 <= v < 0x8000
  {
    var u := lo + 256 * hi;
    if u >= 0x8000 then u - 0x1_0000 else u
  }

  lemma ReadLE16(v: int)
    ensures ReadU16(LE16(v), 0) == v % 0x1_0000
  {
  }

  lemma ReadLE32(v: int)
    ensures ReadU32(LE32(v), 0) == v % 0x1_0000_0000
  {
    var u := v % 0x1_0000_0000;
    var b0, r0 := u % 256, u / 256;
    var b1, r1 := r0 % 256, r0 / 256;
    var b2, b3 := r1 % 256, r1 / 256;
    assert u == b0 + 256 * (b1 + 256 * (b2 + 256 * b3));
    assert (u / 256) % 256 == b1;
    assert u / 0x1_0000 == r1;
    assert u / 0x100_0000 == b3;
  }

  /** Writing a signed 16-bit value as two bytes and reading it back is the identity. */
  lemma Int16RoundTrip(v: int)
    requires -0x8000 <= v < 0x8000
    ensures Int16LE(LE16(v)[0], LE16(v)[1]) == v
  {
  }

  /** ... and so is reading a byte pair as a signed value and writing it back. */
  lemma Int16BytesRoundTrip(lo: Byte, hi: Byte)
    ensures LE16(Int16LE(lo, hi)) == [lo, hi]
  {
    var u := lo + 256 * hi;
    var v := Int16LE(lo, hi);
    assert v == u || v == u - 0x1_0000;
    assert v % 0x1_0000 == u;
    assert u % 256 == lo && u / 256 == hi;
  }

  // ----- Decoding -----

  /**
   * The bytes a string's code units give when stored one by one as bytes,
   * each modulo 256: the copy of `atob`'s binary string, and `writeString`.
   */
  function BytesOf(binary: string): (bytes: seq<Byte>)
    ensures |bytes| == |binary|
  {
    seq(|binary|, i requires 0 <= i < |binary| => ByteOf(binary[i]))
  }

  /** The samples of `new Int16Array(...)` over the bytes, each divided by 32768. */
  function PcmSamples(bytes: seq<Byte>): (samples: seq<real>)
    ensures |samples| == |bytes| / 2
  {
    seq(|bytes| / 2, i requires 0 <= i < |bytes| / 2 => Int16LE(bytes[2 * i], bytes[2 * i + 1]) as real / 32768.0)
  }

  /** The mono buffer `decodeAudioData` builds from `atob`'s binary string. */
  function Decoded(binary: string, sampleRate: Rate): AudioBuffer {
    AudioBuffer(1, sampleRate, PcmSamples(BytesOf(binary)))
  }

  /** The `DOMException` `atob` throws on text that is not base64, represented by its name. */
  const InvalidCharacterError := Error(None, Some("InvalidCharacterError"))

  /** The `DOMException` `createBuffer` throws for a buffer of zero frames, represented by its name. */
  const NotSupportedError := Error(None, Some("NotSupportedError"))

  /**
   * What `decodeAudioData` resolves to: `atob` may refuse the text, and
   * `createBuffer` refuses the fewer than two bytes that make no frame;
   * otherwise the decoded buffer, which then has at least one frame.
   */
  function DecodeAudio(base64: string, atob: string -> Option<string>, sampleRate: Rate): (r: Result<AudioBuffer, Error>)
    ensures atob(base64).None? ==> r == Err(InvalidCharacterError)
    ensures atob(base64).Some? && |atob(base64).value| < 2 ==> r == Err(NotSupportedError)
    ensures r.Ok? <==> atob(base64).Some? && |atob(base64).value| >= 2
    ensures r.Ok? ==> r.value == Decoded(atob(base64).value, sampleRate) && |r.value.data| >= 1
  {
    match atob(base64)
    case None => Err(InvalidCharacterError)
    case Some(binary) =>
      if |binary| / 2 == 0 then Err(NotSupportedError) else Ok(Decoded(binary, sampleRate))
  }

  /** The byte-copy loop of `decodeAudioData`: one byte per code unit of the binary string. */
  method CopyBytes(binary: string) returns (bytes: array<Byte>)
    ensures fresh(bytes) && bytes[..] == BytesOf(binary)
  {
    bytes := new Byte[|binary|](_ => 0);
    for i := 0 to |binary|
      invariant forall k :: 0 <= k < i ==> bytes[k] == ByteOf(binary[k])
    {
      bytes[i] := ByteOf(binary[i]);
    }
  }

  /** The sample loop of `decodeAudioData` over the aligned bytes: frame `i` from bytes `2i` and `2i + 1`. */
  method FillChannel(bytes: seq<Byte>) returns (samples: seq<real>)
    ensures samples == PcmSamples(bytes)
  {
    var frameCount := |bytes| / 2;
    var channelData := new real[frameCount](_ => 0.0);
    for i := 0 to frameCount
      invariant forall k :: 0 <= k < i ==> channelData[k] == Int16LE(bytes[2 * k], bytes[2 * k + 1]) as real / 32768.0
    {
      channelData[i] := Int16LE(bytes[2 * i], bytes[2 * i + 1]) as real / 32768.0;
    }
    samples := channelData[..];
  }

  /**
   * `decodeAudioData`: `atob`, the byte-copy loop, the odd-byte cut,
   * `createBuffer` with its refusal of zero frames, and the sample loop.
   */
  method DecodeAudioData(base64: string, atob: string -> Option<string>, sampleRate: Rate := DefaultSampleRate)
    returns (r: Result<AudioBuffer, Error>)
    ensures r == DecodeAudio(base64, atob, sampleRate)
  {
    var decoded := atob(base64);
    if decoded.None? {
      return Err(InvalidCharacterError);
    }
    var binary := decoded.value;
    var bytes := CopyBytes(binary);
    var usable := bytes.Length;
    if bytes.Length % 2 != 0 {
      usable := bytes.Length - 1;
    }
    var frameCount := usable / 2;
    if frameCount == 0 {
      return Err(NotSupportedError);
    }
    var samples := FillChannel(bytes[..]);
    r := Ok(AudioBuffer(1, sampleRate, samples));
  }

  /**
   * The decoded buffer is mono at the requested rate, has `floor(len / 2)`
   * frames, and frame `i` is the signed little-endian value of bytes `2i`
   * and `2i + 1` over 32768, which lies in [-1, 1).
   */
  lemma DecodedShape(binary: string, sampleRate: Rate)
    ensures var b := Decoded(binary, sampleRate);
            && b.numberOfChannels == 1 && b.sampleRate == sampleRate
            && |b.data| == |binary| / 2
            && forall i :: 0 <= i < |b.data| ==>
                 && b.data[i] == Int16LE(ByteOf(binary[2 * i]), ByteOf(binary[2 * i + 1])) as real / 32768.0
                 && -1.0 <= b.data[i] < 1.0
  {
  }

  /** A trailing odd byte is dropped and changes nothing. */
  lemma {:induction false} DecodedDropsOddByte(binary: string, c: char, sampleRate: Rate)
    requires |binary| % 2 == 0
    ensures Decoded(binary + [c], sampleRate) == Decoded(binary, sampleRate)
  {
    var a := PcmSamples(BytesOf(binary + [c]));
    var b := PcmSamples(BytesOf(binary));
    assert |a| == |b|;
    forall i | 0 <= i < |a| ensures a[i] == b[i] {
      assert (binary + [c])[2 * i] == binary[2 * i];
      assert (binary + [c])[2 * i + 1] == binary[2 * i + 1];
    }
  }

  // ----- Merging -----

  /** Frames of all the buffers together. */
  function SumLengths(bufs: seq<AudioBuffer>): nat {
    if bufs == [] then 0 else SumLengths(bufs[..|bufs| - 1]) + |bufs[|bufs| - 1].data|
  }

  /** Where buffer `i` starts in the merged samples: the frames before it plus one gap per buffer before it. */
  function Offset(bufs: seq<AudioBuffer>, i: nat, gapSamples: nat): nat
    requires i <= |bufs|
  {
    SumLengths(bufs[..i]) + i * gapSamples
  }

  /** `totalSamples` after the timing loop: every frame, and a gap between consecutive buffers. */
  function TotalSamples(bufs: seq<AudioBuffer>, gapSamples: nat): nat
    requires bufs != []
  {
    SumLengths(bufs) + (|bufs| - 1) * gapSamples
  }

  /** `Math.floor(gapSeconds * sampleRate)` */
  function GapSamples(gapSeconds: real, sampleRate: Rate): nat
    requires gapSeconds >= 0.0
  {
    (gapSeconds * sampleRate as real).Floor
  }

  /** Timing `i`: its start and end in seconds at the first buffer's rate, and its own duration. */
  function TimingOf(bufs: seq<AudioBuffer>, i: nat, gapSamples: nat, sampleRate: Rate): ChunkTiming
    requires i < |bufs|
  {
    var start := Offset(bufs, i, gapSamples);
    ChunkTiming(start as real / sampleRate as real,
                (start + |bufs[i].data|) as real / sampleRate as real,
                Duration(bufs[i]))
  }

  function Timings(bufs: seq<AudioBuffer>, gapSamples: nat, sampleRate: Rate): (t: seq<ChunkTiming>)
    ensures |t| == |bufs|
  {
    seq(|bufs|, i requires 0 <= i < |bufs| => TimingOf(bufs, i, gapSamples, sampleRate))
  }

  function Zeros(n: nat): (z: seq<real>)
    ensures |z| == n && forall k :: 0 <= k < n ==> z[k] == 0.0
  {
    seq(n, _ => 0.0)
  }

  /** The buffers' samples laid end to end with `gapSamples` zeros between consecutive ones. */
  function Joined(bufs: seq<AudioBuffer>, gapSamples: nat): seq<real> {
    if bufs == [] then []
    else if |bufs| == 1 then bufs[0].data
    else Joined(bufs[..|bufs| - 1], gapSamples) + Zeros(gapSamples) + bufs[|bufs| - 1].data
  }

  /** What `mergeAudioBuffers` resolves to. */
  datatype Merged = Merged(blob: seq<Byte>, timings: seq<ChunkTiming>)

  /** `mergeAudioBuffers`, as specified: an error for no buffers, else the WAV of the joined samples and the timings. */
  function MergedOf(bufs: seq<AudioBuffer>, gapSeconds: real): Result<Merged, Error>
    requires gapSeconds >= 0.0
  {
    if bufs == [] then Err(Raise("No audio buffers to merge."))
    else
      var rate := bufs[0].sampleRate;
      var gap := GapSamples(gapSeconds, rate);
      Ok(Merged(Wav(Joined(bufs, gap), rate), Timings(bufs, gap, rate)))
  }

  /** `Float32Array.prototype.set(src, offset)`: copy `src` in at `offset`, leaving the rest alone. */
  method CopyInto(dst: array<real>, src: seq<real>, offset: nat)
    requires offset + |src| <= dst.Length
    modifies dst
    ensures dst[..] == old(dst[..offset]) + src + old(dst[offset + |src|..])
  {
    for k := 0 to |src|
      invariant dst[..offset] == old(dst[..offset])
      invariant dst[offset..offset + k] == src[..k]
      invariant dst[offset + |src|..] == old(dst[offset + |src|..])
      invariant forall j :: offset + k <= j < offset + |src| ==> dst[j] == old(dst[j])
    {
      dst[offset + k] := src[k];
      assert src[..k + 1] == src[..k] + [src[k]];
    }
    assert dst[..] == dst[..offset] + dst[offset..offset + |src|] + dst[offset + |src|..];
  }

  lemma SumLengthsSnoc(bufs: seq<AudioBuffer>, i: nat)
    requires i < |bufs|
    ensures SumLengths(bufs[..i + 1]) == SumLengths(bufs[..i]) + |bufs[i].data|
  {
    assert bufs[..i + 1][..i] == bufs[..i];
  }

  lemma {:induction false} SumLengthsPrefix(bufs: seq<AudioBuffer>, m: nat)
    requires m <= |bufs|
    ensures SumLengths(bufs[..m]) <= SumLengths(bufs)
    decreases |bufs|
  {
    if m < |bufs| {
      var init := bufs[..|bufs| - 1];
      assert bufs[..m] == init[..m];
      SumLengthsPrefix(init, m);
    } else {
      assert bufs[..m] == bufs;
    }
  }

  lemma TimingsSnoc(bufs: seq<AudioBuffer>, i: nat, gapSamples: nat, sampleRate: Rate)
    requires i < |bufs|
    ensures Timings(bufs[..i + 1], gapSamples, sampleRate) == Timings(bufs[..i], gapSamples, sampleRate) + [TimingOf(bufs, i, gapSamples, sampleRate)]
  {
    var p := bufs[..i + 1];
    forall k | 0 <= k <= i ensures TimingOf(p, k, gapSamples, sampleRate) == TimingOf(bufs, k, gapSamples, sampleRate) {
      assert p[..k] == bufs[..k];
    }
    forall k | 0 <= k < i ensures TimingOf(bufs[..i], k, gapSamples, sampleRate) == TimingOf(bufs, k, gapSamples, sampleRate) {
      assert bufs[..i][..k] == bufs[..k];
    }
  }

  lemma JoinedSnoc(bufs: seq<AudioBuffer>, i: nat, gapSamples: nat)
    requires i < |bufs|
    ensures Joined(bufs[..i + 1], gapSamples)
            == if i == 0 then bufs[0].data else Joined(bufs[..i], gapSamples) + Zeros(gapSamples) + bufs[i].data
  {
    var p := bufs[..i + 1];
    assert p[..i] == bufs[..i];
  }

  lemma {:induction false} JoinedLength(bufs: seq<AudioBuffer>, gapSamples: nat)
    requires bufs != []
    ensures |Joined(bufs, gapSamples)| == TotalSamples(bufs, gapSamples)
    decreases |bufs|
  {
    var init := bufs[..|bufs| - 1];
    assert SumLengths(bufs) == SumLengths(init) + |bufs[|bufs| - 1].data|;
    if |bufs| > 1 {
      JoinedLength(init, gapSamples);
      assert (|bufs| - 1) * gapSamples == (|init| - 1) * gapSamples + gapSamples;
    } else {
      assert init == [];
    }
  }

  /** Copying `d` in after `J` and `g` zeros, into `J` padded with zeros to `T`. */
  lemma PlaceAfter(J: seq<real>, T: nat, g: nat, d: seq<real>)
    requires |J| + g + |d| <= T
    ensures var before := J + Zeros(T - |J|);
            before[..|J| + g] + d + before[|J| + g + |d|..] == (J + Zeros(g) + d) + Zeros(T - (|J| + g + |d|))
  {
    var before := J + Zeros(T - |J|);
    assert before[..|J| + g] == J + Zeros(g);
    assert before[|J| + g + |d|..] == Zeros(T - (|J| + g + |d|));
  }

  /** `mergeAudioBuffers`: the empty check, the timing loop, the copy loop and the encoding. */
  method MergeAudioBuffers(bufs: seq<AudioBuffer>, gapSeconds: real) returns (r: Result<Merged, Error>)
    requires gapSeconds >= 0.0
    ensures r == MergedOf(bufs, gapSeconds)
  {
    if |bufs| == 0 {
      return Err(Raise("No audio buffers to merge."));
    }
    var sampleRate := bufs[0].sampleRate;
    var gapSamples := GapSamples(gapSeconds, sampleRate);
    var totalSamples, timings := TimingLoop(bufs, gapSamples, sampleRate);
    var resultFloat32 := CopyLoop(bufs, gapSamples, totalSamples);
    var blob := EncodeWAV(resultFloat32, sampleRate);
    return Ok(Merged(blob, timings));
  }

  /** The first loop of `mergeAudioBuffers`: one timing per buffer, and the total sample count. */
  method TimingLoop(bufs: seq<AudioBuffer>, gapSamples: nat, sampleRate: Rate) returns (totalSamples: nat, timings: seq<ChunkTiming>)
    requires bufs != []
    ensures totalSamples == TotalSamples(bufs, gapSamples)
    ensures timings == Timings(bufs, gapSamples, sampleRate)
  {
    totalSamples := 0;
    timings := [];
    for i := 0 to |bufs|
      invariant totalSamples == SumLengths(bufs[..i]) + (if i < |bufs| then i else i - 1) * gapSamples
      invariant timings == Timings(bufs[..i], gapSamples, sampleRate)
    {
      var length := |bufs[i].data|;
      timings := timings + [ChunkTiming(totalSamples as real / sampleRate as real,
                                        (totalSamples + length) as real / sampleRate as real,
                                        Duration(bufs[i]))];
      TimingsSnoc(bufs, i, gapSamples, sampleRate);
      SumLengthsSnoc(bufs, i);
      totalSamples := totalSamples + length;
      if i < |bufs| - 1 {
        totalSamples := totalSamples + gapSamples;
      }
    }
    assert bufs[..|bufs|] == bufs;
  }

  /** The second loop of `mergeAudioBuffers`: each buffer copied in at its offset, the gaps left at zero. */
  method CopyLoop(bufs: seq<AudioBuffer>, gapSamples: nat, totalSamples: nat) returns (resultFloat32: array<real>)
    requires bufs != [] && totalSamples == TotalSamples(bufs, gapSamples)
    ensures fresh(resultFloat32)
    ensures resultFloat32[..] == Joined(bufs, gapSamples)
  {
    resultFloat32 := new real[totalSamples](_ => 0.0);
    var offset := 0;
    ghost var joined: seq<real> := [];
    assert bufs[..0] == [];
    for i := 0 to |bufs|
      invariant joined == Joined(bufs[..i], gapSamples)
      invariant offset == if i == 0 then 0 else |joined| + gapSamples
      invariant |joined| <= totalSamples
      invariant resultFloat32[..] == joined + Zeros(totalSamples - |joined|)
    {
      var chunkData := bufs[i].data;
      ghost var g := if i == 0 then 0 else gapSamples;
      CopyStep(bufs, i, gapSamples, joined);
      PlaceAfter(joined, totalSamples, g, chunkData);
      ghost var before := resultFloat32[..];
      CopyInto(resultFloat32, chunkData, offset);
      assert resultFloat32[..] == before[..|joined| + g] + chunkData + before[|joined| + g + |chunkData|..];
      joined := joined + Zeros(g) + chunkData;
      offset := offset + |chunkData| + gapSamples;
    }
    JoinedLength(bufs, gapSamples);
    assert bufs[..|bufs|] == bufs;
  }

  /** One step of the copy loop: buffer `i` goes right after the joined prefix and its gap. */
  lemma CopyStep(bufs: seq<AudioBuffer>, i: nat, gapSamples: nat, joined: seq<real>)
    requires i < |bufs| && joined == Joined(bufs[..i], gapSamples)
    ensures var g := if i == 0 then 0 else gapSamples;
            && joined + Zeros(g) + bufs[i].data == Joined(bufs[..i + 1], gapSamples)
            && |joined| + g + |bufs[i].data| <= TotalSamples(bufs, gapSamples)
  {
    JoinedSnoc(bufs, i, gapSamples);
    JoinedPrefixFits(bufs, i + 1, gapSamples);
    if i == 0 {
      assert bufs[..0] == [];
      assert joined + Zeros(0) + bufs[0].data == bufs[0].data;
    }
  }

  lemma MulMono(a: nat, b: nat, c: nat)
    requires a <= b
    ensures a * c <= b * c
  {
  }

  /** Every prefix of the joined samples fits in the total. */
  lemma JoinedPrefixFits(bufs: seq<AudioBuffer>, m: nat, gapSamples: nat)
    requires 1 <= m <= |bufs|
    ensures |Joined(bufs[..m], gapSamples)| <= TotalSamples(bufs, gapSamples)
  {
    JoinedLength(bufs[..m], gapSamples);
    SumLengthsPrefix(bufs, m);
    MulMono(m - 1, |bufs| - 1, gapSamples);
  }

  // ----- Encoding -----

  /** The RIFF chunk descriptor: the tag, the size of the rest of the file and the form type. */
  function RiffDescriptor(n: nat): (b: seq<Byte>)
    ensures |b| == 12
  {
    BytesOf("RIFF") + LE32(36 + n * 2) + BytesOf("WAVE")
  }

  /** The "fmt " chunk: size 16, PCM format tag 1, one channel, the rate, the byte rate, block align 2, 16 bits. */
  function FmtChunk(sampleRate: int): (b: seq<Byte>)
    ensures |b| == 24
  {
    BytesOf("fmt ") + LE32(16) + LE16(1) + LE16(1) + LE32(sampleRate) + LE32(sampleRate * 2) + LE16(2) + LE16(16)
  }

  /** The "data" chunk header: the tag and the size of the sample bytes. */
  function DataHeader(n: nat): (b: seq<Byte>)
    ensures |b| == 8
  {
    BytesOf("data") + LE32(n * 2)
  }

  /** The 44-byte header of a mono, 16-bit PCM RIFF WAVE file with `n` samples. */
  function Header(n: nat, sampleRate: int): (h: seq<Byte>)
    ensures |h| == 44
  {
    RiffDescriptor(n) + FmtChunk(sampleRate) + DataHeader(n)
  }

  /** `Math.max(-1, Math.min(1, s))` */
  function Clamp(s: real): (c: real)
    ensures -1.0 <= c <= 1.0
  {
    if s < -1.0 then -1.0 else if s > 1.0 then 1.0 else s
  }

  /** The truncation toward zero of a store into an `Int16Array`. */
  function Trunc(x: real): int {
    if x >= 0.0 then x.Floor else -((-x).Floor)
  }

  /** The 16-bit value stored for a sample: clamped, then scaled by 32768 below zero and 32767 otherwise. */
  function ToPcm(s: real): int {
    var c := Clamp(s);
    if c < 0.0 then Trunc(c * 32768.0) else Trunc(c * 32767.0)
  }

  /** The little-endian sample bytes after the header. */
  function PcmBytes(samples: seq<real>): (b: seq<Byte>)
    ensures |b| == 2 * |samples|
  {
    if samples == [] then [] else PcmBytes(samples[..|samples| - 1]) + LE16(ToPcm(samples[|samples| - 1]))
  }

  /** The WAV file `encodeWAV` produces. */
  function Wav(samples: seq<real>, sampleRate: int): seq<Byte> {
    Header(|samples|, sampleRate) + PcmBytes(samples)
  }

  /** `view.setUint8` for each code unit of the string, from `offset` on. */
  method WriteString(view: array<Byte>, offset: nat, s: string)
    requires offset + |s| <= view.Length
    modifies view
    ensures view[..] == old(view[..offset]) + BytesOf(s) + old(view[offset + |s|..])
  {
    for i := 0 to |s|
      invariant view[..offset] == old(view[..offset])
      invariant view[offset..offset + i] == BytesOf(s)[..i]
      invariant view[offset + |s|..] == old(view[offset + |s|..])
      invariant forall j :: offset + i <= j < offset + |s| ==> view[j] == old(view[j])
    {
      view[offset + i] := ByteOf(s[i]);
      assert BytesOf(s)[..i + 1] == BytesOf(s)[..i] + [BytesOf(s)[i]];
    }
    assert view[..] == view[..offset] + view[offset..offset + |s|] + view[offset + |s|..];
  }

  /** `DataView.setUint16(offset, v, true)` */
  method SetUint16(view: array<Byte>, offset: nat, v: int)
    requires offset + 2 <= view.Length
    modifies view
    ensures view[..] == old(view[..offset]) + LE16(v) + old(view[offset + 2..])
  {
    var b := LE16(v);
    view[offset] := b[0];
    view[offset + 1] := b[1];
    assert view[..] == view[..offset] + view[offset..offset + 2] + view[offset + 2..];
  }

  /** `DataView.setUint32(offset, v, true)` */
  method SetUint32(view: array<Byte>, offset: nat, v: int)
    requires offset + 4 <= view.Length
    modifies view
    ensures view[..] == old(view[..offset]) + LE32(v) + old(view[offset + 4..])
  {
    var b := LE32(v);
    view[offset] := b[0];
    view[offset + 1] := b[1];
    view[offset + 2] := b[2];
    view[offset + 3] := b[3];
    assert view[..] == view[..offset] + view[offset..offset + 4] + view[offset + 4..];
  }

  /**
   * After writing `b` just past the prefix `h`, the prefix is `h + b`, and
   * nothing from `end` on has changed.
   */
  lemma PrefixGrows(before: seq<Byte>, after: seq<Byte>, h: seq<Byte>, b: seq<Byte>, end: nat)
    requires |h| + |b| <= end <= |before| && before[..|h|] == h
    requires after == before[..|h|] + b + before[|h| + |b|..]
    ensures |after| == |before|
    ensures after[..|h| + |b|] == h + b
    ensures after[end..] == before[end..]
  {
    assert after[..|h| + |b|] == before[..|h|] + b;
  }

  /** `encodeWAV`'s first three writes. */
  method WriteRiffDescriptor(view: array<Byte>, n: nat)
    requires 12 <= view.Length
    modifies view
    ensures view[..12] == RiffDescriptor(n) && view[12..] == old(view[12..])
  {
    ghost var v := view[..];
    WriteString(view, 0, "RIFF");
    PrefixGrows(v, view[..], [], BytesOf("RIFF"), 12);
    ghost var h := BytesOf("RIFF");
    v := view[..];
    SetUint32(view, 4, 36 + n * 2);
    PrefixGrows(v, view[..], h, LE32(36 + n * 2), 12);
    h := h + LE32(36 + n * 2);
    v := view[..];
    WriteString(view, 8, "WAVE");
    PrefixGrows(v, view[..], h, BytesOf("WAVE"), 12);
  }

  /** `encodeWAV`'s writes at offsets 12 to 34, after the RIFF descriptor `p`. */
  method WriteFmtChunk(view: array<Byte>, sampleRate: int, ghost p: seq<Byte>)
    requires 36 <= view.Length && |p| == 12 && view[..12] == p
    modifies view
    ensures view[..36] == p + FmtChunk(sampleRate) && view[36..] == old(view[36..])
  {
    WriteFormatFields(view, p);
    WriteRateFields(view, sampleRate, p + BytesOf("fmt ") + LE32(16) + LE16(1) + LE16(1));
  }

  /** The chunk tag, chunk size, format tag and channel count, at offsets 12 to 22. */
  method WriteFormatFields(view: array<Byte>, ghost p: seq<Byte>)
    requires 36 <= view.Length && |p| == 12 && view[..12] == p
    modifies view
    ensures view[..24] == p + BytesOf("fmt ") + LE32(16) + LE16(1) + LE16(1) && view[36..] == old(view[36..])
  {
    ghost var v := view[..];
    WriteString(view, 12, "fmt ");
    PrefixGrows(v, view[..], p, BytesOf("fmt "), 36);
    ghost var h := p + BytesOf("fmt ");
    v := view[..];
    SetUint32(view, 16, 16);
    PrefixGrows(v, view[..], h, LE32(16), 36);
    h := h + LE32(16);
    v := view[..];
    SetUint16(view, 20, 1);
    PrefixGrows(v, view[..], h, LE16(1), 36);
    h := h + LE16(1);
    v := view[..];
    SetUint16(view, 22, 1);
    PrefixGrows(v, view[..], h, LE16(1), 36);
  }

  /** The sample rate, byte rate, block align and bits per sample, at offsets 24 to 34. */
  method WriteRateFields(view: array<Byte>, sampleRate: int, ghost p: seq<Byte>)
    requires 36 <= view.Length && |p| == 24 && view[..24] == p
    modifies view
    ensures view[..36] == p + LE32(sampleRate) + LE32(sampleRate * 2) + LE16(2) + LE16(16)
    ensures view[36..] == old(view[36..])
  {
    ghost var v := view[..];
    ghost var h := p;
    SetUint32(view, 24, sampleRate);
    PrefixGrows(v, view[..], h, LE32(sampleRate), 36);
    h := h + LE32(sampleRate);
    v := view[..];
    SetUint32(view, 28, sampleRate * 2);
    PrefixGrows(v, view[..], h, LE32(sampleRate * 2), 36);
    h := h + LE32(sampleRate * 2);
    v := view[..];
    SetUint16(view, 32, 2);
    PrefixGrows(v, view[..], h, LE16(2), 36);
    h := h + LE16(2);
    v := view[..];
    SetUint16(view, 34, 16);
    PrefixGrows(v, view[..], h, LE16(16), 36);
  }

  /** `encodeWAV`'s last two header writes, after the first 36 header bytes `p`. */
  method WriteDataHeader(view: array<Byte>, n: nat, ghost p: seq<Byte>)
    requires 44 <= view.Length && |p| == 36 && view[..36] == p
    modifies view
    ensures view[..44] == p + DataHeader(n) && view[44..] == old(view[44..])
  {
    ghost var v := view[..];
    WriteString(view, 36, "data");
    PrefixGrows(v, view[..], p, BytesOf("data"), 44);
    v := view[..];
    SetUint32(view, 40, n * 2);
    PrefixGrows(v, view[..], p + BytesOf("data"), LE32(n * 2), 44);
  }

  /** The twelve header writes of `encodeWAV`. */
  method WriteHeader(view: array<Byte>, n: nat, sampleRate: int)
    requires 44 <= view.Length
    modifies view
    ensures view[..44] == Header(n, sampleRate) && view[44..] == old(view[44..])
  {
    WriteRiffDescriptor(view, n);
    WriteFmtChunk(view, sampleRate, RiffDescriptor(n));
    WriteDataHeader(view, n, RiffDescriptor(n) + FmtChunk(sampleRate));
  }

  lemma PcmBytesSnoc(samples: seq<real>, i: nat)
    requires i < |samples|
    ensures PcmBytes(samples[..i + 1]) == PcmBytes(samples[..i]) + LE16(ToPcm(samples[i]))
  {
    assert samples[..i + 1][..i] == samples[..i];
  }

  /** `encodeWAV`: the header writes at their fixed offsets, then the 16-bit sample loop. */
  method EncodeWAV(samples: array<real>, sampleRate: int) returns (wav: seq<Byte>)
    ensures wav == Wav(samples[..], sampleRate)
  {
    var n := samples.Length;
    var view := new Byte[44 + n * 2](_ => 0);
    WriteHeader(view, n, sampleRate);
    WriteSamples(view, samples, Header(n, sampleRate));
    wav := view[..];
  }

  /** The `Int16Array` fill loop of `encodeWAV`, after the header `h`. */
  method WriteSamples(view: array<Byte>, samples: array<real>, ghost h: seq<Byte>)
    requires |h| == 44 && view.Length == 44 + 2 * samples.Length && view[..44] == h
    modifies view
    ensures view[..] == h + PcmBytes(samples[..])
  {
    assert samples[..0] == [];
    for i := 0 to samples.Length
      invariant view[..44 + 2 * i] == h + PcmBytes(samples[..i])
    {
      WriteSample(view, samples, i, h);
    }
    assert samples[..samples.Length] == samples[..];
    assert view[..] == view[..44 + 2 * samples.Length];
  }

  /** One iteration of the fill loop: sample `i`, clamped and scaled, lands after the samples before it. */
  method WriteSample(view: array<Byte>, samples: array<real>, i: nat, ghost h: seq<Byte>)
    requires |h| == 44 && view.Length == 44 + 2 * samples.Length && i < samples.Length
    requires view[..44 + 2 * i] == h + PcmBytes(samples[..i])
    modifies view
    ensures view[..44 + 2 * (i + 1)] == h + PcmBytes(samples[..i + 1])
  {
    ghost var ss := samples[..];
    var s := Clamp(samples[i]);
    var pcm := if s < 0.0 then Trunc(s * 32768.0) else Trunc(s * 32767.0);
    assert pcm == ToPcm(ss[i]);
    PcmBytesSnoc(ss, i);
    ghost var v := view[..];
    ghost var hp := h + PcmBytes(ss[..i]);
    SetUint16(view, 44 + 2 * i, pcm);
    PrefixGrows(v, view[..], hp, LE16(pcm), view.Length);
    assert hp + LE16(pcm) == h + PcmBytes(ss[..i + 1]);
  }
}
