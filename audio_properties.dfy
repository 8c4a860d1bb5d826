/**
 * What the assembled audio means: where each buffer lands in the merged
 * samples, how the timings line up with it, the fields of the WAV header,
 * and that decoding an encoded sample gives back its 16-bit value.
 */
module AudioProperties {
  import opened Wrappers
  import opened Types
  import opened AudioEngine

  // ----- The merged samples -----

  /** The offset of the next buffer is this one's offset, its length and one gap. */
  lemma OffsetNext(bufs: seq<AudioBuffer>, i: nat, gapSamples: nat)
    requires i < |bufs|
    ensures Offset(bufs, i + 1, gapSamples) == Offset(bufs, i, gapSamples) + |bufs[i].data| + gapSamples
  {
    SumLengthsSnoc(bufs, i);
  }

  /** Joining a prefix of the buffers gives a prefix of the joined samples. */
  lemma {:induction false} JoinedPrefix(bufs: seq<AudioBuffer>, m: nat, gapSamples: nat)
    requires 1 <= m <= |bufs|
    ensures Joined(bufs[..m], gapSamples) <= Joined(bufs, gapSamples)
    decreases |bufs|
  {
    if m < |bufs| {
      var init := bufs[..|bufs| - 1];
      assert bufs[..m] == init[..m];
      JoinedPrefix(init, m, gapSamples);
      assert |bufs| > 1;
    } else {
      assert bufs[..m] == bufs;
    }
  }

  /** The joined samples of the buffers before `i`, padded with one gap, end where buffer `i` starts. */
  lemma JoinedBefore(bufs: seq<AudioBuffer>, i: nat, gapSamples: nat)
    requires 0 < i <= |bufs|
    ensures |Joined(bufs[..i], gapSamples)| + gapSamples == Offset(bufs, i, gapSamples)
  {
    JoinedLength(bufs[..i], gapSamples);
    assert (i - 1) * gapSamples + gapSamples == i * gapSamples;
  }

  /** The joined samples up to and including buffer `i` end where buffer `i` ends. */
  lemma JoinedThrough(bufs: seq<AudioBuffer>, i: nat, gapSamples: nat)
    requires i < |bufs|
    ensures |Joined(bufs[..i + 1], gapSamples)| == Offset(bufs, i, gapSamples) + |bufs[i].data|
    ensures Joined(bufs[..i + 1], gapSamples)[Offset(bufs, i, gapSamples)..] == bufs[i].data
  {
    JoinedSnoc(bufs, i, gapSamples);
    if i == 0 {
      assert bufs[..0] == [];
    } else {
      JoinedBefore(bufs, i, gapSamples);
    }
  }

  /** Sample `k` of buffer `i` is sample `Offset(i) + k` of the merged samples. */
  lemma JoinedLayout(bufs: seq<AudioBuffer>, gapSamples: nat, i: nat)
    requires i < |bufs|
    ensures var j, off := Joined(bufs, gapSamples), Offset(bufs, i, gapSamples);
            && off + |bufs[i].data| <= |j|
            && forall p :: off <= p < off + |bufs[i].data| ==> j[p] == bufs[i].data[p - off]
  {
    JoinedThrough(bufs, i, gapSamples);
    JoinedPrefix(bufs, i + 1, gapSamples);
  }

  /** The `gapSamples` samples after every buffer but the last are silent. */
  lemma JoinedGapSilent(bufs: seq<AudioBuffer>, gapSamples: nat, i: nat)
    requires i + 1 < |bufs|
    ensures var j, end := Joined(bufs, gapSamples), Offset(bufs, i, gapSamples) + |bufs[i].data|;
            && end + gapSamples <= |j|
            && forall p :: end <= p < end + gapSamples ==> j[p] == 0.0
  {
    JoinedThrough(bufs, i, gapSamples);
    JoinedSnoc(bufs, i + 1, gapSamples);
    assert bufs[..i + 2][..i + 1] == bufs[..i + 1];
    JoinedPrefix(bufs, i + 2, gapSamples);
  }

  /** The merged samples hold every buffer's frames and one gap between consecutive buffers. */
  lemma JoinedTotal(bufs: seq<AudioBuffer>, gapSamples: nat)
    requires bufs != []
    ensures |Joined(bufs, gapSamples)| == SumLengths(bufs) + (|bufs| - 1) * gapSamples
    ensures |Joined(bufs, gapSamples)| == Offset(bufs, |bufs| - 1, gapSamples) + |bufs[|bufs| - 1].data|
  {
    JoinedLength(bufs, gapSamples);
    OffsetNext(bufs, |bufs| - 1, gapSamples);
    assert bufs[..|bufs|] == bufs;
  }

  // ----- The timings -----

  lemma DivDiff(a: nat, b: nat, r: Rate)
    ensures (a + b) as real / r as real - a as real / r as real == b as real / r as real
  {
  }

  /**
   * Timing `i` starts at buffer `i`'s offset and lasts its frames, both at
   * the first buffer's rate, and records the buffer's own duration.
   */
  lemma TimingAt(bufs: seq<AudioBuffer>, gapSamples: nat, sampleRate: Rate, i: nat)
    requires i < |bufs|
    ensures var t := Timings(bufs, gapSamples, sampleRate)[i];
            && t.start == Offset(bufs, i, gapSamples) as real / sampleRate as real
            && t.end - t.start == |bufs[i].data| as real / sampleRate as real
            && t.duration == Duration(bufs[i])
  {
    DivDiff(Offset(bufs, i, gapSamples), |bufs[i].data|, sampleRate);
  }

  /** The next timing starts one gap after this one ends. */
  lemma TimingNext(bufs: seq<AudioBuffer>, gapSamples: nat, sampleRate: Rate, i: nat)
    requires i + 1 < |bufs|
    ensures var t := Timings(bufs, gapSamples, sampleRate);
            t[i + 1].start - t[i].end == gapSamples as real / sampleRate as real
  {
    OffsetNext(bufs, i, gapSamples);
    DivDiff(Offset(bufs, i, gapSamples) + |bufs[i].data|, gapSamples, sampleRate);
  }

  /** One timing per buffer; the first starts at 0 and the last ends where the merged samples end. */
  lemma TimingsEnds(bufs: seq<AudioBuffer>, gapSamples: nat, sampleRate: Rate)
    requires bufs != []
    ensures var t := Timings(bufs, gapSamples, sampleRate);
            && |t| == |bufs|
            && t[0].start == 0.0
            && t[|t| - 1].end == |Joined(bufs, gapSamples)| as real / sampleRate as real
  {
    assert bufs[..0] == [];
    JoinedTotal(bufs, gapSamples);
  }

  /** The timings never go backwards: each ends no earlier than it starts, and starts no earlier than the previous one ends. */
  lemma TimingsOrdered(bufs: seq<AudioBuffer>, gapSamples: nat, sampleRate: Rate, i: nat)
    requires i < |bufs|
    ensures var t := Timings(bufs, gapSamples, sampleRate);
            t[i].start <= t[i].end && (i + 1 < |t| ==> t[i].end <= t[i + 1].start)
  {
    TimingAt(bufs, gapSamples, sampleRate, i);
    if i + 1 < |bufs| {
      TimingNext(bufs, gapSamples, sampleRate, i);
    }
  }

  /** A buffer with some frames, or a positive gap, makes the next timing start strictly later. */
  lemma TimingStartsIncrease(bufs: seq<AudioBuffer>, gapSamples: nat, sampleRate: Rate, i: nat)
    requires i + 1 < |bufs| && (|bufs[i].data| > 0 || gapSamples > 0)
    ensures var t := Timings(bufs, gapSamples, sampleRate);
            t[i].start < t[i + 1].start
  {
    TimingAt(bufs, gapSamples, sampleRate, i);
    TimingNext(bufs, gapSamples, sampleRate, i);
    var r, a, g := sampleRate as real, |bufs[i].data| as real, gapSamples as real;
    assert a / r >= 0.0 && g / r >= 0.0;
    assert a / r > 0.0 || g / r > 0.0;
  }

  /** When a buffer has the first buffer's rate, its recorded duration is exactly its span. */
  lemma TimingDurationMatchesSpan(bufs: seq<AudioBuffer>, gapSamples: nat, i: nat)
    requires i < |bufs| && bufs[i].sampleRate == bufs[0].sampleRate
    ensures var t := Timings(bufs, gapSamples, bufs[0].sampleRate);
            t[i].duration == t[i].end - t[i].start
  {
    TimingAt(bufs, gapSamples, bufs[0].sampleRate, i);
  }

  /** A buffer of at least one frame, as decoding always gives, is recorded with a positive duration. */
  lemma TimingDurationPositive(bufs: seq<AudioBuffer>, gapSamples: nat, sampleRate: Rate, i: nat)
    requires i < |bufs| && |bufs[i].data| >= 1
    ensures Timings(bufs, gapSamples, sampleRate)[i].duration > 0.0
  {
    TimingAt(bufs, gapSamples, sampleRate, i);
    var n, r := |bufs[i].data| as real, bufs[i].sampleRate as real;
    assert n > 0.0 && r > 0.0;
  }

  // ----- The WAV file -----

  /** The 16-bit value written for any sample lies in the signed 16-bit range. */
  lemma ToPcmRange(s: real)
    ensures -0x8000 <= ToPcm(s) < 0x8000
  {
    var c := Clamp(s);
    if c < 0.0 {
      assert -32768.0 <= c * 32768.0 < 0.0;
    } else {
      assert 0.0 <= c * 32767.0 <= 32767.0;
    }
  }

  /** Bytes `2i` and `2i + 1` of the sample bytes are sample `i`'s 16-bit value, low byte first. */
  lemma {:induction false} PcmBytesAt(samples: seq<real>, i: nat)
    requires i < |samples|
    ensures PcmBytes(samples)[2 * i] == LE16(ToPcm(samples[i]))[0]
    ensures PcmBytes(samples)[2 * i + 1] == LE16(ToPcm(samples[i]))[1]
    decreases |samples|
  {
    var init := samples[..|samples| - 1];
    assert PcmBytes(samples) == PcmBytes(init) + LE16(ToPcm(samples[|samples| - 1]));
    if i < |samples| - 1 {
      PcmBytesAt(init, i);
    }
  }

  /**
   * Decoding the sample bytes of an encoded file gives, for every sample,
   * its 16-bit value over 32768: the encoder and the decoder agree up to the
   * clamping and scaling of `ToPcm`.
   */
  lemma EncodeThenDecode(samples: seq<real>)
    ensures var d := PcmSamples(PcmBytes(samples));
            && |d| == |samples|
            && forall i :: 0 <= i < |samples| ==> d[i] == ToPcm(samples[i]) as real / 32768.0
  {
    var b := PcmBytes(samples);
    forall i | 0 <= i < |samples|
      ensures Int16LE(b[2 * i], b[2 * i + 1]) == ToPcm(samples[i])
    {
      PcmBytesAt(samples, i);
      ToPcmRange(samples[i]);
      Int16RoundTrip(ToPcm(samples[i]));
    }
  }

  /** A sample that decoding produced is encoded back to the same 16-bit value, except that +1.0 would saturate. */
  lemma DecodedSampleReencodes(v: int)
    requires -0x8000 <= v < 0x8000
    ensures v < 0 ==> ToPcm(v as real / 32768.0) == v
    ensures v >= 0 ==> ToPcm(v as real / 32768.0) == Trunc(v as real * 32767.0 / 32768.0)
  {
    var s := v as real / 32768.0;
    assert -1.0 <= s < 1.0;
    assert Clamp(s) == s;
    if v < 0 {
      assert s * 32768.0 == v as real;
      assert (-(v as real)).Floor == -v;
    }
  }

  /** The RIFF header fields: the tags, the sizes, the format (PCM, mono, 16-bit) and the rates. */
  lemma HeaderFields(n: nat, sampleRate: int)
    ensures var h := Header(n, sampleRate);
            && h[0..4] == [0x52, 0x49, 0x46, 0x46]
            && ReadU32(h, 4) == (36 + 2 * n) % 0x1_0000_0000
            && h[8..12] == [0x57, 0x41, 0x56, 0x45]
            && h[12..16] == [0x66, 0x6d, 0x74, 0x20]
            && ReadU32(h, 16) == 16
            && ReadU16(h, 20) == 1
            && ReadU16(h, 22) == 1
            && ReadU32(h, 24) == sampleRate % 0x1_0000_0000
            && ReadU32(h, 28) == (2 * sampleRate) % 0x1_0000_0000
            && ReadU16(h, 32) == 2
            && ReadU16(h, 34) == 16
            && h[36..40] == [0x64, 0x61, 0x74, 0x61]
            && ReadU32(h, 40) == (2 * n) % 0x1_0000_0000
  {
    var h := Header(n, sampleRate);
    RiffFields(n);
    FmtFields(sampleRate);
    DataFields(n);
    var rd, fc, dh := RiffDescriptor(n), FmtChunk(sampleRate), DataHeader(n);
    assert h[..12] == rd && h[12..36] == fc && h[36..] == dh;
  }

  lemma RiffFields(n: nat)
    ensures var b := RiffDescriptor(n);
            b[0..4] == [0x52, 0x49, 0x46, 0x46] && ReadU32(b, 4) == (36 + 2 * n) % 0x1_0000_0000 && b[8..12] == [0x57, 0x41, 0x56, 0x45]
  {
    ReadLE32(36 + n * 2);
    var b := RiffDescriptor(n);
    assert b[4..8] == LE32(36 + n * 2);
  }

  lemma FmtFields(sampleRate: int)
    ensures var b := FmtChunk(sampleRate);
            && b[0..4] == [0x66, 0x6d, 0x74, 0x20]
            && ReadU32(b, 4) == 16 && ReadU16(b, 8) == 1 && ReadU16(b, 10) == 1
            && ReadU32(b, 12) == sampleRate % 0x1_0000_0000
            && ReadU32(b, 16) == (2 * sampleRate) % 0x1_0000_0000
            && ReadU16(b, 20) == 2 && ReadU16(b, 22) == 16
  {
    var b := FmtChunk(sampleRate);
    ReadLE32(sampleRate);
    ReadLE32(sampleRate * 2);
    assert b[12..16] == LE32(sampleRate);
    assert b[16..20] == LE32(sampleRate * 2);
  }

  lemma DataFields(n: nat)
    ensures var b := DataHeader(n);
            b[0..4] == [0x64, 0x61, 0x74, 0x61] && ReadU32(b, 4) == (2 * n) % 0x1_0000_0000
  {
    ReadLE32(n * 2);
    var b := DataHeader(n);
    assert b[4..8] == LE32(n * 2);
  }

  /** The file is the 44-byte header followed by two bytes per sample. */
  lemma WavShape(samples: seq<real>, sampleRate: int)
    ensures var w := Wav(samples, sampleRate);
            && |w| == 44 + 2 * |samples|
            && w[..44] == Header(|samples|, sampleRate)
            && w[44..] == PcmBytes(samples)
  {
  }

  /** A 32-bit read inside the first part of a concatenation reads that part. */
  lemma ReadU32Front(a: seq<Byte>, b: seq<Byte>, at: nat)
    requires at + 4 <= |a|
    ensures ReadU32(a + b, at) == ReadU32(a, at)
  {
  }

  /** A 32-bit read inside the second part of a concatenation reads that part. */
  lemma ReadU32Back(a: seq<Byte>, b: seq<Byte>, at: nat)
    requires at + 4 <= |b|
    ensures ReadU32(a + b, |a| + at) == ReadU32(b, at)
  {
  }

  /** The RIFF size field of the file, as written: the bytes after the first eight, modulo 2^32. */
  lemma WavRiffSize(samples: seq<real>, sampleRate: int)
    ensures ReadU32(Wav(samples, sampleRate), 4) == (36 + 2 * |samples|) % 0x1_0000_0000
  {
    var n := |samples|;
    var rd, fc, dh := RiffDescriptor(n), FmtChunk(sampleRate), DataHeader(n);
    RiffFields(n);
    ReadU32Front(rd + fc + dh, PcmBytes(samples), 4);
    ReadU32Front(rd + fc, dh, 4);
    ReadU32Front(rd, fc, 4);
  }

  /** The data size field of the file, as written: the sample bytes, modulo 2^32. */
  lemma WavDataSize(samples: seq<real>, sampleRate: int)
    ensures ReadU32(Wav(samples, sampleRate), 40) == (2 * |samples|) % 0x1_0000_0000
  {
    var n := |samples|;
    var rd, fc, dh := RiffDescriptor(n), FmtChunk(sampleRate), DataHeader(n);
    DataFields(n);
    ReadU32Front(rd + fc + dh, PcmBytes(samples), 40);
    ReadU32Back(rd + fc, dh, 4);
  }

  /** While the file is under 4 GiB its two size fields are right: the bytes after the first eight, and the sample bytes. */
  lemma WavSizeFields(samples: seq<real>, sampleRate: int)
    requires 44 + 2 * |samples| < 0x1_0000_0000
    ensures var w := Wav(samples, sampleRate);
            ReadU32(w, 4) == |w| - 8 && ReadU32(w, 40) == |w| - 44
  {
    WavRiffSize(samples, sampleRate);
    WavDataSize(samples, sampleRate);
    WavShape(samples, sampleRate);
    ModSmall(36 + 2 * |samples|);
    ModSmall(2 * |samples|);
  }

  lemma ModSmall(x: nat)
    requires x < 0x1_0000_0000
    ensures x % 0x1_0000_0000 == x
  {
  }

  // ----- The merge as a whole -----

  /**
   * Merging no buffers fails with the source's message; merging some gives
   * a WAV file of the joined samples at the first buffer's rate, holding
   * `TotalSamples` samples, and one timing per buffer.
   */
  lemma MergedShape(bufs: seq<AudioBuffer>, gapSeconds: real)
    requires gapSeconds >= 0.0
    ensures bufs == [] <==> MergedOf(bufs, gapSeconds).Err?
    ensures bufs == [] ==> MergedOf(bufs, gapSeconds) == Err(Raise("No audio buffers to merge."))
    ensures bufs != [] ==>
              var m := MergedOf(bufs, gapSeconds).value;
              var gap := GapSamples(gapSeconds, bufs[0].sampleRate);
              && |m.blob| == 44 + 2 * TotalSamples(bufs, gap)
              && m.blob[..44] == Header(TotalSamples(bufs, gap), bufs[0].sampleRate)
              && |m.timings| == |bufs|
  {
    if bufs != [] {
      var gap := GapSamples(gapSeconds, bufs[0].sampleRate);
      JoinedLength(bufs, gap);
      WavShape(Joined(bufs, gap), bufs[0].sampleRate);
      TimingsEnds(bufs, gap, bufs[0].sampleRate);
    }
  }
}
