/** The audio path from the capture's wide samples to the S16LE samples of one stream: the reduction of each
    sample to its top 16 bits, and the selection of the stream's channels. */
module Samples {
  import opened Common

  /** The capture formats: 16-bit, 32-bit, 24 bits in the low bytes of a 4-byte word, and 24 bits packed. */
  datatype Format = S16LE | S32LE | S24LE | S243LE
  {
    function Width(): int { match this case S16LE => 2 case S32LE => 4 case S24LE => 4 case S243LE => 3 }

    /** How far the reduction to 16 bits shifts a sample to the right, as a divisor. */
    function Scale(): int { match this case S16LE => 1 case S32LE => 65536 case S24LE => 256 case S243LE => 256 }

    /** Where the two bytes the reduction keeps start. */
    function Kept(): int { match this case S16LE => 0 case S32LE => 2 case S24LE => 1 case S243LE => 1 }
  }

  /** Two's complement: the value of an unsigned word below the given modulus. */
  function Signed(word: int, modulus: int): int { if 2 * word >= modulus then word - modulus else word }

  function Int16(b0: byte, b1: byte): int { Signed(b0 + 256 * b1, 0x1_0000) }

  function Int24(b0: byte, b1: byte, b2: byte): int { Signed(b0 + 256 * b1 + 65536 * b2, 0x100_0000) }

  function Int32(b0: byte, b1: byte, b2: byte, b3: byte): int {
    Signed(b0 + 256 * b1 + 65536 * b2 + 0x100_0000 * b3, 0x1_0000_0000)
  }

  /** The value of sample i of little-endian bytes: two's complement, whatever a padding byte holds. */
  function Sample(format: Format, bytes: seq<byte>, i: nat): int
    requires (i + 1) * format.Width() <= |bytes|
  {
    var o := i * format.Width();
    match format
    case S16LE => Int16(bytes[o], bytes[o + 1])
    case S32LE => Int32(bytes[o], bytes[o + 1], bytes[o + 2], bytes[o + 3])
    case S24LE => Int24(bytes[o], bytes[o + 1], bytes[o + 2])
    case S243LE => Int24(bytes[o], bytes[o + 1], bytes[o + 2])
  }

  /** The unsigned value of little-endian bytes, and how many values that many bytes have. */
  function Word(bytes: seq<byte>): int { if bytes == [] then 0 else bytes[0] + 256 * Word(bytes[1..]) }

  function Values(n: nat): int { if n == 0 then 1 else 256 * Values(n - 1) }

  /** How many of a sample's bytes carry it. */
  function Carriers(format: Format): nat { if format.S16LE? then 2 else if format.S32LE? then 4 else 3 }

  /** A sample is the two's complement value of its little-endian bytes: the one congruent to their unsigned value that
      is in range. */
  lemma SampleIsTwosComplement(format: Format, bytes: seq<byte>, i: nat)
    requires (i + 1) * format.Width() <= |bytes|
    ensures var o, n := i * format.Width(), Carriers(format);
            && 0 <= o && o + n <= |bytes| && -Values(n) <= 2 * Sample(format, bytes, i) < Values(n)
            && (|| Sample(format, bytes, i) == Word(bytes[o..o + n])
                || Sample(format, bytes, i) == Word(bytes[o..o + n]) - Values(n))
  {
    var o, n := i * format.Width(), Carriers(format);
    var w := bytes[o..o + n];
    WordIs(w);
    assert forall k | 0 <= k < n :: w[k] == bytes[o + k];
    assert Values(2) == 0x1_0000 && Values(3) == 0x100_0000 && Values(4) == 0x1_0000_0000;
  }

  lemma WordIs(w: seq<byte>)
    requires 2 <= |w| <= 4
    ensures var x: int, y: int := w[0], w[1];
            Word(w) == x + 256 * y + (if |w| >= 3 then 65536 * (w[2] as int) else 0)
                       + (if |w| == 4 then 0x100_0000 * (w[3] as int) else 0)
  {
    assert Word(w) == w[0] + 256 * Word(w[1..]);
    assert Word(w[1..]) == w[1] + 256 * Word(w[2..]) by { assert w[1..][1..] == w[2..]; }
    if |w| >= 3 { assert Word(w[2..]) == w[2] + 256 * Word(w[3..]) by { assert w[2..][1..] == w[3..]; } }
    if |w| == 4 { assert Word(w[3..]) == w[3] + 256 * Word(w[4..]) by { assert w[3..][1..] == w[4..]; } }
  }

  /** The kept bytes are the arithmetic right shift of the sample: a division rounding down. */
  lemma KeptIsShift(b0: byte, b1: byte, b2: byte, b3: byte)
    ensures Int16(b2, b3) == Int32(b0, b1, b2, b3) / 65536
    ensures Int16(b1, b2) == Int24(b0, b1, b2) / 256
  {}

  lemma KeptBytesAreShift(format: Format, bytes: seq<byte>, i: nat)
    requires (i + 1) * format.Width() <= |bytes|
    ensures var o := i * format.Width() + format.Kept();
            0 <= o && o + 1 < |bytes| && Int16(bytes[o], bytes[o + 1]) == Sample(format, bytes, i) / format.Scale()
  {
    var o := i * format.Width();
    match format
    case S16LE =>
    case S32LE => KeptIsShift(bytes[o], bytes[o + 1], bytes[o + 2], bytes[o + 3]);
    case S24LE => KeptIsShift(bytes[o], bytes[o + 1], bytes[o + 2], bytes[o + 3]);
    case S243LE => KeptIsShift(bytes[o], bytes[o + 1], bytes[o + 2], 0);
  }

  /** The reduction of the whole samples in src to the S16LE samples at the start of dst. */
  ghost predicate Reduced(format: Format, src: seq<byte>, dst: seq<byte>) {
    |dst| == |src| / format.Width() * 2
    && forall i: nat | i < |src| / format.Width() :: ReducedAt(format, src, dst, i)
  }

  ghost predicate ReducedAt(format: Format, src: seq<byte>, dst: seq<byte>, i: nat) {
    (i + 1) * format.Width() <= |src| && (i + 1) * 2 <= |dst|
    && Sample(S16LE, dst, i) == Sample(format, src, i) / format.Scale()
  }

  /** Sample k of dst is the kept bytes of sample k of src. */
  ghost predicate Copied(format: Format, dst: seq<byte>, src: seq<byte>, k: nat) {
    var s := k * format.Width() + format.Kept();
    && k * 2 + 1 < |dst| && 0 <= s && s + 1 < |src|
    && dst[k * 2] == src[s] && dst[k * 2 + 1] == src[s + 1]
  }

  /** A strided copy of the kept bytes of every whole sample is the reduction. */
  lemma CopiedIsReduced(format: Format, src: seq<byte>, dst: seq<byte>)
    requires |dst| == |src| / format.Width() * 2
    requires forall k: nat | k < |src| / format.Width() :: Copied(format, dst, src, k)
    ensures Reduced(format, src, dst)
  {
    forall k: nat | k < |src| / format.Width() ensures ReducedAt(format, src, dst, k) {
      assert Copied(format, dst, src, k);
      Fits(k, |src| / format.Width(), format.Width(), |src|);
      KeptBytesAreShift(format, src, k);
    }
  }

  lemma Fits(i: nat, samples: nat, width: int, len: nat)
    requires i < samples && samples * width <= len && 2 <= width
    ensures i * width + width == (i + 1) * width <= len
  {
    Times(i + 1, samples, width);
    assert (i + 1) * width == i * width + width;
  }

  /** Reduces the whole 32-bit samples in the first len bytes of src. A trailing partial sample is ignored,
      and dst is left alone past what is written. */
  method DownconvertS32ToS16(dst: array<byte>, src: array<byte>, len: nat) returns (written: nat)
    requires len <= src.Length && len / 4 * 2 <= dst.Length && dst != src
    modifies dst
    ensures written == len / 4 * 2 && dst[written..] == old(dst[written..])
    ensures Reduced(S32LE, src[..len], dst[..written])
  {
    var samples := len / 4;
    for i := 0 to samples
      invariant forall k: nat | k < i :: dst[k * 2] == src[k * 4 + 2] && dst[k * 2 + 1] == src[k * 4 + 3]
      invariant dst[samples * 2..] == old(dst[samples * 2..])
    {
      dst[i * 2] := src[i * 4 + 2];
      dst[i * 2 + 1] := src[i * 4 + 3];
    }
    written := samples * 2;
    CopiedIsReduced(S32LE, src[..len], dst[..written]);
  }

  /** Reduces the whole 24-bit samples, packed or in 4-byte words, in the first len bytes of src. */
  method DownconvertS24ToS16(dst: array<byte>, src: array<byte>, len: nat, srcBytes: int) returns (written: nat)
    requires srcBytes == 3 || srcBytes == 4
    requires len <= src.Length && len / srcBytes * 2 <= dst.Length && dst != src
    modifies dst
    ensures written == len / srcBytes * 2 && dst[written..] == old(dst[written..])
    ensures Reduced(if srcBytes == 3 then S243LE else S24LE, src[..len], dst[..written])
  {
    ghost var format, whole := if srcBytes == 3 then S243LE else S24LE, src[..len];
    var samples := len / srcBytes;
    assert samples * srcBytes <= len;
    for i := 0 to samples
      invariant forall k: nat | k < i :: Copied(format, dst[..samples * 2], whole, k)
      invariant dst[samples * 2..] == old(dst[samples * 2..]) && src[..len] == whole
    {
      ghost var before := dst[..samples * 2];
      Fits(i, samples, srcBytes, len);
      dst[i * 2] := src[i * srcBytes + 1];
      dst[i * 2 + 1] := src[i * srcBytes + 2];
      forall k: nat | k < i + 1 ensures Copied(format, dst[..samples * 2], whole, k) {
        assert k < i ==> Copied(format, before, whole, k);
      }
    }
    written := samples * 2;
    CopiedIsReduced(format, whole, dst[..written]);
  }

  /** The S24LE padding byte does not matter: captures that differ in it alone hold the same samples. */
  lemma PaddingIgnored(a: seq<byte>, b: seq<byte>, i: nat)
    requires |a| == |b| && (i + 1) * 4 <= |a|
    requires forall k: nat | k < |a| && k % 4 != 3 :: a[k] == b[k]
    ensures Sample(S24LE, a, i) == Sample(S24LE, b, i)
  {
    assert (i * 4) % 4 == 0 && (i * 4 + 1) % 4 == 1 && (i * 4 + 2) % 4 == 2;
  }

  // ----- channel selection -----

  /** How many samples that many frames of that many channels are. */
  function Count(frames: nat, channels: nat): nat { frames * channels }

  /** Where channel j of frame f is among interleaved samples of the given channel count. */
  function Cell(f: nat, channels: nat, j: nat): (c: nat)
    ensures c == f * channels + j
  {
    f * channels + j
  }

  lemma {:induction false} Times(a: nat, b: nat, n: nat)
    requires a <= b
    ensures a * n <= b * n
    decreases b
  {
    if a < b {
      Times(a, b - 1, n);
      assert b * n == (b - 1) * n + n;
    }
  }

  lemma CellInside(channels: nat, f: nat, j: nat, frames: nat)
    requires j < channels && f < frames
    ensures Cell(f, channels, j) + 1 <= frames * channels
  {
    Times(f + 1, frames, channels);
    assert (f + 1) * channels == f * channels + channels;
  }

  /** The bytes of the selected channels of the frame that starts at sample c. */
  function FrameBytes(src: seq<byte>, c: nat, idx: seq<nat>): (r: seq<byte>)
    requires forall j | 0 <= j < |idx| :: 2 * (c + idx[j]) + 1 < |src|
    ensures |r| == 2 * |idx|
  {
    if idx == [] then []
    else
      var s := 2 * (c + idx[|idx| - 1]);
      FrameBytes(src, c, idx[..|idx| - 1]) + [src[s], src[s + 1]]
  }

  /** Every frame of src lies within it, and every channel selected within a frame. */
  ghost predicate Holds(src: seq<byte>, frames: nat, channels: nat, idx: seq<nat>) {
    2 * Count(frames, channels) <= |src| && forall j | 0 <= j < |idx| :: idx[j] < channels
  }

  lemma FrameHeld(src: seq<byte>, frames: nat, channels: nat, idx: seq<nat>, f: nat)
    requires Holds(src, frames, channels, idx) && f < frames
    ensures Holds(src, f, channels, idx)
    ensures forall j | 0 <= j < |idx| :: 2 * (Count(f, channels) + idx[j]) + 1 < |src|
  {
    forall j | 0 <= j < |idx| ensures 2 * (Count(f, channels) + idx[j]) + 1 < |src| {
      CellInside(channels, f, idx[j], frames);
    }
    Times(f, frames, channels);
  }

  function SelectBytes(src: seq<byte>, frames: nat, channels: nat, idx: seq<nat>): (r: seq<byte>)
    requires Holds(src, frames, channels, idx)
    ensures |r| == 2 * Count(frames, |idx|)
  {
    if frames == 0 then []
    else
      FrameHeld(src, frames, channels, idx, frames - 1);
      SelectBytes(src, frames - 1, channels, idx) + FrameBytes(src, Count(frames - 1, channels), idx)
  }

  lemma {:induction false} FrameSample(src: seq<byte>, c: nat, idx: seq<nat>, j: nat)
    requires (forall i | 0 <= i < |idx| :: 2 * (c + idx[i]) + 1 < |src|) && j < |idx|
    ensures var r, s := FrameBytes(src, c, idx), 2 * (c + idx[j]); r[2 * j] == src[s] && r[2 * j + 1] == src[s + 1]
  {
    if j < |idx| - 1 { FrameSample(src, c, idx[..|idx| - 1], j); }
  }

  /** Sample (f, j) of what is delivered is the sample of channel idx[j] in frame f, both bytes of it. */
  lemma {:induction false} SelectedSample(src: seq<byte>, frames: nat, channels: nat, idx: seq<nat>, f: nat, j: nat)
    requires Holds(src, frames, channels, idx) && f < frames && j < |idx|
    ensures var r := SelectBytes(src, frames, channels, idx);
            var s, o := 2 * Cell(f, channels, idx[j]), 2 * Cell(f, |idx|, j);
            o + 1 < |r| && s + 1 < |src| && r[o] == src[s] && r[o + 1] == src[s + 1]
  {
    FrameHeld(src, frames, channels, idx, frames - 1);
    CellInside(|idx|, f, j, frames);
    CellInside(channels, f, idx[j], frames);
    if f < frames - 1 {
      CellInside(|idx|, f, j, frames - 1);
      SelectedSample(src, frames - 1, channels, idx, f, j);
    } else {
      FrameSample(src, f * channels, idx, j);
    }
  }

  // ----- the whole path -----

  /** Bit-exact: sample (f, j) of what a stream delivers is the captured sample of its j-th channel in frame
      f, shifted right to 16 bits. */
  lemma DeliveredIsShift(format: Format, raw: seq<byte>, reduced: seq<byte>, frames: nat, channels: nat, idx: seq<nat>,
                         f: nat, j: nat)
    requires Reduced(format, raw, reduced) && Holds(reduced, frames, channels, idx) && f < frames && j < |idx|
    ensures var out, c, o := SelectBytes(reduced, frames, channels, idx), Cell(f, channels, idx[j]), Cell(f, |idx|, j);
            && (c + 1) * format.Width() <= |raw| && (o + 1) * 2 <= |out|
            && Sample(S16LE, out, o) == Sample(format, raw, c) / format.Scale()
  {
    var c := Cell(f, channels, idx[j]);
    SelectedSample(reduced, frames, channels, idx, f, j);
    CellInside(channels, f, idx[j], frames);
    assert c < |raw| / format.Width();
    assert ReducedAt(format, raw, reduced, c);
  }

  /** A native 16-bit capture is its own reduction. */
  lemma NativeIsReduced(raw: seq<byte>)
    requires |raw| % 2 == 0
    ensures Reduced(S16LE, raw, raw)
  {
    forall i: nat | i < |raw| / 2 ensures ReducedAt(S16LE, raw, raw, i) {}
  }

  /** A native 16-bit capture is delivered sample for sample. */
  lemma NativeIsExact(raw: seq<byte>, frames: nat, channels: nat, idx: seq<nat>, f: nat, j: nat)
    requires |raw| % 2 == 0 && Holds(raw, frames, channels, idx) && f < frames && j < |idx|
    ensures var out, c, o := SelectBytes(raw, frames, channels, idx), Cell(f, channels, idx[j]), Cell(f, |idx|, j);
            && (c + 1) * 2 <= |raw| && (o + 1) * 2 <= |out| && Sample(S16LE, out, o) == Sample(S16LE, raw, c)
  {
    NativeIsReduced(raw);
    DeliveredIsShift(S16LE, raw, raw, frames, channels, idx, f, j);
  }

  /** A stream that selects every channel in order is given the capture itself, unwrapped. */
  method NewSelectingSource(channels: nat, selection: seq<nat>) returns (idx: seq<nat>, passthrough: bool)
    requires forall i | 0 <= i < |selection| :: 1 <= selection[i] <= channels
    ensures |idx| == |selection| && forall i | 0 <= i < |idx| :: idx[i] == selection[i] - 1
    ensures passthrough <==> |selection| == channels && forall i | 0 <= i < channels :: selection[i] == i + 1
  {
    idx := [];
    for i := 0 to |selection|
      invariant |idx| == i && forall k | 0 <= k < i :: idx[k] == selection[k] - 1
    {
      idx := idx + [selection[i] - 1];
    }
    passthrough := |idx| == channels;
    if passthrough {
      for i := 0 to |idx|
        invariant passthrough && forall k | 0 <= k < i :: idx[k] == k
      {
        if idx[i] != i {
          passthrough := false;
          break;
        }
      }
    }
  }

  predicate InOrder(idx: seq<nat>) { forall i | 0 <= i < |idx| :: idx[i] == i }

  lemma TwoMore(src: seq<byte>, a: nat, b: nat)
    requires a <= b && b + 2 <= |src|
    ensures src[a..b] + [src[b], src[b + 1]] == src[a..b + 2]
  {}

  lemma HeldFits(src: seq<byte>, frames: nat, channels: nat, idx: seq<nat>)
    requires Holds(src, frames, channels, idx)
    ensures 2 * Count(frames, channels) <= |src|
  {}

  lemma Joins(src: seq<byte>, a: nat, b: nat)
    requires a <= b <= |src|
    ensures src[..a] + src[a..b] == src[..b]
  {}

  lemma {:induction false} FrameInOrder(src: seq<byte>, c: nat, idx: seq<nat>)
    requires InOrder(idx) && 2 * (c + |idx|) <= |src|
    ensures FrameBytes(src, c, idx) == src[2 * c..2 * (c + |idx|)]
  {
    if idx != [] {
      FrameInOrder(src, c, idx[..|idx| - 1]);
      LastInOrder(src, c, idx);
      TwoMore(src, 2 * c, 2 * (c + |idx| - 1));
    }
  }

  lemma LastInOrder(src: seq<byte>, c: nat, idx: seq<nat>)
    requires InOrder(idx) && 2 * (c + |idx|) <= |src| && idx != []
    ensures var n, s := |idx| - 1, 2 * (c + |idx| - 1);
            InOrder(idx[..n]) && FrameBytes(src, c, idx) == FrameBytes(src, c, idx[..n]) + [src[s], src[s + 1]]
  {
    assert idx[|idx| - 1] == |idx| - 1;
  }

  /** The unwrapped source delivers exactly what the strided copy would. */
  lemma {:induction false} PassthroughIsCopy(src: seq<byte>, frames: nat, channels: nat, idx: seq<nat>)
    requires InOrder(idx) && |idx| == channels && Holds(src, frames, channels, idx)
    ensures SelectBytes(src, frames, channels, idx) == src[..2 * Count(frames, channels)]
  {
    hide Count, Holds, InOrder, FrameBytes;
    HeldFits(src, frames, channels, idx);
    if frames == 0 {
      NoFrames(channels);
    } else {
      FrameHeld(src, frames, channels, idx, frames - 1);
      NextFrame(frames - 1, channels, frames);
      PassthroughIsCopy(src, frames - 1, channels, idx);
      var c := Count(frames - 1, channels);
      FrameInOrder(src, c, idx);
      Joins(src, 2 * c, 2 * (c + channels));
    }
  }

  /** The source that delivers a stream's channels of an S16LE capture opened with `channels` of them. */
  class SelectingSource {
    const channels: nat
    /** The channels delivered, counted from 0, in the order the stream selects them. */
    const idx: seq<nat>
    /** Reused by every read, and grown when a period needs more. */
    var out: array<byte>

    constructor (channels: nat, idx: seq<nat>)
      requires forall j | 0 <= j < |idx| :: idx[j] < channels
      ensures this.channels == channels && this.idx == idx && fresh(out)
    {
      this.channels, this.idx, out := channels, idx, new byte[0];
    }

    /** One period: the selected channels of every frame of buf, at the start of the reused buffer. */
    method Read(buf: array<byte>, frames: nat) returns (need: nat)
      requires Holds(buf[..], frames, channels, idx) && buf != out
      modifies this, out
      ensures need == 2 * Count(frames, |idx|) <= out.Length && (out == old(out) || fresh(out))
      ensures out[..need] == SelectBytes(buf[..], frames, channels, idx) && buf[..] == old(buf[..])
    {
      hide Count, FrameBytes;
      NoFrames(|idx|);
      NoFrames(channels);
      need := 2 * Count(frames, |idx|);
      if out.Length < need { out := new byte[need]; }
      ghost var src := buf[..];
      for f := 0 to frames
        invariant out.Length >= need && buf != out && (out == old(out) || fresh(out)) && buf[..] == src
        invariant Holds(src, f, channels, idx) && 2 * Count(f, |idx|) <= need
        invariant out[..2 * Count(f, |idx|)] == SelectBytes(src, f, channels, idx)
      {
        FrameHeld(src, frames, channels, idx, f);
        NextFrame(f, |idx|, frames);
        NextFrame(f, channels, frames);
        CopyFrame(buf, Count(f, channels), 2 * Count(f, |idx|));
      }
    }

    /** The inner loop: the selected channels of the frame that starts at sample c, appended at offset o. */
    method CopyFrame(buf: array<byte>, c: nat, o: nat)
      requires buf != out && o + 2 * |idx| <= out.Length
      requires forall j | 0 <= j < |idx| :: 2 * (c + idx[j]) + 1 < buf.Length
      modifies out
      ensures out[..o + 2 * |idx|] == old(out[..o]) + FrameBytes(buf[..], c, idx) && buf[..] == old(buf[..])
    {
      ghost var src, done := buf[..], out[..o];
      for j := 0 to |idx|
        invariant buf[..] == src && out[..o + 2 * j] == done + FrameBytes(src, c, idx[..j])
      {
        var s := 2 * (c + idx[j]);
        ghost var prefix := out[..o + 2 * j];
        out[o + j * 2] := buf[s];
        out[o + j * 2 + 1] := buf[s + 1];
        assert out[..o + 2 * (j + 1)] == prefix + [src[s], src[s + 1]];
        assert idx[..j + 1][..j] == idx[..j];
      }
      assert idx[..|idx|] == idx;
    }
  }

  lemma NoFrames(n: nat)
    ensures Count(0, n) == 0
  {}

  lemma NextFrame(f: nat, n: nat, frames: nat)
    requires f < frames
    ensures Count(f + 1, n) == Count(f, n) + n <= Count(frames, n)
  {
    Times(f + 1, frames, n);
    assert (f + 1) * n == f * n + n;
  }
}
