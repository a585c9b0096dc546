/**
  The per-channel recorder: an interleaved 16-bit stream is split into one WAV file a channel.
 */
module ChannelRecorder {
  import opened Prelude

  type Int16 = x: int | -0x8000 <= x <= 0x7FFF

  // ---------------------------------------------------------------- samples

  /** Two bytes of the payload as they lie in memory, low byte first. */
  function Sample(low: Byte, high: Byte): Int16 {
    if high < 128 then low + 256 * high else low + 256 * high - 0x10000
  }

  /** An odd byte at the end belongs to no sample. */
  function Samples(data: seq<Byte>): (s: seq<Int16>)
    ensures |s| == |data| / 2
  {
    seq(|data| / 2, i requires 0 <= i < |data| / 2 => Sample(data[2 * i], data[2 * i + 1]))
  }

  function Truncate(x: real): int {
    if x >= 0.0 then x.Floor else -((-x).Floor)
  }

  /** One sample on its way to a file. */
  function Scaled(gain: real, x: Int16): Int16 {
    if gain == 1.0 then x
    else
      var s := Clamp(x as real * gain, -32768.0, 32767.0);
      Truncate(s)
  }

  lemma UnitGain(x: Int16)
    ensures Scaled(1.0, x) == x
  {
  }

  /** Scaling saturates instead of wrapping, and otherwise loses less than one step, towards zero. */
  lemma ScaledSaturates(gain: real, x: Int16)
    ensures var exact, r := x as real * gain, Scaled(gain, x);
      && (exact >= 32767.0 ==> r == 0x7FFF) && (exact <= -32768.0 ==> r == -0x8000)
      && (0.0 <= exact <= 32767.0 ==> r as real <= exact < r as real + 1.0)
      && (-32768.0 <= exact <= 0.0 ==> r as real - 1.0 < exact <= r as real)
  {
  }

  lemma ScaledMonotone(gain: real, x: Int16, y: Int16)
    requires gain >= 0.0 && x <= y
    ensures Scaled(gain, x) <= Scaled(gain, y)
  {
    assert (y - x) as real * gain >= 0.0;
    assert x as real * gain <= y as real * gain;
    TruncateMonotone(Clamp(x as real * gain, -32768.0, 32767.0), Clamp(y as real * gain, -32768.0, 32767.0));
  }

  lemma TruncateMonotone(x: real, y: real)
    requires x <= y
    ensures Truncate(x) <= Truncate(y)
  {
  }

  lemma IndexInRange(i: int, n: nat, channels: nat, c: int)
    requires 0 <= i < n && 0 <= c < channels
    ensures 0 <= i * channels + c < n * channels
  {
    MulMono(i + 1, n, channels);
    MulMono(0, i, channels);
  }

  /** What channel c holds of n interleaved frames. */
  function ChannelOf(gain: real, s: seq<Int16>, channels: nat, c: nat, n: nat): (r: seq<Int16>)
    requires |s| == n * channels && c < channels
    ensures |r| == n
  {
    seq(n, i requires 0 <= i < n => IndexInRange(i, n, channels, c); Scaled(gain, s[i * channels + c]))
  }

  lemma ChannelOfAt(gain: real, s: seq<Int16>, channels: nat, c: nat, n: nat, i: nat)
    requires |s| == n * channels && c < channels && i < n
    ensures 0 <= i * channels + c < |s|
    ensures ChannelOf(gain, s, channels, c, n)[i] == Scaled(gain, s[i * channels + c])
  {
    IndexInRange(i, n, channels, c);
  }

  lemma ChannelOfConcat(gain: real, s: seq<Int16>, t: seq<Int16>, channels: nat, c: nat, n: nat, m: nat)
    requires |s| == n * channels && |t| == m * channels && c < channels
    ensures |s + t| == (n + m) * channels
    ensures ChannelOf(gain, s + t, channels, c, n + m)
         == ChannelOf(gain, s, channels, c, n) + ChannelOf(gain, t, channels, c, m)
  {
    var whole := ChannelOf(gain, s + t, channels, c, n + m);
    var parts := ChannelOf(gain, s, channels, c, n) + ChannelOf(gain, t, channels, c, m);
    forall i: nat | i < n + m
      ensures whole[i] == parts[i]
    {
      ChannelOfAt(gain, s + t, channels, c, n + m, i);
      if i < n {
        ChannelOfAt(gain, s, channels, c, n, i);
      } else {
        ChannelOfAt(gain, t, channels, c, m, i - n);
        assert i * channels + c == n * channels + ((i - n) * channels + c);
      }
    }
  }

  /** Sample j of the stream lies in channel j % channels at position j / channels. */
  lemma Position(j: nat, channels: nat, n: nat)
    requires channels > 0 && j < n * channels
    ensures j / channels < n && j % channels < channels && j == (j / channels) * channels + j % channels
  {
    if j / channels >= n {
      MulMono(n, j / channels, channels);
    }
  }

  /** The channels put together again. */
  function Interleaved(files: seq<seq<Int16>>, n: nat): (s: seq<Int16>)
    requires files != [] && forall c :: 0 <= c < |files| ==> |files[c]| == n
    ensures |s| == n * |files|
  {
    seq(n * |files|, j requires 0 <= j < n * |files| => Position(j, |files|, n); files[j % |files|][j / |files|])
  }

  /** At gain 1 the channel files hold the recorded stream and nothing else. */
  lemma InterleavingRestores(s: seq<Int16>, files: seq<seq<Int16>>, n: nat)
    requires files != [] && |s| == n * |files|
    requires forall c :: 0 <= c < |files| ==> |files[c]| == n
    requires forall c :: 0 <= c < |files| ==> files[c] == ChannelOf(1.0, s, |files|, c, n)
    ensures Interleaved(files, n) == s
  {
    hide *;
    var whole := Interleaved(files, n);
    forall j: nat | j < |s|
      ensures whole[j] == s[j]
    {
      Position(j, |files|, n);
      var c, i := j % |files|, j / |files|;
      InterleavedAt(files, n, j, c, i);
      ChannelOfAt(1.0, s, |files|, c, n, i);
      UnitGain(s[j]);
    }
  }

  lemma InterleavedAt(files: seq<seq<Int16>>, n: nat, j: nat, c: nat, i: nat)
    requires files != [] && j < n * |files| && c == j % |files| && i == j / |files|
    requires forall c :: 0 <= c < |files| ==> |files[c]| == n
    ensures i < n && Interleaved(files, n)[j] == files[c][i]
  {
    Position(j, |files|, n);
  }

  // ---------------------------------------------------------------- header

  function Pow256(n: nat): (r: nat)
    ensures r > 0
  {
    if n == 0 then 1 else 256 * Pow256(n - 1)
  }

  /** The size low-order bytes of value, lowest first. */
  function LittleEndian(value: nat, size: nat): (s: seq<Byte>)
    ensures |s| == size
  {
    if size == 0 then [] else [value % 256] + LittleEndian(value / 256, size - 1)
  }

  function FromLittleEndian(s: seq<Byte>): nat {
    if s == [] then 0 else s[0] + 256 * FromLittleEndian(s[1..])
  }

  lemma {:induction false} LittleEndianRoundTrip(value: nat, size: nat)
    ensures FromLittleEndian(LittleEndian(value, size)) == value % Pow256(size)
  {
    if size > 0 {
      LittleEndianRoundTrip(value / 256, size - 1);
      RemainderStep(value, Pow256(size - 1), Pow256(size));
      assert LittleEndian(value, size)[1..] == LittleEndian(value / 256, size - 1);
    }
  }

  /** The low digit in front of the remainder of the rest. */
  lemma RemainderStep(v: nat, p: nat, d: nat)
    requires p > 0 && d == 256 * p
    ensures v % d == 256 * (v / 256 % p) + v % 256
  {
    var rest := v / 256;
    var q, r := rest / p, 256 * (rest % p) + v % 256;
    assert v == 256 * rest + v % 256;
    assert rest == q * p + rest % p;
    assert q * d == 256 * (q * p);
    Remainder(v, d, q, r);
  }

  lemma Remainder(v: nat, d: nat, q: nat, r: nat)
    requires d > 0 && v == q * d + r && r < d
    ensures v % d == r
  {
    DivFloor(v, q, d);
  }

  /** value >> (8 * index), byte by byte. */
  lemma {:induction false} LittleEndianAt(value: nat, size: nat, index: nat)
    requires index < size
    ensures LittleEndian(value, size)[index] == value / Pow256(index) % 256
  {
    if index > 0 {
      LittleEndianAt(value / 256, size - 1, index - 1);
      ShiftTwice(value, Pow256(index - 1));
    }
  }

  lemma ShiftTwice(v: nat, p: nat)
    requires p > 0
    ensures v / 256 / p == v / (256 * p)
  {
    var q, r := v / (256 * p), v % (256 * p);
    assert v == 256 * (p * q) + r;
    assert v / 256 == p * q + r / 256;
    DivFloor(v / 256, q, p);
  }

  method WriteLittleEndian(value: nat, size: nat) returns (s: seq<Byte>)
    ensures s == LittleEndian(value, size)
  {
    s := [];
    for index := 0 to size
      invariant s == LittleEndian(value, size)[..index]
    {
      LittleEndianAt(value, size, index);
      s := s + [value / Pow256(index) % 256];
    }
  }

  const UINT32_MAX: nat := 0xFFFF_FFFF
  const HEADER_BYTES: nat := 44
  const RIFF: seq<Byte> := [0x52, 0x49, 0x46, 0x46]
  const WAVE_FMT: seq<Byte> := [0x57, 0x41, 0x56, 0x45, 0x66, 0x6D, 0x74, 0x20]
  const DATA: seq<Byte> := [0x64, 0x61, 0x74, 0x61]

  /** The size field saturates: it has to leave room for the 36 bytes that the RIFF size adds. */
  function DataSize(written: nat): (size: nat)
    ensures size <= UINT32_MAX - 36
  {
    var bytes := if written > 44 then written - 44 else 0;
    if bytes < UINT32_MAX - 36 then bytes else UINT32_MAX - 36
  }

  function Header(rate: nat, written: nat): seq<Byte> {
    RIFF + LittleEndian(DataSize(written) + 36, 4) + WAVE_FMT + LittleEndian(16, 4)
    + LittleEndian(1, 2) + LittleEndian(1, 2) + LittleEndian(rate, 4)
    + LittleEndian(rate * 2 % (UINT32_MAX + 1), 4) + LittleEndian(2, 2) + LittleEndian(16, 2)
    + DATA + LittleEndian(DataSize(written), 4)
  }

  lemma Pow256Values()
    ensures Pow256(2) == 0x1_0000 && Pow256(4) == 0x1_0000_0000
  {
    assert Pow256(1) == 256;
    assert Pow256(3) == 256 * Pow256(2);
  }

  /** Where the fields are. */
  lemma HeaderFields(rate: nat, written: nat)
    ensures var h := Header(rate, written);
      && |h| == HEADER_BYTES
      && h[4..8] == LittleEndian(DataSize(written) + 36, 4)
      && h[24..28] == LittleEndian(rate, 4)
      && h[28..32] == LittleEndian(rate * 2 % (UINT32_MAX + 1), 4)
      && h[40..44] == LittleEndian(DataSize(written), 4)
  {
    hide LittleEndian, DataSize;
    var size, speed := DataSize(written), rate * 2 % (UINT32_MAX + 1);
    var before := RIFF + LittleEndian(size + 36, 4) + WAVE_FMT + LittleEndian(16, 4)
                  + LittleEndian(1, 2) + LittleEndian(1, 2);
    var after := LittleEndian(2, 2) + LittleEndian(16, 2) + DATA;
    var h := Header(rate, written);
    assert h == before + LittleEndian(rate, 4) + LittleEndian(speed, 4) + after + LittleEndian(size, 4);
  }

  /**
    The header fills the 44 placeholder bytes exactly, so it never runs into the samples; a reader
    finds the sample rate and the number of samples in it, the latter as long as it fits.
   */
  lemma HeaderReadsBack(rate: nat, samples: nat)
    requires rate <= UINT32_MAX
    ensures var h := Header(rate, HEADER_BYTES + 2 * samples);
      && |h| == HEADER_BYTES
      && FromLittleEndian(h[24..28]) == rate
      && FromLittleEndian(h[28..32]) == 2 * rate % (UINT32_MAX + 1)
      && FromLittleEndian(h[4..8]) == FromLittleEndian(h[40..44]) + 36
      && (FromLittleEndian(h[40..44]) / 2 == samples <==> 2 * samples <= UINT32_MAX - 36)
  {
    hide LittleEndian, FromLittleEndian, Header;
    var size := DataSize(HEADER_BYTES + 2 * samples);
    HeaderFields(rate, HEADER_BYTES + 2 * samples);
    Pow256Values();
    LittleEndianRoundTrip(size, 4);
    LittleEndianRoundTrip(size + 36, 4);
    LittleEndianRoundTrip(rate, 4);
    LittleEndianRoundTrip(rate * 2 % (UINT32_MAX + 1), 4);
  }

  // ---------------------------------------------------------------- recorder

  datatype AudioFrame = AudioFrame(format: string, channels: nat, rate: nat, samples: nat, data: seq<Byte>)

  /** Bad is a stream with its error flag set: later seeks and writes have no effect on it. */
  datatype StreamState = Unopened | Open | Bad | Shut

  datatype WavFile = WavFile(state: StreamState, header: seq<Byte>, samples: seq<Int16>)

  const PLACEHOLDER: seq<Byte> := seq(HEADER_BYTES, _ => 0)

  datatype Outcome =
    | Ignored
    | Rejected
    | CannotCreate
    | Broken(channel: nat, kept: nat)
    | Accepted

  predicate Usable(m: AudioFrame) {
    m.format == "signed_16" && m.channels > 0 && m.rate > 0 && m.samples > 0
  }

  predicate PayloadFits(m: AudioFrame) {
    |m.data| / 2 == m.samples * m.channels
  }

  /** What a frame adds to channel c before the recording stops. */
  function Written(gain: real, m: AudioFrame, outcome: Outcome, c: nat): seq<Int16>
    requires PayloadFits(m) && c < m.channels
    requires outcome.Broken? ==> outcome.kept <= m.samples
  {
    var block := ChannelOf(gain, Samples(m.data), m.channels, c, m.samples);
    match outcome
    case Accepted => block
    case Broken(k, kept) => if c < k then block else if c == k then block[..kept] else []
    case _ => []
  }

  /** After a failed write the channels have equal lengths only if it lost nothing or kept nothing of the frame. */
  lemma BrokenChannelsAgreeIff(gain: real, m: AudioFrame, k: nat, kept: nat)
    requires PayloadFits(m) && m.samples > 0 && k < m.channels && kept <= m.samples
    ensures (forall c: nat, d: nat :: c < m.channels && d < m.channels ==>
               |Written(gain, m, Broken(k, kept), c)| == |Written(gain, m, Broken(k, kept), d)|)
       <==> m.channels == 1 || (k == 0 && kept == 0) || (k == m.channels - 1 && kept == m.samples)
  {
    var last := m.channels - 1;
    assert |Written(gain, m, Broken(k, kept), k)| == kept;
    assert k > 0 ==> |Written(gain, m, Broken(k, kept), 0)| == m.samples;
    assert k < last ==> |Written(gain, m, Broken(k, kept), last)| == 0;
  }

  lemma WrittenBroken(gain: real, m: AudioFrame, k: nat, kept: nat, c: nat)
    requires PayloadFits(m) && c < m.channels && kept <= m.samples
    ensures var block := ChannelOf(gain, Samples(m.data), m.channels, c, m.samples);
      && Written(gain, m, Accepted, c) == block
      && Written(gain, m, Broken(k, kept), c) == if c < k then block else if c == k then block[..kept] else []
  {
  }

  /** The file of channel c holds its share of n frames, and then more. */
  predicate Holds(file: WavFile, gain: real, s: seq<Int16>, channels: nat, c: nat, n: nat, more: seq<Int16>) {
    && c < channels && |s| == n * channels
    && file.samples == ChannelOf(gain, s, channels, c, n) + more
  }

  lemma EmptyHolds(file: WavFile, gain: real, channels: nat, c: nat)
    requires c < channels && file.samples == []
    ensures Holds(file, gain, [], channels, c, 0, [])
  {
    assert ChannelOf(gain, [], channels, c, 0) == [];
  }

  lemma LengthGrows(samples: nat, frame: nat, channels: nat, frames: nat)
    requires samples == frames * frame
    ensures (samples + frame) * channels == samples * channels + frame * channels
    ensures samples + frame == (frames + 1) * frame
  {
  }

  lemma HoldsMore(file: WavFile, gain: real, s: seq<Int16>, c: nat, n: nat, m: AudioFrame)
    requires c < m.channels && PayloadFits(m)
    requires Holds(file, gain, s, m.channels, c, n, Written(gain, m, Accepted, c))
    ensures Holds(file, gain, s + Samples(m.data), m.channels, c, n + m.samples, [])
  {
    ChannelOfConcat(gain, s, Samples(m.data), m.channels, c, n, m.samples);
  }

  function SamplesOf(files: seq<WavFile>): (r: seq<seq<Int16>>)
    ensures |r| == |files| && forall c :: 0 <= c < |r| ==> r[c] == files[c].samples
  {
    seq(|files|, c requires 0 <= c < |files| => files[c].samples)
  }

  /** Files that hold their shares of a stream are equally long, and at gain 1 they restore it. */
  lemma FilesRestoreStream(files: seq<WavFile>, gain: real, s: seq<Int16>, n: nat)
    requires files != []
    requires forall c :: 0 <= c < |files| ==> Holds(files[c], gain, s, |files|, c, n, [])
    ensures forall c :: 0 <= c < |files| ==> |files[c].samples| == n
    ensures forall c :: 0 <= c < |files| ==> |SamplesOf(files)[c]| == n
    ensures gain == 1.0 ==> Interleaved(SamplesOf(files), n) == s
  {
    assert Holds(files[0], gain, s, |files|, 0, n, []);
    forall c: nat | c < |files|
      ensures files[c].samples == ChannelOf(gain, s, |files|, c, n)
    {
      assert Holds(files[c], gain, s, |files|, c, n, []);
    }
    if gain == 1.0 {
      InterleavingRestores(s, SamplesOf(files), n);
    }
  }

  class Recorder {
    const gain: real
    var failed: bool
    var files: seq<WavFile>
    var channels: nat
    var rate: nat
    var frameSamples: nat
    var scratch: array<Int16>
    var audioSamples: nat
    var audioFrames: nat
    /** Every accepted frame, one after the other. */
    ghost var stream: seq<Int16>

    ghost predicate Valid()
      reads this, scratch
    {
      && audioSamples == audioFrames * frameSamples
      && |stream| == audioSamples * channels
      && (files == [] ==> stream == [] && audioFrames == 0)
      && (files != [] ==> |files| == channels && rate > 0 && frameSamples == scratch.Length > 0)
      && (!failed ==>
            forall c :: 0 <= c < |files| ==>
              && files[c].state == Open
              && Holds(files[c], gain, stream, channels, c, audioSamples, []))
    }

    constructor (gain: real)
      ensures Valid() && !failed && files == [] && stream == [] && this.gain == gain
      ensures fresh(scratch)
    {
      this.gain := gain;
      failed, files, channels, rate, frameSamples, audioSamples, audioFrames := false, [], 0, 0, 0, 0, 0;
      scratch := new Int16[0];
      stream := [];
    }

    /** Whether the disk takes a file or a write. */
    method Disk() returns (ok: bool) {
      ok := *;
    }

    method OpenAudio(m: AudioFrame) returns (ok: bool)
      requires Usable(m)
      modifies this`channels, this`rate, this`frameSamples, this`scratch, this`files
      ensures fresh(scratch) && scratch.Length == frameSamples == m.samples
      ensures channels == m.channels == |files| && rate == m.rate
      ensures forall c :: 0 <= c < |files| ==> files[c].samples == []
      ensures ok ==> forall c :: 0 <= c < |files| ==> files[c] == WavFile(Open, PLACEHOLDER, [])
    {
      channels, rate, frameSamples := m.channels, m.rate, m.samples;
      scratch := new Int16[frameSamples];
      files := seq(channels, _ => WavFile(Unopened, [], []));
      for c := 0 to channels
        modifies this`files
        invariant |files| == channels
        invariant forall d :: 0 <= d < c ==> files[d] == WavFile(Open, PLACEHOLDER, [])
        invariant forall d :: 0 <= d < |files| ==> files[d].samples == []
      {
        ok := Disk();
        if !ok {
          return;
        }
        files := files[c := WavFile(Open, PLACEHOLDER, [])];
      }
      ok := true;
    }

    method Scale(x: Int16) returns (r: Int16)
      requires gain != 1.0
      ensures r == Scaled(gain, x)
    {
      var scaled := x as real * gain;
      r := Truncate(Clamp(scaled, -32768.0, 32767.0));
    }

    /** Picks channel c out of a frame. */
    method Deinterleave(samples: seq<Int16>, c: nat)
      requires scratch.Length == frameSamples && |samples| == frameSamples * channels && c < channels
      modifies scratch
      ensures scratch[..] == ChannelOf(gain, samples, channels, c, frameSamples)
    {
      hide ChannelOf, Scaled;
      ghost var want := ChannelOf(gain, samples, channels, c, frameSamples);
      if gain != 1.0 {
        for frame := 0 to frameSamples
          invariant forall k :: 0 <= k < frame ==> scratch[k] == want[k]
        {
          ChannelOfAt(gain, samples, channels, c, frameSamples, frame);
          scratch[frame] := Scale(samples[frame * channels + c]);
        }
      } else {
        for frame := 0 to frameSamples
          invariant forall k :: 0 <= k < frame ==> scratch[k] == want[k]
        {
          ChannelOfAt(gain, samples, channels, c, frameSamples, frame);
          UnitGain(samples[frame * channels + c]);
          scratch[frame] := samples[frame * channels + c];
        }
      }
    }

    /** Appends the scratch buffer to the file of channel c; a write that fails may leave a part of it. */
    method WriteChannel(c: nat) returns (ok: bool, kept: nat)
      requires c < |files| && files[c].state == Open
      modifies this`files
      ensures kept <= scratch.Length && (ok ==> kept == scratch.Length)
      ensures files == old(files)[c := WavFile(if ok then Open else Bad, old(files)[c].header,
                                               old(files)[c].samples + scratch[..kept])]
    {
      ok := Disk();
      kept := scratch.Length;
      if !ok {
        kept := *;
        if kept > scratch.Length {
          kept := 0;
        }
      }
      var f := files[c];
      files := files[c := WavFile(if ok then Open else Bad, f.header, f.samples + scratch[..kept])];
    }

    /** The loop over the channels of one frame. */
    method WriteFrame(m: AudioFrame) returns (outcome: Outcome)
      requires Valid() && !failed && files != []
      requires channels == m.channels && frameSamples == m.samples && PayloadFits(m)
      modifies this`files, scratch
      ensures |files| == channels
      ensures outcome.Accepted? || (outcome.Broken? && outcome.channel < channels && outcome.kept <= m.samples)
      ensures forall c :: 0 <= c < channels ==>
                  Holds(files[c], gain, stream, channels, c, audioSamples, Written(gain, m, outcome, c))
      ensures forall c :: 0 <= c < channels ==>
                files[c].state == if outcome.Broken? && c == outcome.channel then Bad else Open
    {
      hide ChannelOf, Written, Samples;
      var samples := Samples(m.data);
      for c := 0 to channels
        invariant |files| == channels
        invariant forall d :: 0 <= d < channels ==> files[d].state == Open
        invariant forall d :: 0 <= d < c ==>
                      Holds(files[d], gain, stream, channels, d, audioSamples, Written(gain, m, Accepted, d))
        invariant forall d :: c <= d < channels ==> Holds(files[d], gain, stream, channels, d, audioSamples, [])
      {
        Deinterleave(samples, c);
        var ok, kept := WriteChannel(c);
        if !ok {
          outcome := Broken(c, kept);
          assert scratch[..kept] == scratch[..][..kept];
          forall d: nat | d < channels
            ensures Holds(files[d], gain, stream, channels, d, audioSamples, Written(gain, m, outcome, d))
          {
            WrittenBroken(gain, m, c, kept, d);
          }
          return;
        }
        WrittenBroken(gain, m, c, kept, c);
        assert scratch[..kept] == scratch[..];
      }
      outcome := Accepted;
    }

    /** The frame has the shape that the recording started with. */
    predicate Matches(m: AudioFrame)
      reads this
    {
      m.channels == channels && m.rate == rate && m.samples == frameSamples
    }

    /** The first frame: it decides the shape of the recording. */
    method Begin(m: AudioFrame) returns (problem: Option<Outcome>)
      requires Valid() && !failed && files == []
      modifies this
      ensures Valid() && (scratch == old(scratch) || fresh(scratch))
      ensures stream == [] && audioFrames == audioSamples == 0 && |files| <= channels
      ensures problem == Some(Rejected) <==> !Usable(m)
      ensures problem in {None, Some(Rejected), Some(CannotCreate)} && (failed <==> problem.Some?)
      ensures forall c :: 0 <= c < |files| ==> Holds(files[c], gain, [], channels, c, 0, [])
      ensures problem == None ==> files != [] && Matches(m)
    {
      hide ChannelOf, Samples, Holds;
      if !Usable(m) {
        failed := true;
        return Some(Rejected);
      }
      var ok := OpenAudio(m);
      forall c: nat | c < channels
        ensures Holds(files[c], gain, [], channels, c, 0, [])
      {
        EmptyHolds(files[c], gain, channels, c);
      }
      if !ok {
        failed := true;
        return Some(CannotCreate);
      }
      return None;
    }

    /**
      Records one frame.  Whatever stops the recording, a mismatch leaves every channel as it was,
      and a failed write tells how far each channel came.
     */
    method RecordAudio(m: AudioFrame) returns (outcome: Outcome)
      requires Valid()
      modifies this, scratch
      ensures Valid() && (scratch == old(scratch) || fresh(scratch))
      ensures failed <==> !outcome.Accepted?
      ensures outcome.Ignored? <==> old(failed)
      ensures outcome.Ignored? ==> files == old(files)
      ensures outcome.Rejected? ==> !old(failed)
      ensures !old(failed) && !outcome.CannotCreate? ==>
                (outcome.Rejected? <==> !(Usable(m) && PayloadFits(m) && (old(files) == [] || old(Matches(m)))))
      ensures outcome.CannotCreate? ==> old(files) == []
      ensures stream == old(stream) + if outcome.Accepted? then Samples(m.data) else []
      ensures outcome.Rejected? || outcome.CannotCreate? ==>
        forall c :: 0 <= c < |files| && c < channels ==>
            Holds(files[c], gain, old(stream), channels, c, audioSamples, [])
      ensures outcome.Broken? ==>
        && PayloadFits(m) && m.channels == channels == |files| && outcome.kept <= m.samples
        && outcome.channel < channels
        && forall c :: 0 <= c < channels ==>
               Holds(files[c], gain, old(stream), channels, c, audioSamples, Written(gain, m, outcome, c))
    {
      hide ChannelOf, Written, Samples, Holds;
      if failed {
        return Ignored;
      }
      if files == [] {
        var problem := Begin(m);
        if problem.Some? {
          return problem.value;
        }
      }
      if m.format != "signed_16" || m.channels != channels || m.rate != rate || m.samples != frameSamples
         || |m.data| / 2 != frameSamples * channels {
        failed := true;
        return Rejected;
      }
      outcome := WriteFrame(m);
      if outcome.Broken? {
        failed := true;
        return;
      }
      CountFrame(m);
    }

    /** A frame that every channel has taken is counted. */
    method CountFrame(m: AudioFrame)
      requires channels == m.channels && frameSamples == m.samples && PayloadFits(m)
      requires files != [] && |files| == channels && rate > 0 && frameSamples == scratch.Length > 0
      requires audioSamples == audioFrames * frameSamples && |stream| == audioSamples * channels
      requires forall c :: 0 <= c < channels ==>
        && files[c].state == Open
        && Holds(files[c], gain, stream, channels, c, audioSamples, Written(gain, m, Accepted, c))
      modifies this`audioSamples, this`audioFrames, this`stream
      ensures Valid() && stream == old(stream) + Samples(m.data)
    {
      hide ChannelOf, Written, Samples, Holds;
      ghost var longer, total := stream + Samples(m.data), audioSamples + frameSamples;
      forall c: nat | c < channels
        ensures Holds(files[c], gain, longer, channels, c, total, [])
      {
        HoldsMore(files[c], gain, stream, c, audioSamples, m);
      }
      LengthGrows(audioSamples, frameSamples, channels, audioFrames);
      audioSamples := audioSamples + frameSamples;
      audioFrames := audioFrames + 1;
      stream := stream + Samples(m.data);
    }

    /** While nothing failed, the files together are the stream that was accepted. */
    lemma RecordingRestores()
      requires Valid() && !failed && files != []
      ensures forall c :: 0 <= c < |files| ==> |files[c].samples| == audioSamples == audioFrames * frameSamples
      ensures gain == 1.0 ==>
                && (forall c :: 0 <= c < |SamplesOf(files)| ==> |SamplesOf(files)[c]| == audioSamples)
                && Interleaved(SamplesOf(files), audioSamples) == stream
    {
      FilesRestoreStream(files, gain, stream, audioSamples);
    }

    /** Every channel that still takes writes gets a header that fits its own length. */
    method CloseAudio()
      requires Valid()
      modifies this`files
      ensures |files| == |old(files)|
      ensures if old(files) != [] && old(files)[0].state in {Open, Bad}
              then forall c :: 0 <= c < |files| ==> Finished(rate, old(files)[c], files[c])
              else files == old(files)
    {
      hide Header, ChannelOf;
      if files == [] || files[0].state !in {Open, Bad} {
        return;
      }
      for c := 0 to |files|
        invariant |files| == |old(files)|
        invariant forall d :: c <= d < |files| ==> files[d] == old(files)[d]
        invariant forall d :: 0 <= d < c ==> Finished(rate, old(files)[d], files[d])
      {
        var f := files[c];
        if f.state == Open {
          var header := MakeHeader(rate, HEADER_BYTES + 2 * |f.samples|);
          files := files[c := WavFile(Shut, header, f.samples)];
        }
      }
    }
  }

  /** A stream in error keeps its placeholder: the header is lost with it. */
  predicate Finished(rate: nat, before: WavFile, after: WavFile) {
    && after.samples == before.samples
    && after.state == (if before.state == Open then Shut else before.state)
    && after.header == if before.state == Open then Header(rate, HEADER_BYTES + 2 * |before.samples|) else before.header
  }

  method MakeHeader(rate: nat, written: nat) returns (h: seq<Byte>)
    ensures h == Header(rate, written)
  {
    var size := DataSize(written);
    var riffSize := WriteLittleEndian(size + 36, 4);
    var chunk := WriteLittleEndian(16, 4);
    var one := WriteLittleEndian(1, 2);
    var rateField := WriteLittleEndian(rate, 4);
    var byteRate := WriteLittleEndian(rate * 2 % (UINT32_MAX + 1), 4);
    var align := WriteLittleEndian(2, 2);
    var bits := WriteLittleEndian(16, 2);
    var dataSize := WriteLittleEndian(size, 4);
    h := RIFF + riffSize + WAVE_FMT + chunk + one + one + rateField + byteRate + align + bits + DATA + dataSize;
  }
}
