/** pytriggertrap/controller.py: the TriggerTrap pulse pair, its
    repetition over a timelapse schedule, and the chunked conversion of that
    schedule into 16-bit stereo WAV frames. */
module Controller {
  import opened Common
  import opened Utils

  const RATE: int := 44100
  const FREQ: real := 17000.0
  const DURATION: real := 0.05
  const PAUSE: real := 0.001
  const CHANNEL_WIDTH: int := 2
  /** Number of sample pairs taken from the schedule per WAV write. */
  const CHUNK_SIZE: int := 10000
  /** Length of one cached pulse, `floor(DURATION / (1 / RATE))`
      (see `PulseSampleCount`). */
  const PULSE_SAMPLES: int := 2205

  // ---------------------------------------------------------------------
  // The two cached pulses
  // ---------------------------------------------------------------------

  /** `left_pulse_amplitude`: silent during the first PAUSE seconds. */
  function LeftPulseAmplitude(t: real): real
  {
    if t < PAUSE then 0.0 else 1.0
  }

  /** The right-channel pulse: a plain 17 kHz tone for 50 ms, 2205 samples
      long since `floor(0.05 / (1 / 44100)) = 2205`. */
  function PlainPulse(sin: real -> real): (r: seq<real>)
    ensures |r| == PULSE_SAMPLES
  {
    PulseSampleCount();
    SineWave(sin, FREQ, DURATION, RATE, Constant(1.0)).value
  }

  /** The left-channel pulse: the same tone gated by `LeftPulseAmplitude`;
      it comes from `sine_wave` with the same frequency, duration and rate,
      so it is exactly as long as the right one. */
  function GatedPulse(sin: real -> real): (r: seq<real>)
    ensures |r| == PULSE_SAMPLES
  {
    PulseSampleCount();
    SineWave(sin, FREQ, DURATION, RATE, Callable(LeftPulseAmplitude)).value
  }

  lemma PulseSampleCount()
    ensures SampleCount(DURATION, RATE) == PULSE_SAMPLES
  {
    SampleCountLaw(DURATION, RATE);
    assert DURATION * RATE as real == 2205.0;
  }

  /** Gating law: a gated sample is 0.0 while its time `i / RATE` is before
      PAUSE, and equals the plain sample from then on. */
  lemma GatingLaw(sin: real -> real, i: int)
    requires 0 <= i < PULSE_SAMPLES
    ensures SampleTime(i, RATE) < PAUSE ==> GatedPulse(sin)[i] == 0.0
    ensures SampleTime(i, RATE) >= PAUSE ==> GatedPulse(sin)[i] == PlainPulse(sin)[i]
  {
  }

  /** With PAUSE = 1 ms at 44.1 kHz, the gate silences samples 0 to 44 (45
      samples, since 44 / 44100 s is still under 1 ms) and lets sample 45
      onward through. */
  lemma GateBoundary(sin: real -> real, i: int)
    requires 0 <= i < PULSE_SAMPLES
    ensures i <= 44 ==> GatedPulse(sin)[i] == 0.0
    ensures i >= 45 ==> GatedPulse(sin)[i] == PlainPulse(sin)[i]
  {
    GatingLaw(sin, i);
    SampleTimeIsRatio(i, RATE);
    if i <= 44 {
      assert i as real / 44100.0 <= 44.0 / 44100.0;
    } else {
      assert i as real / 44100.0 >= 45.0 / 44100.0;
    }
  }

  // ---------------------------------------------------------------------
  // The timelapse schedule
  // ---------------------------------------------------------------------

  /** Sample pair `i` of one schedule segment: the pulse train while it
      lasts, silence afterwards. */
  function SegmentAt(l: seq<real>, r: seq<real>, i: nat): (real, real)
    requires |l| == |r|
  {
    if i < |l| then (l[i], r[i]) else (0.0, 0.0)
  }

  /** One segment of `total` sample pairs (the inner loop of `make`). */
  function Segment(l: seq<real>, r: seq<real>, total: int): seq<(real, real)>
    requires |l| == |r|
  {
    seq(Max(0, total), i requires 0 <= i => SegmentAt(l, r, i))
  }

  /** `frames` segments back to back (the outer loop of `make`). */
  function Schedule(l: seq<real>, r: seq<real>, total: int, frames: int): seq<(real, real)>
    requires |l| == |r|
    decreases frames
  {
    if frames <= 0 then [] else Schedule(l, r, total, frames - 1) + Segment(l, r, total)
  }

  /** The two tracks paired sample by sample. */
  function Zip(l: seq<real>, r: seq<real>): (z: seq<(real, real)>)
    requires |l| == |r|
    ensures |z| == |l| && forall i :: 0 <= i < |z| ==> z[i].0 == l[i] && z[i].1 == r[i]
  {
    seq(|l|, i requires 0 <= i < |l| => (l[i], r[i]))
  }

  /** `n` silent sample pairs. */
  function Silence(n: nat): (z: seq<(real, real)>)
    ensures |z| == n && forall i :: 0 <= i < n ==> z[i] == (0.0, 0.0)
  {
    seq(n, _ => (0.0, 0.0))
  }

  /** A pulse train that fits in the period is followed by silence up to
      the end of the segment. */
  lemma SegmentPadsWithSilence(l: seq<real>, r: seq<real>, total: int)
    requires |l| == |r| <= total
    ensures Segment(l, r, total) == Zip(l, r) + Silence(total - |l|)
  {
    var a, b := Segment(l, r, total), Zip(l, r) + Silence(total - |l|);
    forall i | 0 <= i < total ensures a[i] == b[i] {
    }
  }

  /** A pulse train longer than the period is cut off silently: the
      segment holds only its first `total` samples and no silence. */
  lemma SegmentTruncatesOverrun(l: seq<real>, r: seq<real>, total: int)
    requires |l| == |r| && 0 <= total < |l|
    ensures Segment(l, r, total) == Zip(l[..total], r[..total])
  {
  }

  /** The schedule holds `max(0, frames) * max(0, total)` pairs. */
  lemma {:induction false} ScheduleLength(l: seq<real>, r: seq<real>, total: int, frames: int)
    requires |l| == |r|
    ensures |Schedule(l, r, total, frames)| == Max(0, frames) * Max(0, total)
    decreases frames
  {
    if frames > 0 {
      ScheduleLength(l, r, total, frames - 1);
      assert (frames - 1) * Max(0, total) + Max(0, total) == frames * Max(0, total);
    }
  }

  /** All segments are identical: pair `i` of segment `j` is `SegmentAt(i)`. */
  lemma {:induction false} ScheduleSegment(l: seq<real>, r: seq<real>, total: int, frames: int, j: int, i: int)
    requires |l| == |r| && 0 <= j < frames && 0 <= i < total
    ensures j * total + i < |Schedule(l, r, total, frames)|
    ensures Schedule(l, r, total, frames)[j * total + i] == SegmentAt(l, r, i)
    decreases frames
  {
    var prev, seg := Schedule(l, r, total, frames - 1), Segment(l, r, total);
    assert Schedule(l, r, total, frames) == prev + seg;
    if j < frames - 1 {
      ScheduleSegment(l, r, total, frames - 1, j, i);
    } else {
      ScheduleLength(l, r, total, frames - 1);
      assert |prev| == j * total;
      assert (prev + seg)[|prev| + i] == seg[i];
    }
  }

  /** The declared count `total * frames` is the number of pairs the
      generator emits exactly when neither factor is negative or one of
      them is zero; with a negative period or frame count the declared
      count disagrees with the (empty) stream. */
  lemma DeclaredCountMatches(l: seq<real>, r: seq<real>, total: int, frames: int)
    requires |l| == |r|
    ensures total * frames == |Schedule(l, r, total, frames)|
      <==> (frames == 0 || total == 0 || (frames > 0 && total > 0))
  {
    ScheduleLength(l, r, total, frames);
    if frames < 0 && total < 0 {
      assert total * frames > 0;
    } else if frames < 0 && total > 0 {
      assert total * frames < 0;
    } else if frames > 0 && total < 0 {
      assert total * frames < 0;
    }
  }

  // ---------------------------------------------------------------------
  // Conversion to 16-bit PCM
  // ---------------------------------------------------------------------

  /** Python's `int(x)` on a float: truncation toward zero. */
  function Truncate(x: real): (n: int)
    ensures 0.0 <= x ==> 0 <= n && n as real <= x < n as real + 1.0
    ensures x < 0.0 ==> n <= 0 && n as real - 1.0 < x <= n as real
  {
    if x >= 0.0 then x.Floor else -((-x).Floor)
  }

  function Pow2(k: nat): nat
  {
    if k == 0 then 1 else 2 * Pow2(k - 1)
  }

  /** Full-scale sample value `2 ** (CHANNEL_WIDTH * 8 - 1) - 1`. */
  const AMP: int := Pow2(CHANNEL_WIDTH * 8 - 1) - 1

  lemma AmpIsInt16Max()
    ensures AMP == 32767
  {
    assert Pow2(4) == 16;
    assert Pow2(8) == 256 by {
      assert Pow2(5) == 32 && Pow2(6) == 64 && Pow2(7) == 128;
    }
    assert Pow2(12) == 4096 by {
      assert Pow2(9) == 512 && Pow2(10) == 1024 && Pow2(11) == 2048;
    }
    assert Pow2(15) == 32768 by {
      assert Pow2(13) == 8192 && Pow2(14) == 16384;
    }
  }

  /** `int(amp * y)`: one real sample as a 16-bit integer. */
  function ToPcm(y: real): int
  {
    Truncate(AMP as real * y)
  }

  /** A sample in [-1, 1] becomes an integer in [-32767, 32767], which
      `struct.pack('h', ...)` accepts, with the sign of the sample and
      within one step of `32767 * y` toward zero. */
  lemma PcmRange(y: real)
    requires -1.0 <= y <= 1.0
    ensures -32767 <= ToPcm(y) <= 32767
    ensures y >= 0.0 ==> 0 <= ToPcm(y) && 32767.0 * y - 1.0 < ToPcm(y) as real <= 32767.0 * y
    ensures y < 0.0 ==> ToPcm(y) <= 0 && 32767.0 * y <= ToPcm(y) as real < 32767.0 * y + 1.0
  {
    AmpIsInt16Max();
    var x := 32767.0 * y;
    assert -32767.0 <= x <= 32767.0;
  }

  /** One pair as the two integers written for it, left then right. */
  function ConvertFrame(pair: (real, real)): (int, int)
  {
    (ToPcm(pair.0), ToPcm(pair.1))
  }

  /** The integers written for one chunk of pairs, in order. */
  function ConvertChunk(data: seq<(real, real)>): (out: seq<(int, int)>)
    ensures |out| == |data|
  {
    seq(|data|, k requires 0 <= k < |data| => ConvertFrame(data[k]))
  }

  /** The integers written for each chunk, chunk by chunk. */
  function ConvertChunks(cs: seq<seq<(real, real)>>): (out: seq<seq<(int, int)>>)
    ensures |out| == |cs|
  {
    if cs == [] then [] else ConvertChunks(cs[..|cs| - 1]) + [ConvertChunk(cs[|cs| - 1])]
  }

  /** Converting chunk by chunk writes the same frames as converting the
      whole stream at once. */
  lemma {:induction false} ConvertChunksFlatten(cs: seq<seq<(real, real)>>)
    ensures Flatten(ConvertChunks(cs)) == ConvertChunk(Flatten(cs))
    decreases |cs|
  {
    if cs != [] {
      var init, last := cs[..|cs| - 1], cs[|cs| - 1];
      assert cs == init + [last];
      ConvertChunksFlatten(init);
      FlattenSnoc(ConvertChunks(init), ConvertChunk(last));
      FlattenSnoc(init, last);
      assert ConvertChunk(Flatten(init) + last) == ConvertChunk(Flatten(init)) + ConvertChunk(last);
    }
  }

  /** Bookkeeping of the streaming loop: `consumed` are the batches taken
      so far, `remaining` what the cursor still holds, `writes` the
      converted batches and `progress` the reports made so far. */
  ghost predicate Streamed(all: seq<(real, real)>, consumed: seq<seq<(real, real)>>, remaining: seq<(real, real)>,
                           writes: seq<seq<(int, int)>>, progress: seq<(int, int)>, total: int)
  {
    && consumed + ChunksOf(remaining, CHUNK_SIZE) == ChunksOf(all, CHUNK_SIZE)
    && Flatten(consumed) + remaining == all
    && writes == ConvertChunks(consumed)
    && progress == Progress(consumed, total)
  }

  /** Before the first batch nothing is consumed, written or reported. */
  lemma StreamStart(all: seq<(real, real)>, total: int)
    ensures Streamed(all, [], all, [], [], total)
  {
    assert [] + ChunksOf(all, CHUNK_SIZE) == ChunksOf(all, CHUNK_SIZE);
    assert Flatten<(real, real)>([]) + all == all;
  }

  /** Once nothing remains, the consumed batches are all of `ChunksOf`. */
  lemma StreamDone(all: seq<(real, real)>, consumed: seq<seq<(real, real)>>,
                   writes: seq<seq<(int, int)>>, progress: seq<(int, int)>, total: int)
    requires Streamed(all, consumed, [], writes, progress, total)
    ensures consumed == ChunksOf(all, CHUNK_SIZE)
    ensures writes == ConvertChunks(ChunksOf(all, CHUNK_SIZE))
    ensures Flatten(writes) == ConvertChunk(all)
    ensures progress == Progress(ChunksOf(all, CHUNK_SIZE), total)
  {
    assert consumed + [] == consumed;
    assert Flatten(consumed) + [] == Flatten(consumed);
    ConvertChunksFlatten(consumed);
  }

  /** Taking, converting and reporting one more batch keeps `Streamed`. */
  lemma StreamStep(all: seq<(real, real)>, consumed: seq<seq<(real, real)>>, remaining: seq<(real, real)>,
                   data: seq<(real, real)>, rest: seq<(real, real)>,
                   writes: seq<seq<(int, int)>>, progress: seq<(int, int)>, done: int, total: int)
    requires Streamed(all, consumed, remaining, writes, progress, total)
    requires remaining != [] && |data| == Min(CHUNK_SIZE, |remaining|) && remaining == data + rest
    requires done == |all| - |rest|
    ensures Streamed(all, consumed + [data], rest, writes + [ConvertChunk(data)],
                     progress + [(done, total)], total)
  {
    ChunksOfAdvance(all, consumed, remaining, data, rest, CHUNK_SIZE);
    StepFlatten(all, consumed, remaining, data, rest);
    StepConvert(consumed, data);
    ProgressSnoc(consumed, data, total);
  }

  lemma StepFlatten(all: seq<(real, real)>, consumed: seq<seq<(real, real)>>, remaining: seq<(real, real)>,
                    data: seq<(real, real)>, rest: seq<(real, real)>)
    requires Flatten(consumed) + remaining == all && remaining == data + rest
    ensures Flatten(consumed + [data]) + rest == all
    ensures |Flatten(consumed + [data])| == |all| - |rest|
  {
    FlattenSnoc(consumed, data);
  }

  lemma StepConvert(consumed: seq<seq<(real, real)>>, data: seq<(real, real)>)
    ensures ConvertChunks(consumed + [data]) == ConvertChunks(consumed) + [ConvertChunk(data)]
  {
    assert (consumed + [data])[..|consumed|] == consumed;
  }

  /** Header of the WAV container, set before any frame is written. */
  datatype WavParams = WavParams(nchannels: int, sampwidth: int, framerate: int, nframes: int)

  /** The parameters `calc_timelapse_args` hands to the timelapse writers. */
  datatype TimelapseArgs = TimelapseArgs(frames: int, period: real, pulses: int)

  // ---------------------------------------------------------------------
  // The controller
  // ---------------------------------------------------------------------

  /** `TTController`: caches the two pulses at construction, with
      `math.sin` passed in as `sin`. The pulses are never changed later. */
  class TTController {
    const sin: real -> real
    const leftPulse: seq<real>
    const rightPulse: seq<real>

    ghost predicate Valid()
    {
      leftPulse == GatedPulse(sin) && rightPulse == PlainPulse(sin)
    }

    constructor (sin: real -> real)
      ensures this.sin == sin && Valid()
    {
      this.sin := sin;
      rightPulse := PlainPulse(sin);
      leftPulse := GatedPulse(sin);
    }

    /** `make_pulse(n)`: each cached pulse repeated `n` times by list
        repetition; both tracks are empty for `n <= 0`. */
    function MakePulse(n: int): (r: (seq<real>, seq<real>))
      requires Valid()
      ensures |r.0| == |r.1| == Max(0, n) * PULSE_SAMPLES
      ensures forall k :: 0 <= k < |r.0| ==>
        r.0[k] == leftPulse[k % PULSE_SAMPLES] && r.1[k] == rightPulse[k % PULSE_SAMPLES]
    {
      (Repeat(leftPulse, n), Repeat(rightPulse, n))
    }

    /** `make_timelapse_waveform(frames, period, pulses)`: the declared
        count `total * frames` with `total = floor(period / (1 / RATE))`,
        and the stream of `frames` segments of `total` pairs each. */
    method MakeTimelapseWaveform(frames: int, period: real, pulses: int) returns (count: int, pairs: seq<(real, real)>)
      requires Valid()
      ensures var total := SampleCount(period, RATE);
        && count == total * frames
        && pairs == Schedule(MakePulse(pulses).0, MakePulse(pulses).1, total, frames)
    {
      var p := 1.0 / RATE as real;
      var pulse := MakePulse(pulses);
      var l, r := pulse.0, pulse.1;
      var total := (period / p).Floor;
      var pulseLength := |l|;
      pairs := [];
      var f := 0;
      while f < frames
        invariant 0 <= f <= Max(0, frames)
        invariant pairs == Schedule(l, r, total, f)
      {
        ghost var done := pairs;
        var i := 0;
        while i < total
          invariant 0 <= i <= Max(0, total)
          invariant pairs == done + Segment(l, r, total)[..i]
        {
          if i < pulseLength {
            pairs := pairs + [(l[i], r[i])];
          } else {
            pairs := pairs + [(0.0, 0.0)];
          }
          assert Segment(l, r, total)[..i + 1] == Segment(l, r, total)[..i] + [SegmentAt(l, r, i)];
          i := i + 1;
        }
        assert Segment(l, r, total)[..i] == Segment(l, r, total);
        f := f + 1;
      }
      count := total * frames;
    }

    /** `write_timelapse_waveform_wav(output, frames, period, pulses)`: the
        header declares 2 channels of CHANNEL_WIDTH bytes at RATE and the
        declared count `total * frames`; the timelapse stream is written in
        CHUNK_SIZE batches of converted integer pairs, with a cumulative
        `(done, declared count)` report after each batch. */
    method WriteTimelapseWaveformWav(frames: int, period: real, pulses: int)
      returns (header: WavParams, writes: seq<seq<(int, int)>>, progress: seq<(int, int)>)
      requires Valid()
      ensures var total := SampleCount(period, RATE);
        var pairs := Schedule(MakePulse(pulses).0, MakePulse(pulses).1, total, frames);
        && header == WavParams(2, CHANNEL_WIDTH, RATE, total * frames)
        && writes == ConvertChunks(ChunksOf(pairs, CHUNK_SIZE))
        && Flatten(writes) == ConvertChunk(pairs)
        && progress == Progress(ChunksOf(pairs, CHUNK_SIZE), total * frames)
    {
      var nFrames, framesIt := MakeTimelapseWaveform(frames, period, pulses);
      header, writes, progress := WriteFrames(nFrames, framesIt);
    }

    /** The body of the `with wave.open(...)` block: set the header, then
        drain a `ChunkIterator` over `stream` in CHUNK_SIZE batches, writing
        each batch converted and reporting `(it.iterated, nFrames)`. */
    static method WriteFrames(nFrames: int, stream: seq<(real, real)>)
      returns (header: WavParams, writes: seq<seq<(int, int)>>, progress: seq<(int, int)>)
      ensures header == WavParams(2, CHANNEL_WIDTH, RATE, nFrames)
      ensures writes == ConvertChunks(ChunksOf(stream, CHUNK_SIZE))
      ensures Flatten(writes) == ConvertChunk(stream)
      ensures progress == Progress(ChunksOf(stream, CHUNK_SIZE), nFrames)
    {
      var it := new ChunkIterator(stream);
      header := WavParams(2, CHANNEL_WIDTH, RATE, nFrames);
      writes, progress := [], [];
      ghost var consumed: seq<seq<(real, real)>> := [];
      StreamStart(stream, nFrames);
      while it.iterating
        invariant it.Valid() && it.source == stream
        invariant Streamed(stream, consumed, it.Remaining(), writes, progress, nFrames)
        invariant it.iterated == |stream| - |it.Remaining()|
        decreases |it.Remaining()|
      {
        ghost var rem := it.Remaining();
        var data := it.NextChunk(CHUNK_SIZE);
        StreamStep(stream, consumed, rem, data, it.Remaining(), writes, progress, it.iterated, nFrames);
        consumed := consumed + [data];
        writes := writes + [ConvertChunk(data)];
        progress := progress + [(it.iterated, nFrames)];
      }
      StreamDone(stream, consumed, writes, progress, nFrames);
    }

    /** `calc_timelapse_args`: a zero output frame rate or duration raises
        ZeroDivisionError; otherwise `frames = floor(duration * fps)`, the
        period spreads the input duration over `fps * duration` frames,
        and `pulses` is passed through. */
    static function CalcTimelapseArgs(inputDuration: real, outputDuration: real, outputFps: real, pulses: int): (r: Result<TimelapseArgs>)
      ensures r.Err? <==> (outputFps == 0.0 || outputDuration == 0.0)
      ensures r.Ok? ==> r.value.pulses == pulses
      ensures r.Ok? ==> r.value.period * (outputFps * outputDuration) == inputDuration
      ensures r.Ok? ==>
        r.value.frames as real <= outputDuration * outputFps < r.value.frames as real + 1.0
    {
      var dI, fO, dO := inputDuration, outputFps, outputDuration;
      if fO * dO == 0.0 then Err(ZeroDivisionError)
      else
        var pI := dI / (fO * dO);
        Ok(TimelapseArgs((outputDuration * outputFps).Floor, pI, pulses))
    }
  }

  // ---------------------------------------------------------------------
  // Properties of the controller's output
  // ---------------------------------------------------------------------

  /** The pulse train is literal concatenation: sample `k` of repetition
      `j` is sample `k` of the cached pulse. */
  lemma PulseTrainRepeats(c: TTController, n: int, j: nat, k: nat)
    requires c.Valid() && j < n && k < PULSE_SAMPLES
    ensures j * PULSE_SAMPLES + k < |c.MakePulse(n).0|
    ensures c.MakePulse(n).0[j * PULSE_SAMPLES + k] == c.leftPulse[k]
    ensures c.MakePulse(n).1[j * PULSE_SAMPLES + k] == c.rightPulse[k]
  {
    var m := c.MakePulse(n);
    assert m == (Repeat(c.leftPulse, n), Repeat(c.rightPulse, n));
    RepeatCopy(c.leftPulse, n, j, k);
    RepeatCopy(c.rightPulse, n, j, k);
  }

  /** Pair `i` of every segment of the timelapse stream: the cached pulses
      (cycled) while `i` is inside the pulse train, silence after it. */
  lemma TimelapseSample(c: TTController, frames: int, period: real, pulses: int, j: int, i: int)
    requires c.Valid()
    requires 0 <= j < frames && 0 <= i < SampleCount(period, RATE)
    ensures var total := SampleCount(period, RATE);
      var s := Schedule(c.MakePulse(pulses).0, c.MakePulse(pulses).1, total, frames);
      && j * total + i < |s|
      && s[j * total + i] == if i < Max(0, pulses) * PULSE_SAMPLES
           then (c.leftPulse[i % PULSE_SAMPLES], c.rightPulse[i % PULSE_SAMPLES])
           else (0.0, 0.0)
  {
    var pulse := c.MakePulse(pulses);
    ScheduleSegment(pulse.0, pulse.1, SampleCount(period, RATE), frames, j, i);
  }

  /** With the default `sin` bound, every sample of the cached pulses is
      in [-1, 1]. */
  lemma PulsesBounded(c: TTController)
    requires c.Valid() && forall x :: -1.0 <= c.sin(x) <= 1.0
    ensures forall k :: 0 <= k < |c.leftPulse| ==> -1.0 <= c.leftPulse[k] <= 1.0
    ensures forall k :: 0 <= k < |c.rightPulse| ==> -1.0 <= c.rightPulse[k] <= 1.0
  {
    forall k | 0 <= k < |c.leftPulse| ensures -1.0 <= c.leftPulse[k] <= 1.0 {
      var t := SampleTime(k, RATE);
      assert -1.0 <= c.sin(2.0 * PI * FREQ * t) <= 1.0;
    }
    forall k | 0 <= k < |c.rightPulse| ensures -1.0 <= c.rightPulse[k] <= 1.0 {
      var t := SampleTime(k, RATE);
      assert -1.0 <= c.sin(2.0 * PI * FREQ * t) <= 1.0;
    }
  }

  /** Every sample of both channels lies in [-1, 1]. */
  ghost predicate InUnitRange(s: seq<(real, real)>)
  {
    forall k :: 0 <= k < |s| ==> -1.0 <= s[k].0 <= 1.0 && -1.0 <= s[k].1 <= 1.0
  }

  /** Silence and pulse samples in [-1, 1] keep every scheduled pair in
      [-1, 1]. */
  lemma {:induction false} ScheduleBounded(l: seq<real>, r: seq<real>, total: int, frames: int)
    requires |l| == |r|
    requires forall k :: 0 <= k < |l| ==> -1.0 <= l[k] <= 1.0 && -1.0 <= r[k] <= 1.0
    ensures InUnitRange(Schedule(l, r, total, frames))
    decreases frames
  {
    if frames > 0 {
      ScheduleBounded(l, r, total, frames - 1);
      var prev, seg := Schedule(l, r, total, frames - 1), Segment(l, r, total);
      var s: seq<(real, real)> := prev + seg;
      assert Schedule(l, r, total, frames) == s;
      forall k | 0 <= k < |s|
        ensures -1.0 <= s[k].0 <= 1.0 && -1.0 <= s[k].1 <= 1.0
      {
        if k < |prev| {
          assert s[k] == prev[k];
        } else {
          var i := k - |prev|;
          assert s[k] == SegmentAt(l, r, i);
          if i < |l| {
            assert s[k] == (l[i], r[i]);
          }
        }
      }
    }
  }

  /** Every integer written to the WAV file fits a signed 16-bit sample,
      in [-32767, 32767], provided `sin` stays in [-1, 1]. */
  lemma WrittenSamplesFitInt16(c: TTController, frames: int, period: real, pulses: int)
    requires c.Valid() && forall x :: -1.0 <= c.sin(x) <= 1.0
    ensures var s := Schedule(c.MakePulse(pulses).0, c.MakePulse(pulses).1, SampleCount(period, RATE), frames);
      var out := ConvertChunk(s);
      forall k :: 0 <= k < |out| ==> -32767 <= out[k].0 <= 32767 && -32767 <= out[k].1 <= 32767
  {
    var pulse := c.MakePulse(pulses);
    PulsesBounded(c);
    var s := Schedule(pulse.0, pulse.1, SampleCount(period, RATE), frames);
    ScheduleBounded(pulse.0, pulse.1, SampleCount(period, RATE), frames);
    forall k | 0 <= k < |s|
      ensures -32767 <= ToPcm(s[k].0) <= 32767 && -32767 <= ToPcm(s[k].1) <= 32767
    {
      PcmRange(s[k].0);
      PcmRange(s[k].1);
    }
  }

  /** The progress stream of `write_timelapse_waveform_wav`: one report per
      batch, with `done` strictly increasing and ending at the declared
      count, the declared count as constant second component, and no
      report at all when nothing is scheduled. */
  lemma ProgressReachesDeclaredCount(c: TTController, frames: int, period: real, pulses: int)
    requires c.Valid()
    ensures var total := SampleCount(period, RATE);
      var s := Schedule(c.MakePulse(pulses).0, c.MakePulse(pulses).1, total, frames);
      var p := Progress(ChunksOf(s, CHUNK_SIZE), total * frames);
      && (p == [] <==> s == [])
      && (frames <= 0 || total <= 0 ==> p == [])
      && (total * frames == 0 ==> p == [])
      && (forall j :: 0 <= j < |p| ==> p[j].1 == total * frames)
      && (forall i, j :: 0 <= i < j < |p| ==> p[i].0 < p[j].0)
      && (p != [] ==> p[|p| - 1].0 == total * frames)
  {
    var total := SampleCount(period, RATE);
    var pulse := c.MakePulse(pulses);
    var s := Schedule(pulse.0, pulse.1, total, frames);
    ProgressOfChunks(s, CHUNK_SIZE, total * frames);
    ScheduleLength(pulse.0, pulse.1, total, frames);
    DeclaredCountMatches(pulse.0, pulse.1, total, frames);
  }

  /** The parameters for a one-minute capture played back as ten seconds at
      30 fps: 300 frames, one every 0.2 s, pulses unchanged. */
  lemma TimelapseArgsExample()
    ensures TTController.CalcTimelapseArgs(60.0, 10.0, 30.0, 3) == Ok(TimelapseArgs(300, 0.2, 3))
  {
  }

  /** When `duration * fps` is a whole number of frames, that many frames
      at the computed period span exactly the input duration. */
  lemma FramesSpanInputDuration(inputDuration: real, outputDuration: real, outputFps: real, pulses: int)
    requires outputFps != 0.0 && outputDuration != 0.0
    requires (outputDuration * outputFps).Floor as real == outputDuration * outputFps
    ensures var a := TTController.CalcTimelapseArgs(inputDuration, outputDuration, outputFps, pulses).value;
      a.frames as real * a.period == inputDuration
  {
    var a := TTController.CalcTimelapseArgs(inputDuration, outputDuration, outputFps, pulses).value;
    assert a.frames as real == outputFps * outputDuration;
  }
}
