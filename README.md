# PyTriggerTrap signal scheduling and chunked streaming, in Dafny

PyTriggerTrap drives a TriggerTrap camera trigger from an audio file. Its
controller does the following:

- It caches two 50 ms, 17 kHz pulses. The right one is a plain tone. The left
  one is the same tone, silent for its first millisecond.
- It repeats the pulses into a pulse train and lays that train out `frames`
  times, once every `period` seconds.
- It streams the resulting stereo sample pairs into a 16-bit WAV file in
  batches of 10000 pairs. After each batch it reports `(done, total)`.

This project models that core and proves its laws:

- `common.dfy` (module `Common`): the division-by-zero error and `Result`,
  list joining (`Flatten`) and Python list repetition (`Repeat`).
- `utils.dfy` (module `Utils`), from `pytriggertrap/utils.py`:
  - `ChunkIterator`, a class with the source's fields. The source iterator
    becomes a sequence plus a cursor. `Next` and the chunk loops are methods
    proved against the specification function `ChunksOf`.
  - `sine_wave`, as the function `SineWave`. `math.sin` is passed in as a
    parameter `sin: real -> real`.
- `controller.dfy` (module `Controller`), from `pytriggertrap/controller.py`:
  - The `TTController` class with its two cached pulses, and `make_pulse`.
  - `make_timelapse_waveform` as a nested-loop method, proved against the
    function `Schedule`.
  - The chunk, convert and report loop of `write_timelapse_waveform_wav`.
  - `calc_timelapse_args`.

Where the code and the design notes of the project disagree, the model
follows the code:

- A pulse train longer than the period is not rejected. Each segment keeps
  only its first `total` pairs (`SegmentTruncatesOverrun`).
- Samples become integers with `int(32767 * y)`. This truncates toward zero;
  it does not round (`Truncate`, `PcmRange`).
- The gate silences samples 0 to 44, which is 45 samples, not 44. Sample 44
  falls at 44/44100 s, which is still before 1 ms (`GateBoundary`).
- A zero output frame rate or duration raises `ZeroDivisionError` from the
  float division. There is no other validation.

## Model

| member | source | states |
|---|---|---|
| `Utils.ChunkIterator.constructor` | pytriggertrap/utils.py:12-18 | Construction pre-fetches the first element. Nothing has been delivered and `iterated` is 0. `iterating` holds exactly when the source is non-empty. The buffer holds the first element, or nothing. |
| `Utils.ChunkIterator.Next` | pytriggertrap/utils.py:20-28 | Returns the previously buffered element and advances the cursor by exactly one. At the end of the source it clears `iterating`, and once false `iterating` never becomes true again. While iterating, it hands out the first remaining element and leaves the rest. |
| `Utils.ChunkIterator.NextChunk` | pytriggertrap/utils.py:38-44 | One drained `iter_chunk()`. The chunk is the first `min(size, remaining)` elements, in order. `iterated` grows by the chunk length. `iterating` stays true exactly when elements are left. With `size <= 0` nothing happens, so `iterating` stays true. |
| `Utils.ChunkIterator.Chunks` | pytriggertrap/utils.py:30-47 | Draining `chunks(size)` for `size >= 1` yields exactly `ChunksOf(remaining, size)`. It ends exhausted, with `iterated` advanced by the number of elements delivered. |
| `Utils.ChunksOf` | pytriggertrap/utils.py:38-47 | Joining the chunks gives back the source, in order. Every chunk is non-empty and holds at most `size` elements. All chunks but the last are full. |
| `Utils.ChunksOfSplit` | pytriggertrap/utils.py:38-44 | Cutting a first chunk of `min(size, |s|)` elements leaves the chunks of the rest. |
| `Utils.ChunksOfCount` | pytriggertrap/utils.py:38-47 | There are `ceil(|s| / size)` chunks. There are none for an empty source, and no trailing empty chunk when `size` divides the length. |
| `Utils.ChunksOfPrefix` | pytriggertrap/utils.py:40-41 | After `j + 1` chunks, `min((j + 1) * size, |s|)` elements have been delivered. |
| `Utils.ProgressAt` | pytriggertrap/utils.py:40-41 | Report `j` counts the elements of the first `j + 1` chunks. |
| `Utils.ProgressIncreasing` | pytriggertrap/utils.py:40-41 | With non-empty chunks, the running count strictly increases. |
| `Utils.ProgressOfChunks` | pytriggertrap/utils.py:38-47 | The reports over `ChunksOf(s, size)` number `ceil(|s| / size)`. There are none for an empty source. Report `j` is `min((j + 1) * size, |s|)`, strictly increasing and ending at `|s|`. |
| `Utils.SineWave` | pytriggertrap/utils.py:50-78 | A zero rate raises ZeroDivisionError. Otherwise there are `max(0, floor(length / (1 / rate)))` samples, and sample `i` is `a(i * p) * sin(2 pi f i p)`. |
| `Utils.SampleCountLaw` | pytriggertrap/utils.py:64-78 | For a positive rate the sample count is `floor(length * rate)`, within one of `length * rate`. It is 0 when `length` is shorter than one sample period. |
| `Utils.SampleTimeIsRatio` | pytriggertrap/utils.py:74-76 | Sample `i` falls at time `i / rate`. |
| `Utils.ConstantAmplitudeIgnored` | pytriggertrap/utils.py:67-72 | Whatever number is given as amplitude, the wave equals the one built with the constant amplitude function 1.0. |
| `Common.Repeat` | pytriggertrap/controller.py:51 | `s * n` has length `max(0, n) * |s|`, and its element `k` is `s[k mod |s|]`. |
| `Common.RepeatCopy` | pytriggertrap/controller.py:51 | Element `k` of copy `j` of `s * n` is `s[k]`. |
| `Controller.PlainPulse` | pytriggertrap/controller.py:39 | The right pulse holds 2205 samples. |
| `Controller.GatedPulse` | pytriggertrap/controller.py:33-40 | The left pulse holds 2205 samples, as many as the right one. |
| `Controller.PulseSampleCount` | pytriggertrap/controller.py:20-22 | `floor(0.05 / (1 / 44100))` is 2205. |
| `Controller.GatingLaw` | pytriggertrap/controller.py:33-40 | A left sample is 0.0 while its time is before PAUSE. From then on it equals the right sample at the same index. |
| `Controller.GateBoundary` | pytriggertrap/controller.py:33-40 | Samples 0 to 44 of the left pulse are 0.0. From sample 45 on, the left pulse equals the right pulse. |
| `Controller.TTController.MakePulse` | pytriggertrap/controller.py:42-51 | Both tracks have length `max(0, n) * 2205`, so both are empty for `n <= 0`. Element `k` of each track is element `k mod 2205` of its cached pulse. |
| `Controller.PulseTrainRepeats` | pytriggertrap/controller.py:51 | Sample `k` of repetition `j` of each track is sample `k` of its cached pulse. |
| `Controller.TTController.MakeTimelapseWaveform` | pytriggertrap/controller.py:53-78 | The nested loops build exactly `Schedule(l, r, total, frames)` with `total = floor(period / (1 / RATE))`. The declared count is `total * frames`. |
| `Controller.ScheduleLength` | pytriggertrap/controller.py:70-76 | The stream holds `max(0, frames) * max(0, total)` pairs. |
| `Controller.ScheduleSegment` | pytriggertrap/controller.py:70-76 | All segments are identical: pair `j * total + i` is pair `i` of one segment. |
| `Controller.SegmentPadsWithSilence` | pytriggertrap/controller.py:72-76 | A pulse train that fits the period is followed by `total - |l|` silent pairs. |
| `Controller.SegmentTruncatesOverrun` | pytriggertrap/controller.py:72-74 | A pulse train longer than the period is cut to its first `total` pairs. No error is raised. |
| `Controller.DeclaredCountMatches` | pytriggertrap/controller.py:78 | The declared `total * frames` equals the number of pairs emitted exactly when neither factor is negative, or one of them is zero. |
| `Controller.TimelapseSample` | pytriggertrap/controller.py:64-76 | Pair `i` of every segment is the cycled cached pulse pair while `i` is inside the pulse train, and `(0.0, 0.0)` after it. |
| `Controller.PulsesBounded` | pytriggertrap/controller.py:39-40 | With `sin` in [-1, 1], every sample of both cached pulses is in [-1, 1]. |
| `Controller.ScheduleBounded` | pytriggertrap/controller.py:70-76 | Pulse samples in [-1, 1] keep every scheduled pair in [-1, 1]. |
| `Controller.Truncate` | pytriggertrap/controller.py:109 | `int(x)` truncates toward zero. It is non-negative and within one below `x` for `x >= 0`, and non-positive and within one above `x` for `x < 0`. |
| `Controller.AmpIsInt16Max` | pytriggertrap/controller.py:106 | `2 ** (2 * 8 - 1) - 1` is 32767. |
| `Controller.PcmRange` | pytriggertrap/controller.py:106-109 | A sample in [-1, 1] becomes an integer in [-32767, 32767] with the sample's sign, within one step of `32767 * y` toward zero. |
| `Controller.ConvertChunk` | pytriggertrap/controller.py:109 | One integer pair is written per sample pair. |
| `Controller.ConvertChunksFlatten` | pytriggertrap/controller.py:108-110 | Writing batch by batch puts out the same integers as converting the whole stream at once. |
| `Controller.StreamStep` | pytriggertrap/controller.py:108-112 | Taking, converting and reporting one more batch keeps the streaming invariant. The batches taken so far, followed by the chunks of what remains, are the chunks of the whole stream. |
| `Controller.StreamDone` | pytriggertrap/controller.py:108-112 | When nothing remains, the batches written are the converted `ChunksOf` of the stream, and the reports are `Progress` over them. |
| `Controller.WrittenSamplesFitInt16` | pytriggertrap/controller.py:106-109 | With `sin` in [-1, 1], every integer written lies in [-32767, 32767]. |
| `Controller.TTController.WriteFrames` | pytriggertrap/controller.py:97-112 | The header is 2 channels, 2 bytes, 44100 Hz and `n_frames`. The writes are the stream cut into 10000-pair batches and converted; joined, they are the whole stream converted. The reports are the cumulative `(it.iterated, n_frames)` after each batch. |
| `Controller.TTController.WriteTimelapseWaveformWav` | pytriggertrap/controller.py:80-112 | The header declares `total * frames`. Converted 10000-pair batches of the timelapse stream are written, with one cumulative report per batch. |
| `Controller.ProgressReachesDeclaredCount` | pytriggertrap/controller.py:98-112 | There is one report per batch. `done` strictly increases and ends at the declared count, and the second component is always the declared count. There is no report at all when nothing is scheduled or the declared count is 0. |
| `Controller.TTController.CalcTimelapseArgs` | pytriggertrap/controller.py:148-175 | A zero fps or duration raises ZeroDivisionError. Otherwise `frames = floor(duration * fps)` and `period * (fps * duration) = input_duration`, and `pulses` passes through. |
| `Controller.TimelapseArgsExample` | pytriggertrap/controller.py:165-175 | `(60, 10, 30, 3)` gives 300 frames, a 0.2 s period and 3 pulses. |
| `Controller.FramesSpanInputDuration` | pytriggertrap/controller.py:169-172 | When `duration * fps` is whole, `frames * period` is exactly the input duration. |

## Left out

- Floating point is not modelled. Times, periods and samples are `real`, and
  `math.pi` is a real constant. IEEE-754 rounding of `1.0 / RATE`,
  `period / p` and `amp * y` is not modelled.
- `math.sin` is a parameter of the model (`sin`), so its values are not
  modelled. The range lemmas assume it stays in [-1, 1].
- Generators are modelled as the finite sequences they produce. The laziness
  of `make()`, `chunks()` and the progress generator is not modelled.
  `write_timelapse_waveform_wav` returns the writes and reports as sequences.
- The `wave` module's RIFF/WAVE header and `struct.pack('h', ...)` byte
  layout are foreign library calls. Each write is a sequence of integer
  pairs, and the header is the record `WavParams` of the four fields set
  before any data.
- Opening and closing the output file or file object is I/O and is not
  modelled.
- `progress` in `pytriggertrap/utils.py` draws a terminal progress bar
  through an external library, so it is not part of this model.
- `write_timelapse_waveform_mp3` deletes a file and drives an `ffmpeg`
  subprocess, which is process I/O, so it is not part of this model.
- `setup.py` is packaging metadata and is not part of this model.
- Utils.ChunkIterator.Chunks: requires `size >= 1`. With `size <= 0` the
  source loops forever, and `NextChunk` proves each round is a no-op.
- Utils.ChunkIterator.NextChunk: requires `iterating`. `iter_chunk` is only
  started under `while self.iterating`.
- Utils.ChunkIterator.Next: the `StopIteration` of the source iterator is
  modelled as the cursor reaching the end of the sequence.
- Exceptions other than `ZeroDivisionError` are not modelled: type errors on
  non-numeric arguments, and overflow of huge floats.
