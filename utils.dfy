/** pytriggertrap/utils.py: the chunking cursor that batches a stream, and
    the sine-wave synthesizer. */
module Utils {
  import opened Common

  datatype Option<T> = None | Some(value: T)

  // ---------------------------------------------------------------------
  // Chunking
  // ---------------------------------------------------------------------

  /** Consecutive slices of `s` of `size` elements each; the last may be
      shorter, and there is no empty slice. This is what a fully drained
      `ChunkIterator.chunks(size)` delivers. */
  function ChunksOf<T>(s: seq<T>, size: int): (r: seq<seq<T>>)
    requires size >= 1
    ensures Flatten(r) == s
    ensures forall j :: 0 <= j < |r| ==> 0 < |r[j]| <= size
    ensures forall j :: 0 <= j < |r| - 1 ==> |r[j]| == size
    decreases |s|
  {
    if |s| == 0 then []
    else if |s| <= size then
      assert Flatten([s]) == s + Flatten([]);
      [s]
    else
      var rest := ChunksOf(s[size..], size);
      var r := [s[..size]] + rest;
      assert r[1..] == rest;
      assert s[..size] + s[size..] == s;
      r
  }

  /** The first slice is the first `min(size, |s|)` elements. */
  lemma ChunksOfStep<T>(s: seq<T>, size: int)
    requires size >= 1 && s != []
    ensures ChunksOf(s, size) == [s[..Min(size, |s|)]] + ChunksOf(s[Min(size, |s|)..], size)
  {
    if |s| <= size {
      assert s[|s|..] == [];
    }
  }

  /** Cutting off a first slice of the right length leaves the slices of
      the rest. */
  lemma ChunksOfSplit<T>(s: seq<T>, c: seq<T>, rest: seq<T>, size: int)
    requires size >= 1 && s != [] && |c| == Min(size, |s|) && s == c + rest
    ensures ChunksOf(s, size) == [c] + ChunksOf(rest, size)
  {
    ChunksOfStep(s, size);
    assert c == s[..|c|] && rest == s[|c|..];
  }

  /** Cutting one more slice off the undelivered part keeps `done` and the
      slices of what is left adding up to the slices of `all`. */
  lemma ChunksOfAdvance<T>(all: seq<T>, done: seq<seq<T>>, s: seq<T>, c: seq<T>, rest: seq<T>, size: int)
    requires size >= 1 && done + ChunksOf(s, size) == ChunksOf(all, size)
    requires s != [] && |c| == Min(size, |s|) && s == c + rest
    ensures (done + [c]) + ChunksOf(rest, size) == ChunksOf(all, size)
    ensures |rest| < |s|
  {
    ChunksOfSplit(s, c, rest, size);
    ConcatAssoc(done, [c], ChunksOf(rest, size));
  }

  /** Nothing undelivered: `done` is every slice of `all`. */
  lemma ChunksOfDone<T>(all: seq<T>, done: seq<seq<T>>, size: int)
    requires size >= 1 && done + ChunksOf([], size) == ChunksOf(all, size)
    ensures done == ChunksOf(all, size)
  {
    assert done + [] == done;
  }

  /** The number of slices is `ceil(|s| / size)`; none at all for an empty
      stream, and no trailing empty slice when `size` divides `|s|`. */
  lemma {:induction false} ChunksOfCount<T>(s: seq<T>, size: int)
    requires size >= 1
    ensures |ChunksOf(s, size)| == (|s| + size - 1) / size
    ensures ChunksOf(s, size) == [] <==> s == []
    decreases |s|
  {
    if |s| == 0 {
      DivModUnique(size - 1, size, 0, size - 1);
    } else if |s| <= size {
      ChunksOfStep(s, size);
      DivModUnique(|s| + size - 1, size, 1, |s| - 1);
    } else {
      var rest := s[size..];
      ChunksOfStep(s, size);
      ChunksOfCount(rest, size);
      assert |s| + size - 1 == (|rest| + size - 1) + size;
      DivShift(|rest| + size - 1, size);
    }
  }

  lemma DivShift(a: int, d: int)
    requires d > 0 && a >= 0
    ensures (a + d) / d == a / d + 1
  {
    DivModUnique(a, d, a / d, a % d);
    DivModUnique(a + d, d, a / d + 1, a % d);
  }

  /** After the first `j + 1` slices, `min((j + 1) * size, |s|)` elements of
      `s` have been handed out. */
  lemma {:induction false} ChunksOfPrefix<T>(s: seq<T>, size: int, j: nat)
    requires size >= 1 && j < |ChunksOf(s, size)|
    ensures |Flatten(ChunksOf(s, size)[..j + 1])| == Min((j + 1) * size, |s|)
    decreases |s|
  {
    var r := ChunksOf(s, size);
    ChunksOfStep(s, size);
    var k := Min(size, |s|);
    var head, later := s[..k], s[k..];
    var rest := ChunksOf(later, size);
    assert r == [head] + rest;
    if j == 0 {
      assert r[..1] == [head];
      assert Flatten([head]) == head + Flatten([]);
    } else {
      ChunksOfPrefix(later, size, j - 1);
      var tail := rest[..j];
      assert r[..j + 1] == [head] + tail;
      assert ([head] + tail)[1..] == tail;
      assert |Flatten(r[..j + 1])| == k + |Flatten(tail)|;
      MinShift(j, size, |s|);
    }
  }

  lemma MinShift(j: int, size: int, n: int)
    requires size <= n
    ensures size + Min(j * size, n - size) == Min((j + 1) * size, n)
  {
    assert (j + 1) * size == j * size + size;
  }

  /** The `(done, total)` pairs reported after each slice of `cs`: `done` is
      the running count of elements delivered, `total` never changes. */
  function Progress<T>(cs: seq<seq<T>>, total: int): (r: seq<(int, int)>)
    ensures |r| == |cs|
    ensures forall j :: 0 <= j < |r| ==> r[j].1 == total
  {
    if cs == [] then [] else Progress(cs[..|cs| - 1], total) + [(|Flatten(cs)|, total)]
  }

  lemma ProgressSnoc<T>(cs: seq<seq<T>>, c: seq<T>, total: int)
    ensures Progress(cs + [c], total) == Progress(cs, total) + [(|Flatten(cs + [c])|, total)]
  {
    assert (cs + [c])[..|cs|] == cs;
  }

  /** Report `j` counts the elements of the first `j + 1` slices. */
  lemma {:induction false} ProgressAt<T>(cs: seq<seq<T>>, total: int, j: nat)
    requires j < |cs|
    ensures Progress(cs, total)[j] == (|Flatten(cs[..j + 1])|, total)
    decreases |cs|
  {
    var init := cs[..|cs| - 1];
    if j < |cs| - 1 {
      ProgressAt(init, total, j);
      assert init[..j + 1] == cs[..j + 1];
    } else {
      assert cs[..j + 1] == cs;
    }
  }

  /** With no empty slice, the running count strictly increases. */
  lemma ProgressIncreasing<T>(cs: seq<seq<T>>, total: int)
    requires forall j :: 0 <= j < |cs| ==> cs[j] != []
    ensures var p := Progress(cs, total);
      forall i, j :: 0 <= i < j < |p| ==> p[i].0 < p[j].0
  {
    var p := Progress(cs, total);
    forall i, j | 0 <= i < j < |p| ensures p[i].0 < p[j].0 {
      ProgressAt(cs, total, i);
      ProgressAt(cs, total, j);
      var between := cs[i + 1..j + 1];
      assert cs[..j + 1] == cs[..i + 1] + between;
      FlattenAppend(cs[..i + 1], between);
      assert Flatten(between) == cs[i + 1] + Flatten(between[1..]);
    }
  }

  /** The progress reported while draining `ChunksOf(s, size)`: report `j`
      says `min((j + 1) * size, |s|)` elements are done, the count strictly
      increases and ends at `|s|`, and there is no report at all for an
      empty stream. */
  lemma ProgressOfChunks<T>(s: seq<T>, size: int, total: int)
    requires size >= 1
    ensures var p := Progress(ChunksOf(s, size), total);
      && |p| == (|s| + size - 1) / size
      && (p == [] <==> s == [])
      && (forall j :: 0 <= j < |p| ==> p[j] == (Min((j + 1) * size, |s|), total))
      && (forall i, j :: 0 <= i < j < |p| ==> p[i].0 < p[j].0)
      && (p != [] ==> p[|p| - 1].0 == |s|)
  {
    var cs := ChunksOf(s, size);
    var p := Progress(cs, total);
    ChunksOfCount(s, size);
    forall j | 0 <= j < |p| ensures p[j] == (Min((j + 1) * size, |s|), total) {
      ChunksOfPrefix(s, size, j);
      ProgressAt(cs, total, j);
    }
    ProgressIncreasing(cs, total);
    if p != [] {
      assert cs[..|p|] == cs;
    }
  }

  /**
   * The cursor of utils.py: it reads one element ahead into `nextItem`
   * (Python's `_next`), remembers in `iterating` whether the source has
   * not yet run dry, and counts in `iterated` the elements its chunks
   * have handed out. The source iterator is a sequence and a cursor into it.
   */
  class ChunkIterator<T> {
    const source: seq<T>
    /** How many elements the underlying iterator has produced so far. */
    var cursor: nat
    var nextItem: Option<T>
    var iterating: bool
    var iterated: int

    /** The buffered element is always the last one fetched, and the
        iterator only stops once the source is exhausted. */
    ghost predicate Wellformed()
      reads this
    {
      && cursor <= |source|
      && nextItem == (if cursor == 0 then None else Some(source[cursor - 1]))
      && (!iterating ==> cursor == |source|)
    }

    /** Wellformed, and past the pre-fetch of the constructor. */
    ghost predicate Valid()
      reads this
    {
      Wellformed() && (iterating ==> cursor >= 1)
    }

    /** Number of source elements handed out by `Next` so far. */
    ghost function Delivered(): nat
      reads this
      requires Valid()
    {
      if iterating then cursor - 1 else |source|
    }

    /** The elements not yet handed out, in order. */
    ghost function Remaining(): (r: seq<T>)
      reads this
      requires Valid()
      ensures iterating <==> r != []
    {
      source[Delivered()..]
    }

    constructor (source: seq<T>)
      ensures this.source == source && Valid()
      ensures iterated == 0 && Delivered() == 0
      ensures iterating <==> source != []
      ensures nextItem == if source == [] then None else Some(source[0])
    {
      this.source := source;
      cursor := 0;
      iterating := true;
      nextItem := None;
      iterated := 0;
      new;
      var _ := Next();
    }

    /** Returns the buffered element and fetches the following one; on an
        exhausted source the buffer keeps its stale value and `iterating`
        turns false for good. */
    method Next() returns (x: Option<T>)
      requires Wellformed()
      modifies this`cursor, this`nextItem, this`iterating
      ensures Valid()
      ensures x == old(nextItem)
      ensures old(cursor) < |source| ==>
        cursor == old(cursor) + 1 && nextItem == Some(source[old(cursor)]) && iterating == old(iterating)
      ensures old(cursor) == |source| ==>
        cursor == old(cursor) && nextItem == old(nextItem) && !iterating
      ensures !old(iterating) ==> !iterating
      ensures old(Valid()) && old(iterating) ==>
        x == Some(old(Remaining())[0]) && Remaining() == old(Remaining())[1..]
    {
      x := nextItem;
      if cursor < |source| {
        nextItem := Some(source[cursor]);
        cursor := cursor + 1;
      } else {
        iterating := false;
      }
    }

    /** One fully drained `iter_chunk()`: up to `size` elements, stopping
        early when the source runs dry. Nothing happens when `size <= 0`,
        which is why `chunks` never ends for such a size. */
    method NextChunk(size: int) returns (chunk: seq<T>)
      requires Valid() && iterating
      modifies this`cursor, this`nextItem, this`iterating, this`iterated
      ensures Valid()
      ensures var n := if size <= 0 then 0 else Min(size, |old(Remaining())|);
        && |chunk| == n
        && old(Remaining()) == chunk + Remaining()
        && iterated == old(iterated) + n
        && (iterating <==> n < |old(Remaining())|)
    {
      ghost var rem := Remaining();
      chunk := [];
      var i := 0;
      while i < size
        invariant Valid() && iterating
        invariant 0 <= i < |rem| && i <= Max(0, size)
        invariant chunk == rem[..i] && Remaining() == rem[i..]
        invariant iterated == old(iterated) + i
      {
        var x := Next();
        chunk := chunk + [x.value];
        iterated := iterated + 1;
        if !iterating {
          assert i + 1 == |rem| && chunk == rem[..i + 1];
          break;
        }
        i := i + 1;
      }
    }

    /** `chunks(size)` drained to the end: the remaining elements, cut into
        `ChunksOf` slices, with `iterated` advanced by their count. */
    method Chunks(size: int) returns (chunks: seq<seq<T>>)
      requires Valid() && size >= 1
      modifies this`cursor, this`nextItem, this`iterating, this`iterated
      ensures Valid() && !iterating && Remaining() == []
      ensures chunks == ChunksOf(old(Remaining()), size)
      ensures iterated == old(iterated) + |old(Remaining())|
    {
      ghost var all := Remaining();
      chunks := [];
      while iterating
        invariant Valid()
        invariant chunks + ChunksOf(Remaining(), size) == ChunksOf(all, size)
        invariant iterated == old(iterated) + |all| - |Remaining()|
        decreases |Remaining()|
      {
        ghost var rem := Remaining();
        var c := NextChunk(size);
        ghost var rest := Remaining();
        ChunksOfAdvance(all, chunks, rem, c, rest, size);
        chunks := chunks + [c];
      }
      ChunksOfDone(all, chunks, size);
    }
  }

  // ---------------------------------------------------------------------
  // Sine wave
  // ---------------------------------------------------------------------

  /** Python's `math.pi`. */
  const PI: real := 3.141592653589793

  /** The `amplitude` argument of `sine_wave`: a plain number, or a
      function of elapsed time. */
  datatype Amplitude = Constant(level: real) | Callable(fn: real -> real)

  /** The amplitude applied at time `t`; a plain number is ignored in
      favour of the constant 1.0. */
  function AmplitudeAt(a: Amplitude, t: real): real
  {
    match a
    case Constant(_) => 1.0
    case Callable(fn) => fn(t)
  }

  /** Number of samples `floor(length / (1 / rate))`; may be negative. */
  function SampleCount(length: real, rate: int): int
    requires rate != 0
  {
    (length / (1.0 / rate as real)).Floor
  }

  /** The sample count is `floor(length * rate)`, and zero samples are
      produced whenever `length` is shorter than one sample period. */
  lemma SampleCountLaw(length: real, rate: int)
    requires rate > 0
    ensures SampleCount(length, rate) == (length * rate as real).Floor
    ensures SampleCount(length, rate) as real <= length * rate as real < SampleCount(length, rate) as real + 1.0
    ensures 0.0 <= length < 1.0 / rate as real ==> SampleCount(length, rate) == 0
  {
    var p := 1.0 / rate as real;
    assert length / p == length * rate as real;
    if 0.0 <= length < p {
      assert length * rate as real < p * rate as real == 1.0;
    }
  }

  /** The signal `a(t) * sin(2 pi f t)` at time `t`. */
  function Tone(sin: real -> real, f: real, amplitude: Amplitude, t: real): real
  {
    AmplitudeAt(amplitude, t) * sin(2.0 * PI * f * t)
  }

  /** The time `i * p` of sample `i`, where `p = 1 / rate` is the sample
      period. */
  function SampleTime(i: int, rate: int): real
    requires rate != 0
  {
    i as real * (1.0 / rate as real)
  }

  /** `sine_wave(f, length, rate, amplitude)`, with `math.sin` passed in as
      `sin`. A zero `rate` raises ZeroDivisionError. Otherwise there are
      `max(0, floor(length / (1 / rate)))` samples, and sample `i` is the
      amplitude at time `i / rate` times `sin(2 pi f i / rate)`. */
  function SineWave(sin: real -> real, f: real, length: real, rate: int, amplitude: Amplitude): (r: Result<seq<real>>)
    ensures r.Err? <==> rate == 0
    ensures r.Ok? ==> |r.value| == Max(0, SampleCount(length, rate))
    ensures r.Ok? ==> forall i :: 0 <= i < |r.value| ==> r.value[i] == Tone(sin, f, amplitude, SampleTime(i, rate))
  {
    if rate == 0 then Err(ZeroDivisionError)
    else
      var p := 1.0 / rate as real;
      Ok(seq(Max(0, (length / p).Floor), i => Tone(sin, f, amplitude, SampleTime(i, rate))))
  }

  /** Sample `i` falls at time `i / rate`, computed from the index rather
      than accumulated sample by sample. */
  lemma SampleTimeIsRatio(i: int, rate: int)
    requires rate != 0
    ensures SampleTime(i, rate) == i as real / rate as real
  {
    MulReciprocal(i as real, rate as real);
  }

  lemma MulReciprocal(x: real, d: real)
    requires d != 0.0
    ensures x * (1.0 / d) == x / d
  {
  }

  /** A non-callable amplitude is ignored: whatever number is passed, the
      wave is the one built with the constant amplitude function 1.0. */
  lemma ConstantAmplitudeIgnored(sin: real -> real, f: real, length: real, rate: int, level: real)
    ensures SineWave(sin, f, length, rate, Constant(level)) == SineWave(sin, f, length, rate, Callable(_ => 1.0))
  {
    var a, b := SineWave(sin, f, length, rate, Constant(level)), SineWave(sin, f, length, rate, Callable(_ => 1.0));
    if rate != 0 {
      assert a.value == b.value;
    }
  }
}
