/**
 * The per-chunk step of the capture callback in
 * src/audio/hardware/input/microphone.rs (`start_recording`) and its pause
 * helper `avg_compare`.
 *
 * The callback keeps a double-ended buffer of scored chunks, newest at the
 * front, and an optional WAV writer.  For every captured chunk it
 *   1. pushes the chunk at the front,
 *   2. opens a writer when the buffer is long enough, the chunk sounds like
 *      speech and no writer is open,
 *   3. drops the oldest chunk while the oldest `TimeLen` chunks are at least
 *      half below the gate,
 *   4. when the newest `TimeLen` probabilities form a pause and a writer is
 *      open, writes the whole buffer oldest first into it and closes it.
 *
 * Writers are modelled by the files they produce: `files` holds the samples
 * of every WAV file opened so far, in opening order, and an open writer is
 * always the last of them.
 */
module Microphone {
  import opened Processing

  /** `time_len`: chunks the eviction and pause rules look at. */
  const TimeLen: nat := 16
  /** `time_len_half`. */
  const TimeLenHalf: nat := 8
  /** `predict_gate`: the speech-probability threshold. */
  const PredictGate: real := 0.75

  /**
   * `avg_compare`: the pause test as the callback states it, on the
   * probabilities of the newest `TimeLen` chunks.  It is the same test as
   * `AudioSegment::is_pause`; on its one call site the input has 16 entries,
   * so the tail average is the sum of the last 13 over 13.
   */
  function AvgCompare(input: seq<real>): (r: bool)
    requires |input| >= LeadFrames
    ensures r == AudioSegment.IsPause(input)
    ensures |input| == TimeLen ==>
      (r <==> forall i :: 0 <= i < LeadFrames ==> input[i] <= PauseRatio * (Sum(input[LeadFrames..]) / 13.0))
  {
    var n := LeadFrames;
    var sum := Sum(input[n..]);
    if |input| == n then
      false  // 0.0 / 0.0 is a NaN, and no value is `<=` a NaN
    else
      var avg := sum / (|input| as real - n as real);
      forall i :: 0 <= i < n ==> input[i] <= avg * PauseRatio
  }

  /** The speech probabilities of a run of buffered chunks, in buffer order. */
  function Probabilities(b: seq<AudioSegment>): (ps: seq<real>)
    ensures |ps| == |b|
    ensures forall i :: 0 <= i < |b| ==> ps[i] == b[i].speechProbability
  {
    seq(|b|, i requires 0 <= i < |b| => b[i].speechProbability)
  }

  /** How many chunks of `b` fall strictly below the gate. */
  function CountBelow(b: seq<AudioSegment>): (n: nat)
    ensures n <= |b|
  {
    if b == [] then 0
    else (if b[0].speechProbability < PredictGate then 1 else 0) + CountBelow(b[1..])
  }

  /** The eviction loop's condition: at least `TimeLen` chunks, and at least half of the oldest `TimeLen` below the gate. */
  predicate MustEvict(b: seq<AudioSegment>)
  {
    |b| >= TimeLen && CountBelow(b[|b| - TimeLen..]) >= TimeLenHalf
  }

  /**
   * What the eviction loop leaves of `b`: the longest prefix (newest chunks)
   * on which the loop condition fails, reached by removing oldest chunks one
   * at a time for as long as the condition holds.
   */
  function Evict(b: seq<AudioSegment>): (r: seq<AudioSegment>)
    ensures |r| <= |b| && r == b[..|r|]
    ensures !MustEvict(r)
    ensures forall k :: |r| < k <= |b| ==> MustEvict(b[..k])
    ensures |b| >= TimeLen - 1 ==> |r| >= TimeLen - 1
    decreases |b|
  {
    if MustEvict(b) then
      var r := Evict(b[..|b| - 1]);
      PrefixesOfShorter(b);
      r
    else
      b
  }

  /** A prefix of `b` without its last element is a prefix of `b`. */
  lemma PrefixesOfShorter(b: seq<AudioSegment>)
    requires b != []
    ensures b[..|b|] == b
    ensures forall k :: 0 <= k <= |b| - 1 ==> b[..|b| - 1][..k] == b[..k]
  {
  }

  /** The samples of `b` oldest chunk first, as the drain loop writes them. */
  function Chronological(b: seq<AudioSegment>): seq<Sample>
  {
    if b == [] then [] else Chronological(b[1..]) + b[0].audioData
  }

  /** The state the callback closure carries from one chunk to the next. */
  datatype WindowState = WindowState(buf: seq<AudioSegment>, writerOpen: bool, files: seq<seq<Sample>>)
  {
    /** An open writer is the last file opened, and nothing has been written to it yet. */
    predicate Valid()
    {
      writerOpen ==> files != [] && files[|files| - 1] == []
    }
  }

  /** The state before the first chunk arrives. */
  const Initial: WindowState := WindowState([], false, [])

  /** Step 2's guard, on the buffer after the push. */
  predicate OpensWriter(pushed: seq<AudioSegment>, p: real, writerOpen: bool)
  {
    |pushed| > TimeLenHalf && p > PredictGate && !writerOpen
  }

  /** Step 4's first guard: more than `TimeLen` chunks and a pause among the newest `TimeLen`. */
  predicate PauseDetected(b: seq<AudioSegment>)
  {
    |b| > TimeLen && AvgCompare(Probabilities(b[..TimeLen]))
  }

  /** Step 1: the buffer with the new chunk pushed at the front. */
  function Pushed(w: WindowState, p: real, data: seq<Sample>): seq<AudioSegment>
  {
    [AudioSegment.New(data, p)] + w.buf
  }

  /** Whether a writer is open after step 2. */
  predicate OpenAfterOpen(w: WindowState, p: real, data: seq<Sample>)
  {
    w.writerOpen || OpensWriter(Pushed(w, p, data), p, w.writerOpen)
  }

  /** The files after step 2: opening a writer adds a new, empty file. */
  function FilesAfterOpen(w: WindowState, p: real, data: seq<Sample>): seq<seq<Sample>>
  {
    if OpensWriter(Pushed(w, p, data), p, w.writerOpen) then w.files + [[]] else w.files
  }

  /** The buffer after step 3, the eviction loop. */
  function Kept(w: WindowState, p: real, data: seq<Sample>): seq<AudioSegment>
  {
    Evict(Pushed(w, p, data))
  }

  /** Whether step 4 drains the buffer into the writer. */
  predicate Drains(w: WindowState, p: real, data: seq<Sample>)
  {
    PauseDetected(Kept(w, p, data)) && OpenAfterOpen(w, p, data)
  }

  /**
   * One run of the callback body for a chunk `data` scored `p`.
   * The drain appends every buffered chunk to the open file, oldest first,
   * and closes the writer.
   */
  function Step(w: WindowState, p: real, data: seq<Sample>): (r: WindowState)
    requires w.Valid()
    ensures r.Valid()
  {
    var files := FilesAfterOpen(w, p, data);
    if Drains(w, p, data) then
      WindowState([], false, files[..|files| - 1] + [files[|files| - 1] + Chronological(Kept(w, p, data))])
    else
      WindowState(Kept(w, p, data), OpenAfterOpen(w, p, data), files)
  }

  /** The state after admitting `chunks`, given oldest first, to `w`. */
  function Run(w: WindowState, chunks: seq<AudioSegment>): (r: WindowState)
    requires w.Valid()
    ensures r.Valid()
  {
    if chunks == [] then w
    else
      var last := chunks[|chunks| - 1];
      Step(Run(w, chunks[..|chunks| - 1]), last.speechProbability, last.audioData)
  }

  /** The callback's captured state, updated in place once per chunk. */
  class SegmentWindow {
    /** `data_buf`: newest chunk at index 0. */
    var buf: seq<AudioSegment>
    /** `wav_writer.is_some()`. */
    var writerOpen: bool
    /** The samples of every file a writer was opened for, in opening order. */
    var files: seq<seq<Sample>>

    function State(): WindowState
      reads this
    {
      WindowState(buf, writerOpen, files)
    }

    ghost predicate Valid()
      reads this
    {
      State().Valid()
    }

    /** `VecDeque::new()` and `wav_writer = None`. */
    constructor ()
      ensures Valid() && State() == Initial
    {
      buf := [];
      writerOpen := false;
      files := [];
    }

    /** The callback body for one captured chunk `data` whose speech probability is `p`. */
    method Admit(p: real, data: seq<Sample>)
      requires Valid()
      modifies this
      ensures Valid()
      ensures State() == Step(old(State()), p, data)
    {
      buf := [AudioSegment.New(data, p)] + buf;

      if |buf| > TimeLenHalf && p > PredictGate && !writerOpen {
        files := files + [[]];
        writerOpen := true;
      }

      EvictStale();

      if |buf| > TimeLen && AvgCompare(Probabilities(buf[..TimeLen])) {
        if writerOpen {
          DrainIntoWriter();
          writerOpen := false;
        }
      }
    }

    /** The eviction loop: pop the oldest chunk while the oldest `TimeLen` are at least half below the gate. */
    method EvictStale()
      modifies this
      ensures buf == Evict(old(buf))
      ensures writerOpen == old(writerOpen) && files == old(files)
    {
      while |buf| >= TimeLen && CountBelow(buf[|buf| - TimeLen..]) >= TimeLenHalf
        invariant |buf| <= |old(buf)| && buf == old(buf)[..|buf|]
        invariant Evict(buf) == Evict(old(buf))
        invariant writerOpen == old(writerOpen) && files == old(files)
        decreases |buf|
      {
        buf := buf[..|buf| - 1];
      }
    }

    /** The drain loop: pop every chunk, oldest first, and append its samples to the open file. */
    method DrainIntoWriter()
      requires files != []
      modifies this
      ensures buf == []
      ensures files == old(files)[..|old(files)| - 1] + [old(files)[|old(files)| - 1] + Chronological(old(buf))]
      ensures writerOpen == old(writerOpen)
    {
      ghost var closed, start := files[..|files| - 1], files[|files| - 1];
      assert files == closed + [start];
      assert old(buf)[|buf|..] == [];
      assert start + Chronological([]) == start;
      while buf != []
        invariant |buf| <= |old(buf)| && buf == old(buf)[..|buf|]
        invariant files == closed + [start + Chronological(old(buf)[|buf|..])]
        invariant writerOpen == old(writerOpen)
        decreases |buf|
      {
        var it := buf[|buf| - 1].audioData;
        ghost var done := old(buf)[|buf|..];
        assert old(buf)[|buf| - 1..] == [old(buf)[|buf| - 1]] + done;
        assert Chronological(old(buf)[|buf| - 1..]) == Chronological(done) + it;
        assert files[..|files| - 1] == closed && files[|files| - 1] == start + Chronological(done);
        assert (start + Chronological(done)) + it == start + Chronological(old(buf)[|buf| - 1..]);
        buf := buf[..|buf| - 1];
        files := files[..|files| - 1] + [files[|files| - 1] + it];
      }
      assert old(buf)[0..] == old(buf);
    }
  }
}
