/**
 * What the per-chunk step of the capture callback guarantees: the order of the
 * buffer, when the eviction loop stops, when a writer is opened, when and what
 * a drain writes, and what a run of chunks leaves behind.
 */
module WindowProperties {
  import opened Processing
  import opened Microphone

  // ---------------------------------------------------------------- eviction

  /** Eviction never removes the newest chunk. */
  lemma EvictKeepsNewest(b: seq<AudioSegment>)
    requires b != []
    ensures Evict(b) != [] && Evict(b)[0] == b[0]
  {
    var r := Evict(b);
    if |b| < TimeLen {
      assert b[..|b|] == b;
      assert !MustEvict(b);
    }
  }

  /**
   * While the loop condition holds, eviction strictly shortens the buffer, and
   * the result is what eviction leaves of the buffer without its oldest chunk.
   */
  lemma EvictOnePass(b: seq<AudioSegment>)
    requires MustEvict(b)
    ensures |b| >= TimeLen && |Evict(b)| < |b| && Evict(b) == Evict(b[..|b| - 1])
  {
  }

  /** How many chunks of `b` reach the gate. */
  function CountSpeech(b: seq<AudioSegment>): nat
  {
    if b == [] then 0
    else (if b[0].speechProbability >= PredictGate then 1 else 0) + CountSpeech(b[1..])
  }

  lemma {:induction false} CountsPartition(b: seq<AudioSegment>)
    ensures CountBelow(b) + CountSpeech(b) == |b|
  {
    if b != [] {
      CountsPartition(b[1..]);
    }
  }

  lemma {:induction false} CountSpeechAppend(a: seq<AudioSegment>, b: seq<AudioSegment>)
    ensures CountSpeech(a + b) == CountSpeech(a) + CountSpeech(b)
  {
    if a == [] {
      assert a + b == b;
    } else {
      assert (a + b)[1..] == a[1..] + b;
      CountSpeechAppend(a[1..], b);
    }
  }

  /**
   * A buffer the eviction loop leaves at `TimeLen` chunks or more holds at
   * least `TimeLenHalf + 1` chunks that reach the gate.
   */
  lemma KeptHoldsSpeech(b: seq<AudioSegment>)
    requires |Evict(b)| >= TimeLen
    ensures CountSpeech(Evict(b)) > TimeLenHalf
  {
    var r := Evict(b);
    var oldest := r[|r| - TimeLen..];
    CountsPartition(oldest);
    assert r == r[..|r| - TimeLen] + oldest;
    CountSpeechAppend(r[..|r| - TimeLen], oldest);
  }

  /** When every chunk is below the gate the eviction loop leaves fewer than `TimeLen` of them. */
  lemma {:induction false} AllBelowCount(b: seq<AudioSegment>)
    requires forall i :: 0 <= i < |b| ==> b[i].speechProbability < PredictGate
    ensures CountBelow(b) == |b|
  {
    if b != [] {
      AllBelowCount(b[1..]);
    }
  }

  lemma EvictSilence(b: seq<AudioSegment>)
    requires forall i :: 0 <= i < |b| ==> b[i].speechProbability < PredictGate
    ensures |Evict(b)| < TimeLen
  {
    var r := Evict(b);
    if |r| >= TimeLen {
      AllBelowCount(r[|r| - TimeLen..]);
      assert MustEvict(r);
    }
  }

  // ---------------------------------------------------------------- one step

  /**
   * The new chunk is at the front, and behind it the previously buffered
   * chunks keep their order, minus some of the oldest; or a drain emptied
   * the buffer.
   */
  lemma StepKeepsNewestFirst(w: WindowState, p: real, data: seq<Sample>)
    requires w.Valid()
    ensures var r := Step(w, p, data);
      r.buf == [] || (r.buf[0] == AudioSegment.New(data, p) && r.buf[1..] == w.buf[..|r.buf| - 1])
  {
    var pushed := Pushed(w, p, data);
    var kept := Evict(pushed);
    EvictKeepsNewest(pushed);
    assert kept[1..] == pushed[1..|kept|];
  }

  /** The buffer is emptied exactly when the step drains it. */
  lemma StepEmptiesIffDrains(w: WindowState, p: real, data: seq<Sample>)
    requires w.Valid()
    ensures Step(w, p, data).buf == [] <==> Drains(w, p, data)
  {
    EvictKeepsNewest(Pushed(w, p, data));
  }

  /**
   * A drain needs more than `TimeLen` chunks, an open writer and a pause among
   * the newest `TimeLen`; it writes every kept chunk, oldest first, into the
   * open file, empties the buffer and closes the writer.
   */
  lemma StepDrain(w: WindowState, p: real, data: seq<Sample>)
    requires w.Valid() && Drains(w, p, data)
    ensures var r := Step(w, p, data);
      var kept := Kept(w, p, data);
      var files := FilesAfterOpen(w, p, data);
      |kept| > TimeLen && OpenAfterOpen(w, p, data) &&
      AudioSegment.IsPause(Probabilities(kept[..TimeLen])) &&
      r.buf == [] && !r.writerOpen && |r.files| == |files| &&
      r.files[..|files| - 1] == files[..|files| - 1] &&
      r.files[|files| - 1] == Chronological(kept)
  {
  }

  /** With at most `TimeLen` chunks after eviction nothing is written and the buffer stays as eviction left it. */
  lemma StepShortBufferWritesNothing(w: WindowState, p: real, data: seq<Sample>)
    requires w.Valid() && |Kept(w, p, data)| <= TimeLen
    ensures Step(w, p, data) == WindowState(Kept(w, p, data), OpenAfterOpen(w, p, data), FilesAfterOpen(w, p, data))
  {
  }

  /** Without a drain nothing is written: the buffer is what eviction left and the files are those after step 2. */
  lemma StepNoDrainWritesNothing(w: WindowState, p: real, data: seq<Sample>)
    requires w.Valid() && !Drains(w, p, data)
    ensures Step(w, p, data) == WindowState(Kept(w, p, data), OpenAfterOpen(w, p, data), FilesAfterOpen(w, p, data))
  {
  }

  /** A pause with no writer open leaves the buffer as eviction left it and writes nothing. */
  lemma StepPauseWithoutWriter(w: WindowState, p: real, data: seq<Sample>)
    requires w.Valid() && PauseDetected(Kept(w, p, data)) && !OpenAfterOpen(w, p, data)
    ensures Step(w, p, data) == WindowState(Kept(w, p, data), false, w.files)
  {
  }

  /**
   * A file is added exactly when the buffer (with the new chunk) has more than
   * `TimeLenHalf` chunks, the chunk is above the gate and no writer is open;
   * an open writer is never replaced, and files already closed never change.
   */
  lemma StepFiles(w: WindowState, p: real, data: seq<Sample>)
    requires w.Valid()
    ensures var r := Step(w, p, data);
      (|r.files| == |w.files| + 1 <==> (|w.buf| + 1 > TimeLenHalf && p > PredictGate && !w.writerOpen)) &&
      (|r.files| == |w.files| || |r.files| == |w.files| + 1) &&
      (w.writerOpen ==> |r.files| == |w.files|) &&
      (forall i :: 0 <= i < |w.files| && (i < |w.files| - 1 || !w.writerOpen) ==> r.files[i] == w.files[i])
  {
    var files := FilesAfterOpen(w, p, data);
    assert forall i :: 0 <= i < |w.files| ==> files[i] == w.files[i];
  }

  /** A drained utterance holds at least `TimeLenHalf + 1` chunks that reach the gate. */
  lemma DrainedUtteranceHoldsSpeech(w: WindowState, p: real, data: seq<Sample>)
    requires w.Valid() && Drains(w, p, data)
    ensures CountSpeech(Kept(w, p, data)) > TimeLenHalf
  {
    KeptHoldsSpeech(Pushed(w, p, data));
  }

  /**
   * A chunk below the gate admitted to a buffer of chunks below the gate
   * opens no writer and writes nothing, and the buffer stays shorter than
   * `TimeLen` and below the gate.
   */
  lemma StepSilence(w: WindowState, p: real, data: seq<Sample>)
    requires w.Valid() && p < PredictGate
    requires forall i :: 0 <= i < |w.buf| ==> w.buf[i].speechProbability < PredictGate
    ensures var r := Step(w, p, data);
      r.writerOpen == w.writerOpen && r.files == w.files && |r.buf| < TimeLen &&
      forall i :: 0 <= i < |r.buf| ==> r.buf[i].speechProbability < PredictGate
  {
    var pushed := Pushed(w, p, data);
    assert forall i :: 0 <= i < |pushed| ==> pushed[i].speechProbability < PredictGate;
    EvictSilence(pushed);
    var kept := Evict(pushed);
    assert forall i :: 0 <= i < |kept| ==> kept[i] == pushed[i];
  }

  // ---------------------------------------------------------------- runs of chunks

  /** `chunks`, given oldest first, newest first instead. */
  function NewestFirst(chunks: seq<AudioSegment>): (r: seq<AudioSegment>)
    ensures |r| == |chunks|
  {
    if chunks == [] then [] else [chunks[|chunks| - 1]] + NewestFirst(chunks[..|chunks| - 1])
  }

  /** The samples of `chunks`, given oldest first, in arrival order. */
  function Flatten(chunks: seq<AudioSegment>): seq<Sample>
  {
    if chunks == [] then [] else Flatten(chunks[..|chunks| - 1]) + chunks[|chunks| - 1].audioData
  }

  /** Writing a newest-first buffer oldest first gives the samples in arrival order. */
  lemma {:induction false} ChronologicalNewestFirst(chunks: seq<AudioSegment>)
    ensures Chronological(NewestFirst(chunks)) == Flatten(chunks)
  {
    if chunks != [] {
      var nf := NewestFirst(chunks);
      assert nf[1..] == NewestFirst(chunks[..|chunks| - 1]);
      ChronologicalNewestFirst(chunks[..|chunks| - 1]);
    }
  }

  /** The newest `m` chunks, newest first, are the last `m` arrivals, newest first. */
  lemma {:induction false} NewestFirstPrefix(chunks: seq<AudioSegment>, m: nat)
    requires m <= |chunks|
    ensures NewestFirst(chunks)[..m] == NewestFirst(chunks[|chunks| - m..])
  {
    if m > 0 {
      var n := |chunks|;
      var init := chunks[..n - 1];
      NewestFirstPrefix(init, m - 1);
      assert chunks[n - m..][..m - 1] == init[|init| - (m - 1)..];
      assert chunks[n - m..][m - 1] == chunks[n - 1];
    } else {
      assert chunks[|chunks|..] == [];
    }
  }

  /**
   * After any sequence of chunks, the buffer holds the most recent ones in
   * newest-first order, with no gaps and no reordering.
   */
  lemma {:induction false} RunKeepsArrivalOrder(chunks: seq<AudioSegment>)
    ensures var r := Run(Initial, chunks);
      |r.buf| <= |chunks| && r.buf == NewestFirst(chunks)[..|r.buf|]
  {
    if chunks != [] {
      var n := |chunks|;
      RunKeepsArrivalOrder(chunks[..n - 1]);
      RunLast(chunks);
      StepExtendsArrivals(chunks, Run(Initial, chunks[..n - 1]));
    }
  }

  /** `Run` admits the last chunk after all the others. */
  lemma RunLast(chunks: seq<AudioSegment>)
    requires chunks != []
    ensures var last := chunks[|chunks| - 1];
      Run(Initial, chunks) == Step(Run(Initial, chunks[..|chunks| - 1]), last.speechProbability, last.audioData)
  {
  }

  /** If the buffer holds the newest earlier arrivals, after one more step it holds the newest arrivals. */
  lemma StepExtendsArrivals(chunks: seq<AudioSegment>, w: WindowState)
    requires chunks != [] && w.Valid()
    requires |w.buf| <= |chunks| - 1 && w.buf == NewestFirst(chunks[..|chunks| - 1])[..|w.buf|]
    ensures var last := chunks[|chunks| - 1];
      var b := Step(w, last.speechProbability, last.audioData).buf;
      |b| <= |chunks| && b == NewestFirst(chunks)[..|b|]
  {
    var last := chunks[|chunks| - 1];
    StepKeepsNewestFirst(w, last.speechProbability, last.audioData);
    var b := Step(w, last.speechProbability, last.audioData).buf;
    assert AudioSegment.New(last.audioData, last.speechProbability) == last;
    var nf := NewestFirst(chunks);
    assert nf == [last] + NewestFirst(chunks[..|chunks| - 1]);
    if b != [] {
      assert nf[..|b|] == [last] + nf[1..][..|b| - 1];
    }
  }

  /**
   * When a chunk triggers a drain, the file it completes holds the samples
   * of the last `m` chunks to arrive, in arrival order, where `m`, the
   * number of chunks the eviction loop kept, is above `TimeLen`.
   */
  lemma RunUtteranceIsRecentChunks(chunks: seq<AudioSegment>)
    requires chunks != []
    requires var last := chunks[|chunks| - 1];
      Drains(Run(Initial, chunks[..|chunks| - 1]), last.speechProbability, last.audioData)
    ensures var last := chunks[|chunks| - 1];
      var m := |Kept(Run(Initial, chunks[..|chunks| - 1]), last.speechProbability, last.audioData)|;
      var r := Run(Initial, chunks);
      TimeLen < m <= |chunks| && r.files != [] && r.files[|r.files| - 1] == Flatten(chunks[|chunks| - m..])
  {
    var n := |chunks|;
    RunKeepsArrivalOrder(chunks[..n - 1]);
    RunLast(chunks);
    DrainWritesArrivals(chunks, Run(Initial, chunks[..n - 1]));
  }

  /** One step's drain, when the buffer holds the newest earlier arrivals, writes the newest arrivals in arrival order. */
  lemma DrainWritesArrivals(chunks: seq<AudioSegment>, w: WindowState)
    requires chunks != [] && w.Valid()
    requires |w.buf| <= |chunks| - 1 && w.buf == NewestFirst(chunks[..|chunks| - 1])[..|w.buf|]
    requires var last := chunks[|chunks| - 1];
      Drains(w, last.speechProbability, last.audioData)
    ensures var last := chunks[|chunks| - 1];
      var m := |Kept(w, last.speechProbability, last.audioData)|;
      var r := Step(w, last.speechProbability, last.audioData);
      TimeLen < m <= |chunks| && r.files != [] && r.files[|r.files| - 1] == Flatten(chunks[|chunks| - m..])
  {
    var last := chunks[|chunks| - 1];
    UtteranceIsNewestPrefix(chunks, w);
    StepDrain(w, last.speechProbability, last.audioData);
    var kept := Kept(w, last.speechProbability, last.audioData);
    ChronologicalOfNewest(chunks, |kept|);
  }

  /** Writing the newest `m` arrivals oldest first gives the last `m` chunks' samples in arrival order. */
  lemma ChronologicalOfNewest(chunks: seq<AudioSegment>, m: nat)
    requires m <= |chunks|
    ensures Chronological(NewestFirst(chunks)[..m]) == Flatten(chunks[|chunks| - m..])
  {
    NewestFirstPrefix(chunks, m);
    ChronologicalNewestFirst(chunks[|chunks| - m..]);
  }

  /** The chunks a step keeps are the newest ones to have arrived, newest first. */
  lemma UtteranceIsNewestPrefix(chunks: seq<AudioSegment>, w: WindowState)
    requires chunks != [] && w.Valid()
    requires |w.buf| <= |chunks| - 1 && w.buf == NewestFirst(chunks[..|chunks| - 1])[..|w.buf|]
    ensures var last := chunks[|chunks| - 1];
      var kept := Kept(w, last.speechProbability, last.audioData);
      |kept| <= |chunks| && kept == NewestFirst(chunks)[..|kept|]
  {
    var last := chunks[|chunks| - 1];
    var pushed := Pushed(w, last.speechProbability, last.audioData);
    var kept := Evict(pushed);
    assert AudioSegment.New(last.audioData, last.speechProbability) == last;
    var nf := NewestFirst(chunks);
    assert nf == [last] + NewestFirst(chunks[..|chunks| - 1]);
    assert pushed == nf[..|pushed|];
    assert kept == pushed[..|kept|];
  }

  /**
   * A run of chunks below the gate, starting from a buffer below the gate,
   * never opens a writer and never writes: silence produces no utterance.
   */
  lemma {:induction false} SilenceNeverWrites(w: WindowState, chunks: seq<AudioSegment>)
    requires w.Valid()
    requires forall i :: 0 <= i < |w.buf| ==> w.buf[i].speechProbability < PredictGate
    requires forall i :: 0 <= i < |chunks| ==> chunks[i].speechProbability < PredictGate
    ensures var r := Run(w, chunks);
      r.files == w.files && r.writerOpen == w.writerOpen && (chunks != [] ==> |r.buf| < TimeLen) &&
      forall i :: 0 <= i < |r.buf| ==> r.buf[i].speechProbability < PredictGate
  {
    if chunks != [] {
      var last := chunks[|chunks| - 1];
      SilenceNeverWrites(w, chunks[..|chunks| - 1]);
      StepSilence(Run(w, chunks[..|chunks| - 1]), last.speechProbability, last.audioData);
    }
  }

  // ---------------------------------------------------------------- utterance contents

  /** Total number of samples held by `b`. */
  function SampleCount(b: seq<AudioSegment>): nat
  {
    if b == [] then 0 else |b[0].audioData| + SampleCount(b[1..])
  }

  /** A drained utterance carries every sample of every buffered chunk. */
  lemma {:induction false} ChronologicalLength(b: seq<AudioSegment>)
    ensures |Chronological(b)| == SampleCount(b)
  {
    if b != [] {
      ChronologicalLength(b[1..]);
    }
  }

  /** Writing newer chunks after older ones: the older part comes first. */
  lemma {:induction false} ChronologicalAppend(newer: seq<AudioSegment>, older: seq<AudioSegment>)
    ensures Chronological(newer + older) == Chronological(older) + Chronological(newer)
  {
    if newer == [] {
      assert newer + older == older;
    } else {
      assert (newer + older)[1..] == newer[1..] + older;
      ChronologicalAppend(newer[1..], older);
    }
  }
}
