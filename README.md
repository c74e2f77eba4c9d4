# Streaming utterance segmentation: a Dafny model

SubtitleAI listens to a microphone and cuts the sample stream into utterances,
one WAV file each. The capture callback does the cutting. Every captured chunk
comes with a speech probability from the voice-activity detector. The callback
keeps a double-ended buffer of `(probability, samples)` chunks, newest at the
front, plus an optional WAV writer. For each chunk it:

1. pushes the chunk at the front;
2. opens a writer when more than 8 chunks are buffered, the chunk's probability
   is above the 0.75 gate and no writer is open;
3. pops the oldest chunk while at least 16 are buffered and at least 8 of the
   oldest 16 are below the gate;
4. when more than 16 are buffered, the newest 16 probabilities form a pause and
   a writer is open, writes the whole buffer, oldest chunk first, into the
   writer and closes it.

The pause test skips the first 3 probabilities and averages the rest. It holds
when each of the first 3 is at most 0.75 times that average.

The project has three modules:

- `Processing` (`audio_segment.dfy`) models `src/audio/processing/audio_segment.rs`.
  It holds the `AudioSegment` record, its constructor `New` and the pause test
  `IsPause`. The test depends on the tail only through its sum and length. Lemmas
  show that the tail's order does not matter, that scaling leaves the verdict
  unchanged, that steady speech is rejected and that all-zero input is accepted.
- `Microphone` (`microphone.dfy`) models the callback of `start_recording` and
  `avg_compare` in `src/audio/hardware/input/microphone.rs`.
  - The class `SegmentWindow` holds the callback's captured state: `buf` is
    `data_buf` and `writerOpen` is `wav_writer.is_some()`. `files` records the
    samples of every WAV file a writer was opened for, in opening order; an open
    writer is the last of them.
  - `Admit` is the callback body. It is imperative, with the eviction loop in
    `EvictStale` and the drain loop in `DrainIntoWriter`.
  - `Admit` is proved to compute the pure function `Step`, whose eviction part
    is `Evict`.
- `WindowProperties` (`window_properties.dfy`) holds the lemmas about `Step`
  and about `Run`, which applies `Step` to a sequence of chunks. They cover
  buffer order, eviction, when writers open, when and what a drain writes, and
  silence.

Probabilities and samples are `real`: the model computes exactly where the
source rounds to `f32`, and rounding is not modelled. One `f32` effect is written out explicitly. With exactly
3 probabilities the average is `0.0 / 0.0`, a NaN. Every comparison with a NaN
is false, so `is_pause` returns false. With fewer than 3 probabilities the slice
`[0..3]` panics, so `IsPause` requires at least 3 entries.

The model follows the code as written:

- The buffer is drained only when a writer is open (`microphone.rs:87`). A pause
  with no open writer leaves the buffer as eviction left it.
- Utterances go into a file opened earlier, not into a return value.
- The thresholds are the code's fixed constants 16, 8, 0.75 and 3. They are not
  configuration parameters.

## Model

| member | source | states |
|---|---|---|
| `Processing.AudioSegment.New` | src/audio/processing/audio_segment.rs:7-12 | the record keeps `audio_data` and `speech_probability` exactly as given |
| `Processing.AudioSegment.IsPause` | src/audio/processing/audio_segment.rs:13-19 | needs at least 3 probabilities (the slice panics below that). True iff there are more than 3 and each of the first 3, times the tail length, is at most 0.75 times the tail sum. This is the division-free form of "at most 0.75 times the tail average". With exactly 3 the result is false (NaN average) |
| `Processing.SumPermutation` | src/audio/processing/audio_segment.rs:16 | the tail sum does not depend on the order of its terms |
| `Processing.IsPauseTailOrderIrrelevant` | src/audio/processing/audio_segment.rs:16-18 | reordering the probabilities after the first 3 never changes the pause verdict |
| `Processing.IsPauseScaleInvariant` | src/audio/processing/audio_segment.rs:17-18 | multiplying every probability by the same positive factor never changes the verdict, so the test is relative |
| `Processing.SteadyIsNotPause` | src/audio/processing/audio_segment.rs:14-18 | a run of equal, positive probabilities is never a pause |
| `Processing.SilenceIsPause` | src/audio/processing/audio_segment.rs:14-18 | more than 3 zero probabilities are a pause (0 <= 0.75 * 0) |
| `Microphone.AvgCompare` | src/audio/hardware/input/microphone.rs:116-122 | gives the same verdict as `is_pause` on every input. On 16 entries it is true iff each of the first 3 is at most 0.75 times (sum of the last 13) / 13 |
| `Microphone.Evict` | src/audio/hardware/input/microphone.rs:82-84 | the eviction loop's outcome. It is a prefix of the buffer, so only oldest chunks are removed and order is kept. The loop condition fails on it. The condition held on every longer prefix, so the loop pops only while it must. At least 15 chunks remain when at least 15 were there |
| `Microphone.Step` | src/audio/hardware/input/microphone.rs:73-93 | one callback run keeps the writer invariant: an open writer is the last file opened, and nothing has been written to it yet |
| `Microphone.Run` | src/audio/hardware/input/microphone.rs:69-94 | any sequence of callback runs keeps the writer invariant |
| `Microphone.SegmentWindow.constructor` | src/audio/hardware/input/microphone.rs:62-66 | starts with an empty buffer, no writer and no files |
| `Microphone.SegmentWindow.Admit` | src/audio/hardware/input/microphone.rs:69-94 | the in-place callback body computes exactly `Step` on the old state and keeps the writer invariant |
| `Microphone.SegmentWindow.EvictStale` | src/audio/hardware/input/microphone.rs:82-84 | the `while`/`pop_back` loop leaves exactly `Evict` of the buffer and touches nothing else |
| `Microphone.SegmentWindow.DrainIntoWriter` | src/audio/hardware/input/microphone.rs:88-91 | the drain loop empties the buffer. It appends every chunk's samples to the open file, oldest first. Earlier files are unchanged |
| `WindowProperties.EvictKeepsNewest` | src/audio/hardware/input/microphone.rs:82-84 | eviction never removes the newest chunk |
| `WindowProperties.EvictOnePass` | src/audio/hardware/input/microphone.rs:82-83 | while the loop condition holds, at least 16 chunks are buffered and eviction strictly shortens the buffer. Its result is what eviction leaves once the oldest chunk is removed |
| `WindowProperties.KeptHoldsSpeech` | src/audio/hardware/input/microphone.rs:82 | a buffer the loop leaves at 16 or more chunks has more than 8 chunks at or above the gate |
| `WindowProperties.EvictSilence` | src/audio/hardware/input/microphone.rs:82-84 | if every chunk is below the gate, eviction leaves fewer than 16 |
| `WindowProperties.StepKeepsNewestFirst` | src/audio/hardware/input/microphone.rs:73-93 | after a step, either a drain emptied the buffer, or the new chunk is at index 0 followed by the previous chunks in their order, minus some of the oldest |
| `WindowProperties.StepEmptiesIffDrains` | src/audio/hardware/input/microphone.rs:86-93 | the buffer ends empty exactly when a drain happens: more than 16 kept chunks, a pause among the newest 16, and an open writer |
| `WindowProperties.StepDrain` | src/audio/hardware/input/microphone.rs:86-93 | a drain requires more than 16 chunks, an open writer and `is_pause` on the newest 16. Afterwards the open file holds every kept chunk's samples, oldest first, the buffer is empty and the writer is closed. Other files are unchanged |
| `WindowProperties.StepNoDrainWritesNothing` | src/audio/hardware/input/microphone.rs:86-93 | when any drain guard fails, nothing is written. The buffer is what eviction left, and the writer flag and files are as step 2 left them |
| `WindowProperties.StepShortBufferWritesNothing` | src/audio/hardware/input/microphone.rs:86 | with at most 16 chunks after eviction nothing is written and the buffer stays as eviction left it |
| `WindowProperties.StepPauseWithoutWriter` | src/audio/hardware/input/microphone.rs:87 | a pause with no writer open leaves the buffer as eviction left it and writes nothing |
| `WindowProperties.StepFiles` | src/audio/hardware/input/microphone.rs:75-80 | a file is added iff the pushed buffer has more than 8 chunks, the chunk is above 0.75 and no writer is open. At most one file is added. An open writer is never replaced, and closed files never change |
| `WindowProperties.DrainedUtteranceHoldsSpeech` | src/audio/hardware/input/microphone.rs:82-93 | every drained utterance contains more than 8 chunks at or above the gate |
| `WindowProperties.StepSilence` | src/audio/hardware/input/microphone.rs:73-93 | a chunk below the gate, added to a buffer below the gate, opens no writer and writes nothing. The buffer stays shorter than 16 |
| `WindowProperties.RunKeepsArrivalOrder` | src/audio/hardware/input/microphone.rs:73-89 | after any sequence of chunks, the buffer holds the most recent ones, newest first, with no gap or reordering |
| `WindowProperties.StepExtendsArrivals` | src/audio/hardware/input/microphone.rs:73-93 | if the buffer holds the newest earlier arrivals, newest first, then after one more step it holds the newest arrivals, newest first |
| `WindowProperties.UtteranceIsNewestPrefix` | src/audio/hardware/input/microphone.rs:73-84 | the chunks a step keeps are the newest arrivals, newest first |
| `WindowProperties.RunUtteranceIsRecentChunks` | src/audio/hardware/input/microphone.rs:86-91 | the file a drain completes holds the samples of the last m arrivals in arrival order, for some m > 16 |
| `WindowProperties.DrainWritesArrivals` | src/audio/hardware/input/microphone.rs:86-91 | if the buffer holds the newest earlier arrivals and the step drains, the file it completes holds the last m > 16 arrivals' samples in arrival order |
| `WindowProperties.SilenceNeverWrites` | src/audio/hardware/input/microphone.rs:73-93 | a run of chunks below the gate, from a buffer below the gate, never opens a writer and never writes a file. After at least one such chunk the buffer holds fewer than 16 chunks, all below the gate |
| `WindowProperties.ChronologicalNewestFirst` | src/audio/hardware/input/microphone.rs:88-90 | writing a newest-first buffer oldest first gives the samples in arrival order |
| `WindowProperties.ChronologicalLength` | src/audio/hardware/input/microphone.rs:88-90 | a drained utterance has as many samples as all the buffered chunks together |
| `WindowProperties.ChronologicalAppend` | src/audio/hardware/input/microphone.rs:88-90 | in a drain, the older part of the buffer is written before the newer part |

## Left out

- Device enumeration, device name, sample rate and format lookup, and building and playing the stream (`microphone.rs:27-44, 54-67, 97-112`, `audio_input_device_manager.rs`). These are cpal hardware I/O and panics.
- The voice-activity detector (`microphone.rs:58-59, 71`) is a foreign, stateful library. Its output is the parameter `p` of `Admit`.
- WAV writing (`wav_writer.rs`). Files are modelled as sample sequences and opening a writer adds an empty one.
  - File creation, deletion of a stale file of the same name, headers, sample conversion and flushing are not modelled.
  - The `try_lock` in `write_audio_data_to_wav` always succeeds here, because the callback is the writer's only user.
  - Per-sample write errors, which the source ignores with `.ok()`, are not modelled.
- The timestamped file name (`microphone.rs:76-77`) depends on the wall clock.
- Logging, the `todo!()` at `microphone.rs:95`, and the signature mismatches around `get_wav_spec` and `start_recording`. The model is the callback body through line 94.
- `f32` rounding. Probabilities, averages and samples are exact reals.
- The band-pass filter (`bandpass_filter.rs`): floating-point DSP in an external crate.
- The capture callback runs on cpal's callback thread; the model is one sequential owner.
- The window (16), half window (8), gate (0.75) and lead count (3) are the code's fixed constants; the model does not make them parameters.
- `is_pause` borrows its input immutably. Dafny sequences are values, so this holds by construction and has no lemma.
