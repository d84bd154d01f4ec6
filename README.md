# Pitch transcription loop of rust-sound-analysis, in Dafny

The program reads a mono recording and estimates one pitch per second of audio. It then
plays those pitches back through a SoundFont synthesizer. This project models the part that
has structure, in `src/main.rs`:

- **Windows** (`aggregator.dfy`, `chunks.dfy`). Samples are pushed into `current_chunk`. The
  chunk is flushed as an aggregate window when it reaches `AGGREGATE_SIZE` (44100) samples or
  at the last sample. `TranscribeStream` is that loop. It is proved to compute `Transcribe`,
  a fold over `Chunks(samples, AGGREGATE_SIZE)`.
- **Frames** (`chunks.dfy`). Each window is cut by `chunks(FFT_SIZE)` into frames of 1024
  samples, the last one possibly shorter. `Chunks` models `slice::chunks`.
- **The reused FFT buffer** (`spectral.dfy`). Each frame is copied into one buffer of 1024
  complex values, which the FFT then overwrites in place with the spectrum. A frame shorter
  than the buffer overwrites only its own length. The rest of the buffer still holds the
  previous frame's spectrum. The model threads this buffer through every frame and every
  window.
- **Dominant bin** (`spectral.dfy`). `enumerate().max_by(...)` picks the index of the largest
  magnitude. It is a left fold that keeps the running maximum only when it is strictly
  greater, so among equal maxima the last index wins.
- **Band filter and events** (`aggregator.dfy`). A frame's bin is kept when its frequency
  `k * 44100 / 1024` lies in [20, 20000] Hz. A window with at least one kept frequency
  appends one `(mean frequency, window length)` event.
- **Playback** (`scheduler.dfy`). An event whose MIDI note is above 127 is skipped. Every
  other event is played, in order, by a note-on, a render of its duration's samples, and a
  note-off on channel 0 at velocity 100.

The FFT, the complex norm and `frequency_to_midi` are foreign or floating-point code. They are
parameters of the model: `Analyzer.bin` gives FFT bin `k` of a buffer, `Analyzer.norm` gives
a magnitude, and `toMidi` maps a frequency to a note. Every property below holds for all
choices of them. The silence results also assume `SilenceIsFixed`: the transform maps the
zero buffer to the zero spectrum, as every discrete Fourier transform does.

A natural reading of the loop would zero-pad short frames, break ties towards the lowest
bin and round the sample count. The code does none of these, and the model follows the code:

- A short frame is not zero-padded. The code does not clear the buffer, so a short frame is
  analysed over the stale tail of the previous spectrum (`CopyFrame`, `Overlay`). Every full
  window ends with such a frame: 44100 = 43 * 1024 + 68 (`FullWindowFrames`).
- Ties between equal magnitudes do not go to the lowest index. `max_by` returns the last
  maximal element (`DominantBin`).
- A silent frame does not pick bin 0 (0 Hz). With last-wins ties it picks bin 1023 (about
  44 kHz). That bin is above the ceiling, so the frame is still dropped
  (`FlatSpectrumIsDropped`), and a silent recording yields no events
  (`SilenceGivesNoEvents`).
- The rendered sample count is not rounded. The code truncates a float (`as usize`). In
  exact arithmetic both give the window length (`NumSamples`).

## Model

| member | source | states |
|---|---|---|
| `Chunking.ChunksFlatten` | src/main.rs:28-33 | concatenating the windows, or the frames of a window, in order gives back exactly the input |
| `Chunking.ChunksShape` | src/main.rs:28-33 | every chunk but the last has exactly n elements and the last has 1..n; there are ceil(len / n) chunks, and none exactly when the input is empty |
| `Chunking.ChunksAppend` | src/main.rs:29-30 | after a whole number of windows, flushing up to n more samples adds exactly them as the last window |
| `Chunking.ChunksElements` | src/main.rs:29-33 | every sample of every window or frame is a sample of the input it was cut from |
| `Aggregation.FlushedWindows` | src/main.rs:28-30 | a flush after a whole number of windows makes the flushed windows the AGGREGATE_SIZE chunks of the samples read so far |
| `Aggregation.PushSample` | src/main.rs:28-53 | each iteration pushes one sample and keeps the pending chunk below AGGREGATE_SIZE; it flushes exactly when the chunk is full or the sample was the last one |
| `Spectral.CopyFrame` | src/main.rs:34-36 | slot j of the buffer receives the j-th frame sample for every j below the frame length; every later slot is unchanged (no zero padding) |
| `Spectral.Process` | src/main.rs:37 | the buffer is replaced in place by its spectrum |
| `Spectral.DominantBin` | src/main.rs:39-40 | the chosen index is in range, its magnitude is at least every other, and every later index has a strictly smaller magnitude (ties go to the last) |
| `Spectral.DominantBinIsLastMaximum` | src/main.rs:40 | an index is the chosen one exactly when it is the last position of the maximum magnitude |
| `Spectral.MaxBy` | src/main.rs:40 | the reduction loop of `max_by` returns the dominant bin |
| `Spectral.FlatSpectrumIsDropped` | src/main.rs:39-43 | a frame whose magnitudes are all equal selects the last bin, which fails the band test |
| `Spectral.SilentFrame` | src/main.rs:34-43 | for a transform that maps zeros to zeros, a silent frame over the zero buffer leaves the buffer zero and its dominant bin fails the band test |
| `Spectral.InBandBins` | src/main.rs:41-43 | a bin passes the band test exactly when it is between 1 and 464 |
| `Aggregation.AnalyzeFrames` | src/main.rs:33-46 | the frame loop yields one dominant bin per frame, each below FFT_SIZE, and keeps the buffer FFT_SIZE long |
| `Aggregation.RetainedFacts` | src/main.rs:43-45 | no frequency is kept exactly when no frame's bin is in the band; kept frequencies lie in [20, 20000] Hz; at most one is kept per frame |
| `Aggregation.MeanBounds` | src/main.rs:49 | the mean of the kept frequencies lies between their bounds |
| `Aggregation.WindowEventFacts` | src/main.rs:48-51 | a window adds at most one event, and one exactly when some frame's bin is in the band; the event has the window's length and an in-band frequency |
| `Aggregation.WindowEventPlausible` | src/main.rs:48-51 | the event of a window of 1..AGGREGATE_SIZE samples is plausible and covers no more samples than the window |
| `Aggregation.WindowStepFacts` | src/main.rs:31-51 | one flush of a window of 1..AGGREGATE_SIZE samples keeps every event plausible, adds at most one event and at most the window's samples to those covered |
| `Aggregation.TranscribeWindowsFacts` | src/main.rs:28-55 | over windows of 1..AGGREGATE_SIZE samples there is at most one event per window, every event is plausible, and the events together cover no more samples than the windows |
| `Aggregation.TranscribeFacts` | src/main.rs:28-55 | an empty recording gives no events; there are at most ceil(n / AGGREGATE_SIZE) events, all plausible, covering no more samples than the recording |
| `Aggregation.WindowEventCoverage` | src/main.rs:48-51 | a window of at least one sample has its samples covered by its event exactly when it adds one, and none covered when it adds none |
| `Aggregation.WindowStepCoverage` | src/main.rs:31-51 | a flush keeps "the events cover every earlier window exactly when none was dropped" true, now including its own window |
| `Aggregation.TranscribeWindowsCoverage` | src/main.rs:28-55 | over windows of 1..AGGREGATE_SIZE samples, the events cover all the windows' samples exactly when every window yields an event |
| `Aggregation.TranscribeCoverage` | src/main.rs:28-55 | the events cover exactly the recording's length when no window is dropped, and strictly less exactly when one is |
| `Aggregation.SilentFrames` | src/main.rs:33-45 | silent frames over the zero buffer keep it zero across frames, and none of their bins is in band |
| `Aggregation.SilentWindows` | src/main.rs:26-55 | silent windows keep the reused buffer zero from window to window and add no event |
| `Aggregation.SilenceGivesNoEvents` | src/main.rs:22-55 | an all-zero recording of any length yields no pitch events |
| `Aggregation.FullFirstFrameForgetsBuffer` | src/main.rs:33-37 | once a full frame has been copied, the analysis no longer depends on the earlier buffer content |
| `Aggregation.WindowForgetsBuffer` | src/main.rs:26-37 | the bins of a window of at least FFT_SIZE samples do not depend on the buffer left by the previous window |
| `Aggregation.FullWindowFrames` | src/main.rs:8-9 | a full window is 44 frames, and the last of them has 68 samples |
| `Aggregation.AnalyzeFrame` | src/main.rs:34-40 | one frame leaves the spectrum of the frame copied over the buffer in the buffer, and picks the dominant bin of its magnitudes |
| `Aggregation.AnalyzeWindow` | src/main.rs:32-46 | the frame loop leaves the buffer and bins of the frame-by-frame analysis and keeps exactly the in-band frequencies, in frame order |
| `Aggregation.FlushWindow` | src/main.rs:31-51 | one flush analyses the window over the current buffer and appends the window's event, if any |
| `Aggregation.PushAndFlush` | src/main.rs:28-53 | one iteration of the outer loop keeps the pending chunk and the flushed windows in step with the samples read, and the buffer and events equal to the analysis of the flushed windows |
| `Aggregation.TranscribeStream` | src/main.rs:22-55 | the streaming loop returns exactly the events of `Transcribe`: the AGGREGATE_SIZE windows of the input analysed in order from a zeroed buffer |
| `Scheduling.NumSamples` | src/main.rs:66 | the rendered sample count is the event's duration times the sample rate |
| `Scheduling.Playable` | src/main.rs:65-73 | playback plays at most one note per event, and every note played is at most 127 |
| `Scheduling.PlayableAt` | src/main.rs:65-73 | the notes played are exactly the in-range events, in their original order, each with its own note and sample count |
| `Scheduling.CallsAt` | src/main.rs:76-85 | each note is played by exactly note-on (channel 0, velocity 100), a render of its sample count, and note-off, in that order, with nothing in between |
| `Scheduling.WrittenSamplesOfCalls` | src/main.rs:78-83 | the output holds exactly the samples rendered for the notes played |
| `Scheduling.PlayableLength` | src/main.rs:65-73 | skipping events never adds samples: the notes are no longer than the events |
| `Scheduling.PlayableCoverage` | src/main.rs:65-73 | when every event covers at least one sample, the notes cover all the events' samples exactly when no event is skipped |
| `Scheduling.Play` | src/main.rs:65-86 | the playback loop makes exactly the calls that play the in-range events in order, and writes as many samples as they render |
| `Scheduling.OutputNoLongerThanInput` | src/main.rs:65-86 | the synthesized output never holds more samples than the input recording |
| `Scheduling.OutputCoverage` | src/main.rs:22-86 | the output holds exactly as many samples as the recording when every window yields a played note, and strictly fewer exactly when a window is dropped or a note skipped |

## Left out

- WAV input and output through `hound` (src/main.rs:16-20, 63, 81-83): the i16 to float scaling, the `?` error returns and the sample values written. The model starts from the decoded samples as reals and counts the samples written.
- The forward FFT and `Complex::norm` (src/main.rs:24-25, 37, 39): foreign numeric code. They are the uninterpreted parameters `Analyzer.bin` and `Analyzer.norm`.
- The f32 sum and division for the mean frequency and the duration (src/main.rs:49-50): computed in exact reals. `BinFrequency` is exact as written: k * 44100 is a multiple of 4 below 2^26 for every bin, so f32 represents it exactly, and dividing by 1024 is exact.
- `frequency_to_midi` (src/main.rs:91-94): f32 `log2` and `round`. It is the parameter `toMidi` that feeds the range test.
- NumSamples: does not model the f32 product and its truncation by `as usize` (src/main.rs:66), which can lose a sample. In exact arithmetic the count is the window length.
- The synthesizer (src/main.rs:58-60, 76, 79, 85): settings, SoundFont loading, the rendered audio and the `expect` panics. The model records the calls made on it.
- The panic of `partial_cmp(...).unwrap()` on a NaN magnitude (src/main.rs:40): magnitudes are reals in the model, so they are always ordered.
- The `println!` diagnostics (src/main.rs:71, 75).
