/** The windowing and reduction loop of the transcriber (src/main.rs:22-55): samples are
    streamed into a growing window that is flushed every AGGREGATE_SIZE samples and at the
    last sample; each flushed window is cut into FFT frames, each frame yields a dominant
    bin, and a window whose frames yield at least one in-band frequency adds one pitch event. */
module Aggregation {
  import opened Config
  import opened Chunking
  import opened Spectral

  /** One entry of `pitch_timing_info`: the mean in-band frequency of a window, and the
      number of samples in that window. */
  datatype PitchEvent = PitchEvent(frequency: real, length: nat)

  /** The event's duration in seconds, as the source derives it from the window length. */
  function Duration(e: PitchEvent): real
  {
    e.length as real / SAMPLE_RATE as real
  }

  /** The frequencies a window pushes to `frequencies`, given the dominant bins of its
      frames in order: those of the in-band bins, in the same order. */
  function Retained(bins: seq<nat>): seq<real>
    decreases |bins|
  {
    if bins == [] then []
    else
      var last := bins[|bins| - 1];
      Retained(bins[..|bins| - 1]) + (if InBand(last) then [BinFrequency(last)] else [])
  }

  /** Nothing is retained exactly when no frame's dominant bin is in the band; whatever is
      retained lies in [20, 20000] Hz and there is at most one frequency per frame. */
  lemma {:induction false} RetainedFacts(bins: seq<nat>)
    ensures Retained(bins) == [] <==> forall i :: 0 <= i < |bins| ==> !InBand(bins[i])
    ensures forall i :: 0 <= i < |Retained(bins)| ==> 20.0 <= Retained(bins)[i] <= 20000.0
    ensures |Retained(bins)| <= |bins|
    decreases |bins|
  {
    if bins != [] {
      var init := bins[..|bins| - 1];
      RetainedFacts(init);
      assert forall i :: 0 <= i < |init| ==> bins[i] == init[i];
    }
  }

  function Sum(xs: seq<real>): real
  {
    if xs == [] then 0.0 else xs[0] + Sum(xs[1..])
  }

  /** The arithmetic mean that `sum() / len()` computes. */
  function Mean(xs: seq<real>): real
    requires xs != []
  {
    Sum(xs) / |xs| as real
  }

  lemma {:induction false} SumBounds(xs: seq<real>, lo: real, hi: real)
    requires forall i :: 0 <= i < |xs| ==> lo <= xs[i] <= hi
    ensures |xs| as real * lo <= Sum(xs) <= |xs| as real * hi
  {
    if xs != [] {
      SumBounds(xs[1..], lo, hi);
    }
  }

  /** A mean lies between the least and the greatest value averaged. */
  lemma MeanBounds(xs: seq<real>, lo: real, hi: real)
    requires xs != []
    requires forall i :: 0 <= i < |xs| ==> lo <= xs[i] <= hi
    ensures lo <= Mean(xs) <= hi
  {
    SumBounds(xs, lo, hi);
    var n := |xs| as real;
    assert n * lo <= Sum(xs) <= n * hi;
    assert Mean(xs) * n == Sum(xs);
  }

  /** An event as every window can produce it: between one sample and a full window long,
      with a frequency inside the band. */
  predicate PlausibleEvent(e: PitchEvent)
  {
    1 <= e.length <= AGGREGATE_SIZE && 20.0 <= e.frequency <= 20000.0
  }

  /** The events a window adds, given its frames' dominant bins and its sample count. */
  function WindowEvent(bins: seq<nat>, length: nat): seq<PitchEvent>
  {
    var frequencies := Retained(bins);
    if frequencies == [] then [] else [PitchEvent(Mean(frequencies), length)]
  }

  /** A window adds at most one event, and one exactly when some frame's dominant bin is in
      the band; that event carries the window's own length and a frequency inside the band. */
  lemma WindowEventFacts(bins: seq<nat>, length: nat)
    ensures |WindowEvent(bins, length)| <= 1
    ensures |WindowEvent(bins, length)| == 1 <==> exists i :: 0 <= i < |bins| && InBand(bins[i])
    ensures forall e :: e in WindowEvent(bins, length) ==>
      e.length == length && 20.0 <= e.frequency <= 20000.0
  {
    RetainedFacts(bins);
    if Retained(bins) != [] {
      MeanBounds(Retained(bins), 20.0, 20000.0);
    }
  }

  /** The state the frame loop threads through: the reused buffer, and the dominant bin of
      every frame analysed so far. */
  datatype FrameState = FrameState(buffer: seq<Complex>, bins: seq<nat>)

  /** The frame loop, frame by frame: copy the frame over the buffer, transform the buffer in
      place, and take the dominant bin of its magnitudes. */
  function AnalyzeFrames(an: Analyzer, buf: seq<Complex>, frames: seq<seq<real>>): (r: FrameState)
    requires |buf| == FFT_SIZE
    requires forall i :: 0 <= i < |frames| ==> |frames[i]| <= FFT_SIZE
    ensures |r.buffer| == FFT_SIZE && |r.bins| == |frames|
    ensures forall i :: 0 <= i < |r.bins| ==> r.bins[i] < FFT_SIZE
    decreases |frames|
  {
    if frames == [] then FrameState(buf, [])
    else
      var prev := AnalyzeFrames(an, buf, frames[..|frames| - 1]);
      var spectrum := Spectrum(an, Overlay(prev.buffer, frames[|frames| - 1]));
      FrameState(spectrum, prev.bins + [DominantBin(Magnitudes(an, spectrum))])
  }

  /** The analysis of one flushed window: its `chunks(FFT_SIZE)` frames, starting from the
      buffer the previous window left behind. */
  function WindowFrames(an: Analyzer, buf: seq<Complex>, window: seq<real>): FrameState
    requires |buf| == FFT_SIZE
  {
    ChunksSizes(window, FFT_SIZE);
    AnalyzeFrames(an, buf, Chunks(window, FFT_SIZE))
  }

  /** The state the outer loop threads through: the reused buffer and `pitch_timing_info`. */
  datatype StreamState = StreamState(buffer: seq<Complex>, events: seq<PitchEvent>)

  /** What one flush does: analyse the window's frames over the current buffer, and append
      the window's event, if any. */
  function WindowStep(an: Analyzer, s: StreamState, window: seq<real>): (r: StreamState)
    requires |s.buffer| == FFT_SIZE
    ensures |r.buffer| == FFT_SIZE
  {
    var frames := WindowFrames(an, s.buffer, window);
    StreamState(frames.buffer, s.events + WindowEvent(frames.bins, |window|))
  }

  /** The outer loop, flushed window by flushed window. */
  function TranscribeWindows(an: Analyzer, buf: seq<Complex>, windows: seq<seq<real>>): (r: StreamState)
    requires |buf| == FFT_SIZE
    ensures |r.buffer| == FFT_SIZE
    decreases |windows|
  {
    if windows == [] then StreamState(buf, [])
    else WindowStep(an, TranscribeWindows(an, buf, windows[..|windows| - 1]), windows[|windows| - 1])
  }

  /** The pitch events of a whole recording: its AGGREGATE_SIZE windows analysed in order,
      starting from a zeroed buffer. */
  function Transcribe(an: Analyzer, samples: seq<real>): seq<PitchEvent>
  {
    TranscribeWindows(an, ZeroBuffer(), Chunks(samples, AGGREGATE_SIZE)).events
  }

  /** Total number of samples covered by a sequence of events. */
  function EventsLength(events: seq<PitchEvent>): nat
  {
    if events == [] then 0 else events[0].length + EventsLength(events[1..])
  }

  lemma {:induction false} EventsLengthAppend(a: seq<PitchEvent>, b: seq<PitchEvent>)
    ensures EventsLength(a + b) == EventsLength(a) + EventsLength(b)
    decreases |a|
  {
    if a == [] {
      assert a + b == b;
    } else {
      assert (a + b)[1..] == a[1..] + b;
      EventsLengthAppend(a[1..], b);
    }
  }

  lemma {:induction false} TotalLengthSnoc(ws: seq<seq<real>>)
    requires ws != []
    ensures TotalLength(ws) == TotalLength(ws[..|ws| - 1]) + |ws[|ws| - 1]|
    decreases |ws|
  {
    if |ws| > 1 {
      assert ws[1..][..|ws[1..]| - 1] == ws[..|ws| - 1][1..];
      TotalLengthSnoc(ws[1..]);
    }
  }

  /** The event of a window of 1..AGGREGATE_SIZE samples is plausible and no longer than it. */
  lemma WindowEventPlausible(bins: seq<nat>, length: nat)
    requires 1 <= length <= AGGREGATE_SIZE
    ensures |WindowEvent(bins, length)| <= 1
    ensures EventsLength(WindowEvent(bins, length)) <= length
    ensures forall e :: e in WindowEvent(bins, length) ==> PlausibleEvent(e)
  {
    var added := WindowEvent(bins, length);
    WindowEventFacts(bins, length);
    if added != [] {
      assert added[1..] == [];
    }
  }

  /** Appending a window to the flushed ones is one more step. */
  lemma TranscribeWindowsAppend(an: Analyzer, buf: seq<Complex>, windows: seq<seq<real>>, window: seq<real>)
    requires |buf| == FFT_SIZE
    ensures TranscribeWindows(an, buf, windows + [window])
      == WindowStep(an, TranscribeWindows(an, buf, windows), window)
  {
    assert (windows + [window])[..|windows|] == windows;
  }

  /** One flush of a window of 1..AGGREGATE_SIZE samples keeps the events plausible, adds at
      most one of them, and adds no more covered samples than the window holds. */
  lemma WindowStepFacts(an: Analyzer, s: StreamState, window: seq<real>, count: nat, covered: nat)
    requires |s.buffer| == FFT_SIZE && 1 <= |window| <= AGGREGATE_SIZE
    requires |s.events| <= count && EventsLength(s.events) <= covered
    requires forall e :: e in s.events ==> PlausibleEvent(e)
    ensures |WindowStep(an, s, window).events| <= count + 1
    ensures EventsLength(WindowStep(an, s, window).events) <= covered + |window|
    ensures forall e :: e in WindowStep(an, s, window).events ==> PlausibleEvent(e)
  {
    var added := WindowEvent(WindowFrames(an, s.buffer, window).bins, |window|);
    WindowEventPlausible(WindowFrames(an, s.buffer, window).bins, |window|);
    EventsLengthAppend(s.events, added);
  }

  /** Over any sequence of windows of 1..AGGREGATE_SIZE samples: at most one event per window,
      every event as long as one window and inside the band, and the events together no longer
      than the windows together. */
  lemma {:induction false} TranscribeWindowsFacts(an: Analyzer, buf: seq<Complex>, windows: seq<seq<real>>)
    requires |buf| == FFT_SIZE
    requires forall i :: 0 <= i < |windows| ==> 1 <= |windows[i]| <= AGGREGATE_SIZE
    ensures |TranscribeWindows(an, buf, windows).events| <= |windows|
    ensures forall e :: e in TranscribeWindows(an, buf, windows).events ==> PlausibleEvent(e)
    ensures EventsLength(TranscribeWindows(an, buf, windows).events) <= TotalLength(windows)
    decreases |windows|
  {
    if windows != [] {
      var init := windows[..|windows| - 1];
      var window := windows[|windows| - 1];
      assert forall i :: 0 <= i < |init| ==> init[i] == windows[i];
      TranscribeWindowsFacts(an, buf, init);
      WindowStepFacts(an, TranscribeWindows(an, buf, init), window, |init|, TotalLength(init));
      TotalLengthSnoc(windows);
    }
  }

  /** What the whole loop promises: no events for an empty recording; at most one event per
      window, so at most ceil(n / AGGREGATE_SIZE); each event between 1 and AGGREGATE_SIZE
      samples long and inside the band; and the events' durations together no longer than
      the recording. */
  lemma TranscribeFacts(an: Analyzer, samples: seq<real>)
    ensures samples == [] ==> Transcribe(an, samples) == []
    ensures |Transcribe(an, samples)| <= (|samples| + AGGREGATE_SIZE - 1) / AGGREGATE_SIZE
    ensures forall e :: e in Transcribe(an, samples) ==> PlausibleEvent(e)
    ensures EventsLength(Transcribe(an, samples)) <= |samples|
  {
    var windows := Chunks(samples, AGGREGATE_SIZE);
    ChunksShape(samples, AGGREGATE_SIZE);
    TranscribeWindowsFacts(an, ZeroBuffer(), windows);
    ChunksFlatten(samples, AGGREGATE_SIZE);
    FlattenLength(windows);
  }

  /** A window that adds its event covers exactly its own samples. */
  lemma WindowEventCoverage(bins: seq<nat>, length: nat)
    requires 1 <= length
    ensures EventsLength(WindowEvent(bins, length)) == length <==> |WindowEvent(bins, length)| == 1
    ensures |WindowEvent(bins, length)| == 0 ==> EventsLength(WindowEvent(bins, length)) == 0
  {
    var added := WindowEvent(bins, length);
    WindowEventFacts(bins, length);
    if added != [] {
      assert added[0] in added && added[1..] == [];
    }
  }

  /** A flush extends full coverage exactly when its window yields an event: if the events
      so far cover the earlier windows exactly when none was dropped, the same holds after it. */
  lemma WindowStepCoverage(an: Analyzer, s: StreamState, window: seq<real>, count: nat, covered: nat)
    requires |s.buffer| == FFT_SIZE && 1 <= |window| <= AGGREGATE_SIZE
    requires |s.events| <= count && EventsLength(s.events) <= covered
    requires EventsLength(s.events) == covered <==> |s.events| == count
    ensures EventsLength(WindowStep(an, s, window).events) == covered + |window|
      <==> |WindowStep(an, s, window).events| == count + 1
  {
    var added := WindowEvent(WindowFrames(an, s.buffer, window).bins, |window|);
    WindowEventPlausible(WindowFrames(an, s.buffer, window).bins, |window|);
    WindowEventCoverage(WindowFrames(an, s.buffer, window).bins, |window|);
    EventsLengthAppend(s.events, added);
  }

  /** The events cover all the samples of the windows exactly when no window was dropped;
      each dropped window leaves its samples uncovered. */
  lemma {:induction false} TranscribeWindowsCoverage(an: Analyzer, buf: seq<Complex>, windows: seq<seq<real>>)
    requires |buf| == FFT_SIZE
    requires forall i :: 0 <= i < |windows| ==> 1 <= |windows[i]| <= AGGREGATE_SIZE
    ensures EventsLength(TranscribeWindows(an, buf, windows).events) == TotalLength(windows)
      <==> |TranscribeWindows(an, buf, windows).events| == |windows|
    decreases |windows|
  {
    if windows != [] {
      var init := windows[..|windows| - 1];
      var window := windows[|windows| - 1];
      assert forall i :: 0 <= i < |init| ==> init[i] == windows[i];
      TranscribeWindowsFacts(an, buf, init);
      TranscribeWindowsCoverage(an, buf, init);
      WindowStepCoverage(an, TranscribeWindows(an, buf, init), window, |init|, TotalLength(init));
      TotalLengthSnoc(windows);
    }
  }

  /** The events of a recording cover all of its samples exactly when every window yields
      an event, and strictly fewer as soon as one window is dropped. */
  lemma TranscribeCoverage(an: Analyzer, samples: seq<real>)
    ensures EventsLength(Transcribe(an, samples)) == |samples|
      <==> |Transcribe(an, samples)| == |Chunks(samples, AGGREGATE_SIZE)|
    ensures EventsLength(Transcribe(an, samples)) < |samples|
      <==> |Transcribe(an, samples)| < |Chunks(samples, AGGREGATE_SIZE)|
  {
    var windows := Chunks(samples, AGGREGATE_SIZE);
    ChunksSizes(samples, AGGREGATE_SIZE);
    TranscribeWindowsFacts(an, ZeroBuffer(), windows);
    TranscribeWindowsCoverage(an, ZeroBuffer(), windows);
    ChunksFlatten(samples, AGGREGATE_SIZE);
    FlattenLength(windows);
  }

  /** Silent frames over a zero buffer keep the buffer zero, and none of their dominant bins
      passes the band test. */
  lemma {:induction false} SilentFrames(an: Analyzer, frames: seq<seq<real>>)
    requires SilenceIsFixed(an)
    requires forall i :: 0 <= i < |frames| ==> |frames[i]| <= FFT_SIZE
    requires forall f, x :: f in frames && x in f ==> x == 0.0
    ensures AnalyzeFrames(an, ZeroBuffer(), frames).buffer == ZeroBuffer()
    ensures forall i :: 0 <= i < |frames| ==> !InBand(AnalyzeFrames(an, ZeroBuffer(), frames).bins[i])
    decreases |frames|
  {
    if frames != [] {
      var init := frames[..|frames| - 1];
      var last := frames[|frames| - 1];
      assert forall f :: f in init ==> f in frames;
      SilentFrames(an, init);
      assert last in frames;
      SilentFrame(an, last);
    }
  }

  /** Silent windows leave the buffer zero and add no event. */
  lemma {:induction false} SilentWindows(an: Analyzer, windows: seq<seq<real>>)
    requires SilenceIsFixed(an)
    requires forall w, x :: w in windows && x in w ==> x == 0.0
    ensures TranscribeWindows(an, ZeroBuffer(), windows) == StreamState(ZeroBuffer(), [])
    decreases |windows|
  {
    if windows != [] {
      var init := windows[..|windows| - 1];
      var window := windows[|windows| - 1];
      assert forall w :: w in init ==> w in windows;
      SilentWindows(an, init);
      assert window in windows;
      ChunksSizes(window, FFT_SIZE);
      ChunksElements(window, FFT_SIZE);
      SilentFrames(an, Chunks(window, FFT_SIZE));
      var bins := WindowFrames(an, ZeroBuffer(), window).bins;
      RetainedFacts(bins);
    }
  }

  /** An all-zero recording yields no pitch events, whatever the length: the reused buffer
      stays zero across frames and windows, and every frame's dominant bin is dropped. */
  lemma SilenceGivesNoEvents(an: Analyzer, samples: seq<real>)
    requires SilenceIsFixed(an)
    requires forall i :: 0 <= i < |samples| ==> samples[i] == 0.0
    ensures Transcribe(an, samples) == []
  {
    ChunksElements(samples, AGGREGATE_SIZE);
    SilentWindows(an, Chunks(samples, AGGREGATE_SIZE));
  }

  /** A frame as long as the buffer overwrites all of it, so from there on the analysis no
      longer depends on what the buffer held before. */
  lemma {:induction false} FullFirstFrameForgetsBuffer(an: Analyzer, b1: seq<Complex>, b2: seq<Complex>, frames: seq<seq<real>>)
    requires |b1| == FFT_SIZE && |b2| == FFT_SIZE
    requires forall i :: 0 <= i < |frames| ==> |frames[i]| <= FFT_SIZE
    requires frames != [] && |frames[0]| == FFT_SIZE
    ensures AnalyzeFrames(an, b1, frames) == AnalyzeFrames(an, b2, frames)
    decreases |frames|
  {
    if |frames| == 1 {
      assert frames[..0] == [];
      assert Overlay(b1, frames[0]) == Overlay(b2, frames[0]);
    } else {
      var init := frames[..|frames| - 1];
      assert init[0] == frames[0];
      FullFirstFrameForgetsBuffer(an, b1, b2, init);
    }
  }

  /** A window of at least FFT_SIZE samples starts with a full frame, so the events it adds do
      not depend on the buffer the previous window left behind; only a final window shorter than
      one frame is analysed on top of stale buffer content from its very first frame. */
  lemma WindowForgetsBuffer(an: Analyzer, b1: seq<Complex>, b2: seq<Complex>, window: seq<real>)
    requires |b1| == FFT_SIZE && |b2| == FFT_SIZE
    requires |window| >= FFT_SIZE
    ensures WindowFrames(an, b1, window).bins == WindowFrames(an, b2, window).bins
  {
    ChunksSizes(window, FFT_SIZE);
    FullFirstFrameForgetsBuffer(an, b1, b2, Chunks(window, FFT_SIZE));
  }

  /** A full window of 44100 samples is 43 full frames and a last frame of 68 samples, so the
      last frame of every full window is analysed over 956 stale slots of the previous spectrum. */
  lemma FullWindowFrames(window: seq<real>)
    requires |window| == AGGREGATE_SIZE
    ensures |Chunks(window, FFT_SIZE)| == 44
    ensures |Chunks(window, FFT_SIZE)[43]| == 68
  {
    ChunksShape(window, FFT_SIZE);
  }

  /** Flushing the samples from `start` to `end` after `flushed` whole windows adds them
      as one more window of the recording's prefix up to `end`. */
  lemma FlushedWindows(samples: seq<real>, start: nat, end: nat, flushed: nat)
    requires start < end <= |samples| && end - start <= AGGREGATE_SIZE
    requires start == flushed * AGGREGATE_SIZE
    ensures Chunks(samples[..end], AGGREGATE_SIZE)
      == Chunks(samples[..start], AGGREGATE_SIZE) + [samples[start..end]]
  {
    MultipleMod(flushed, AGGREGATE_SIZE);
    assert samples[..end] == samples[..start] + samples[start..end];
    ChunksAppend(samples[..start], samples[start..end], AGGREGATE_SIZE);
  }

  /** Analysing one more frame extends the frame-by-frame analysis by one step. */
  lemma AnalyzeFramesSnoc(an: Analyzer, buf: seq<Complex>, frames: seq<seq<real>>, f: nat)
    requires |buf| == FFT_SIZE && f < |frames|
    requires forall i :: 0 <= i < |frames| ==> |frames[i]| <= FFT_SIZE
    ensures var prev := AnalyzeFrames(an, buf, frames[..f]);
      var spectrum := Spectrum(an, Overlay(prev.buffer, frames[f]));
      AnalyzeFrames(an, buf, frames[..f + 1])
        == FrameState(spectrum, prev.bins + [DominantBin(Magnitudes(an, spectrum))])
  {
    assert frames[..f + 1][..f] == frames[..f];
  }

  /** Keeping one more bin keeps its frequency exactly when it is in band. */
  lemma RetainedSnoc(bins: seq<nat>, k: nat)
    ensures Retained(bins + [k]) == if InBand(k) then Retained(bins) + [BinFrequency(k)] else Retained(bins)
  {
    assert (bins + [k])[..|bins|] == bins;
  }

  /** One iteration of the frame loop (src/main.rs:32-43): copy the frame into the buffer,
      transform it in place, and pick the dominant bin of the magnitudes. */
  method AnalyzeFrame(an: Analyzer, buffer: array<Complex>, frame: seq<real>) returns (maxIndex: nat)
    requires buffer.Length == FFT_SIZE && |frame| <= FFT_SIZE
    modifies buffer
    ensures buffer[..] == Spectrum(an, Overlay(old(buffer[..]), frame))
    ensures maxIndex == DominantBin(Magnitudes(an, buffer[..]))
  {
    CopyFrame(buffer, frame);
    Process(an, buffer);
    var magnitudes := Magnitudes(an, buffer[..]);
    maxIndex := MaxBy(magnitudes);
  }

  /** The frame loop over one flushed window (src/main.rs:32-46): it leaves the buffer and the
      dominant bins as the frame-by-frame analysis does, and keeps the in-band frequencies. */
  method AnalyzeWindow(an: Analyzer, buffer: array<Complex>, window: seq<real>)
    returns (frequencies: seq<real>, ghost bins: seq<nat>)
    requires buffer.Length == FFT_SIZE
    modifies buffer
    ensures FrameState(buffer[..], bins) == WindowFrames(an, old(buffer[..]), window)
    ensures frequencies == Retained(bins)
  {
    var frames := Chunks(window, FFT_SIZE);
    ChunksSizes(window, FFT_SIZE);
    frequencies, bins := [], [];
    for f := 0 to |frames|
      invariant FrameState(buffer[..], bins) == AnalyzeFrames(an, old(buffer[..]), frames[..f])
      invariant frequencies == Retained(bins)
    {
      AnalyzeFramesSnoc(an, old(buffer[..]), frames, f);
      var maxIndex := AnalyzeFrame(an, buffer, frames[f]);
      var frequency := BinFrequency(maxIndex);
      if 20.0 <= frequency <= 20000.0 {
        frequencies := frequencies + [frequency];
      }
      RetainedSnoc(bins, maxIndex);
      bins := bins + [maxIndex];
    }
    assert frames[..|frames|] == frames;
  }

  /** The work done on each flush (src/main.rs:31-51): the frame loop over the window, then
      one event if any frame's dominant frequency was in the band. */
  method FlushWindow(an: Analyzer, buffer: array<Complex>, window: seq<real>, events: seq<PitchEvent>)
    returns (events': seq<PitchEvent>)
    requires buffer.Length == FFT_SIZE
    modifies buffer
    ensures StreamState(buffer[..], events') == WindowStep(an, StreamState(old(buffer[..]), events), window)
  {
    var frequencies, bins := AnalyzeWindow(an, buffer, window);
    events' := events;
    if frequencies != [] {
      events' := events' + [PitchEvent(Mean(frequencies), |window|)];
    }
  }

  /** Where the outer loop stands after `i` samples: `chunk` holds the samples pushed since the
      last flush, fewer than a full window, and `windows` are the windows flushed so far, which
      are the AGGREGATE_SIZE chunks of everything before `chunk`. */
  ghost predicate Pending(samples: seq<real>, i: nat, chunk: seq<real>, windows: seq<seq<real>>)
  {
    && i <= |samples|
    && |chunk| < AGGREGATE_SIZE && |chunk| <= i
    && (i < |samples| ==> i - |chunk| == |windows| * AGGREGATE_SIZE)
    && chunk == samples[i - |chunk|..i]
    && (i == |samples| ==> chunk == [])
    && windows == Chunks(samples[..i - |chunk|], AGGREGATE_SIZE)
  }

  /** One iteration of the outer loop: push the next sample, and flush the chunk as one more
      window when it is full or the sample was the last one. */
  lemma PushSample(samples: seq<real>, i: nat, chunk: seq<real>, windows: seq<seq<real>>)
    requires Pending(samples, i, chunk, windows) && i < |samples|
    ensures var c := chunk + [samples[i]];
      if |c| >= AGGREGATE_SIZE || i == |samples| - 1 then Pending(samples, i + 1, [], windows + [c])
      else Pending(samples, i + 1, c, windows)
  {
    var c := chunk + [samples[i]];
    assert c == samples[i + 1 - |c|..i + 1];
    if |c| >= AGGREGATE_SIZE || i == |samples| - 1 {
      FlushedWindows(samples, i + 1 - |c|, i + 1, |windows|);
      assert samples[..i + 1 - |c|] == samples[..i - |chunk|];
    }
  }

  /** One iteration of the outer loop (src/main.rs:28-31): push the next sample, and flush
      the chunk as one more window when it is full or the sample was the last one. */
  method PushAndFlush(an: Analyzer, buffer: array<Complex>, samples: seq<real>, i: nat,
                      chunk: seq<real>, ghost windows: seq<seq<real>>, events: seq<PitchEvent>)
    returns (chunk': seq<real>, ghost windows': seq<seq<real>>, events': seq<PitchEvent>)
    requires Pending(samples, i, chunk, windows) && i < |samples|
    requires buffer.Length == FFT_SIZE
    requires StreamState(buffer[..], events) == TranscribeWindows(an, ZeroBuffer(), windows)
    modifies buffer
    ensures Pending(samples, i + 1, chunk', windows')
    ensures StreamState(buffer[..], events') == TranscribeWindows(an, ZeroBuffer(), windows')
  {
    PushSample(samples, i, chunk, windows);
    chunk', windows', events' := chunk + [samples[i]], windows, events;
    if |chunk'| >= AGGREGATE_SIZE || i == |samples| - 1 {
      events' := FlushWindow(an, buffer, chunk', events);
      TranscribeWindowsAppend(an, ZeroBuffer(), windows, chunk');
      windows' := windows + [chunk'];
      chunk' := [];
    }
  }

  /** The whole windowing loop (src/main.rs:22-55): it computes exactly `Transcribe`. */
  method TranscribeStream(an: Analyzer, samples: seq<real>) returns (events: seq<PitchEvent>)
    ensures events == Transcribe(an, samples)
  {
    events := [];
    var chunk: seq<real> := [];
    var buffer := new Complex[FFT_SIZE](_ => Complex(0.0, 0.0));
    ghost var windows: seq<seq<real>> := [];
    var i := 0;
    while i < |samples|
      invariant Pending(samples, i, chunk, windows)
      invariant buffer.Length == FFT_SIZE
      invariant StreamState(buffer[..], events) == TranscribeWindows(an, ZeroBuffer(), windows)
    {
      chunk, windows, events := PushAndFlush(an, buffer, samples, i, chunk, windows, events);
      i := i + 1;
    }
    assert samples[..i] == samples;
  }
}
