/** Playback of the pitch events (src/main.rs:65-86): every event whose MIDI note is in range
    is rendered by the synthesizer for the event's duration, in event order; the others are
    skipped.  The synthesizer is modelled by the sequence of calls the loop makes on it. */
module Scheduling {
  import opened Config
  import opened Chunking
  import opened Spectral
  import opened Aggregation

  /** The synthesizer channel every note is played on. */
  const CHANNEL: nat := 0

  /** The velocity of every note-on. */
  const VELOCITY: nat := 100

  /** The highest MIDI note played; events mapped above it are skipped. */
  const MAX_MIDI_NOTE: nat := 127

  /** A note as rendered: its MIDI key and the number of samples rendered for it. */
  datatype Note = Note(key: nat, length: nat)

  /** The calls the loop makes on the synthesizer: `note_on`, `write` into a buffer of
      `count` samples (all of which are then written to the output), and `note_off`. */
  datatype SynthCall =
    | NoteOn(channel: nat, key: nat, velocity: nat)
    | Write(count: nat)
    | NoteOff(channel: nat, key: nat)

  /** The number of samples rendered for an event: its duration times the sample rate. */
  function NumSamples(e: PitchEvent): (n: nat)
    ensures n as real == Duration(e) * SAMPLE_RATE as real
  {
    e.length
  }

  /** The notes played for a sequence of events: the events whose MIDI note (as `toMidi`,
      the model of `frequency_to_midi`, gives it) is at most 127, in order. */
  function Playable(events: seq<PitchEvent>, toMidi: real -> nat): (notes: seq<Note>)
    ensures |notes| <= |events|
    ensures forall i :: 0 <= i < |notes| ==> notes[i].key <= MAX_MIDI_NOTE
    decreases |events|
  {
    if events == [] then []
    else
      var e := events[|events| - 1];
      var key := toMidi(e.frequency);
      Playable(events[..|events| - 1], toMidi)
        + (if key > MAX_MIDI_NOTE then [] else [Note(key, NumSamples(e))])
  }

  /** The number of events whose MIDI note is in range. */
  function InRangeCount(events: seq<PitchEvent>, toMidi: real -> nat): nat
    decreases |events|
  {
    if events == [] then 0
    else
      InRangeCount(events[..|events| - 1], toMidi)
        + (if toMidi(events[|events| - 1].frequency) > MAX_MIDI_NOTE then 0 else 1)
  }

  /** Exactly the in-range events are played, in their original order: the i-th event, when
      in range, is played as note number (in-range events before it), with its own key and
      sample count. */
  lemma {:induction false} PlayableAt(events: seq<PitchEvent>, toMidi: real -> nat)
    ensures |Playable(events, toMidi)| == InRangeCount(events, toMidi)
    ensures forall i :: 0 <= i < |events| && toMidi(events[i].frequency) <= MAX_MIDI_NOTE ==>
      && InRangeCount(events[..i], toMidi) < |Playable(events, toMidi)|
      && Playable(events, toMidi)[InRangeCount(events[..i], toMidi)]
         == Note(toMidi(events[i].frequency), NumSamples(events[i]))
    decreases |events|
  {
    if events != [] {
      var n := |events| - 1;
      var init := events[..n];
      PlayableAt(init, toMidi);
      forall i | 0 <= i < |events| && toMidi(events[i].frequency) <= MAX_MIDI_NOTE
        ensures InRangeCount(events[..i], toMidi) < |Playable(events, toMidi)|
        ensures Playable(events, toMidi)[InRangeCount(events[..i], toMidi)]
          == Note(toMidi(events[i].frequency), NumSamples(events[i]))
      {
        if i < n {
          assert events[..i] == init[..i] && events[i] == init[i];
        } else {
          assert events[..i] == init;
        }
      }
    }
  }

  /** The three calls that play one note. */
  function NoteCalls(note: Note): seq<SynthCall>
  {
    [NoteOn(CHANNEL, note.key, VELOCITY), Write(note.length), NoteOff(CHANNEL, note.key)]
  }

  /** The calls that play a sequence of notes, one after the other. */
  function Calls(notes: seq<Note>): seq<SynthCall>
    decreases |notes|
  {
    if notes == [] then [] else Calls(notes[..|notes| - 1]) + NoteCalls(notes[|notes| - 1])
  }

  /** Every note is played by a note-on, a write of its sample count and a note-off, on channel
      0 at velocity 100, with no call before, between or after them. */
  lemma {:induction false} CallsAt(notes: seq<Note>)
    ensures |Calls(notes)| == 3 * |notes|
    ensures forall i :: 0 <= i < |notes| ==>
      && Calls(notes)[3 * i] == NoteOn(CHANNEL, notes[i].key, VELOCITY)
      && Calls(notes)[3 * i + 1] == Write(notes[i].length)
      && Calls(notes)[3 * i + 2] == NoteOff(CHANNEL, notes[i].key)
    decreases |notes|
  {
    if notes != [] {
      var init := notes[..|notes| - 1];
      CallsAt(init);
      assert forall i :: 0 <= i < |init| ==> init[i] == notes[i];
    }
  }

  /** The number of samples written to the output by a sequence of calls. */
  function WrittenSamples(calls: seq<SynthCall>): nat
    decreases |calls|
  {
    if calls == [] then 0
    else
      WrittenSamples(calls[..|calls| - 1])
        + (match calls[|calls| - 1] case Write(count) => count case _ => 0)
  }

  lemma {:induction false} WrittenSamplesAppend(a: seq<SynthCall>, b: seq<SynthCall>)
    ensures WrittenSamples(a + b) == WrittenSamples(a) + WrittenSamples(b)
    decreases |b|
  {
    if b == [] {
      assert a + b == a;
    } else {
      var init := b[..|b| - 1];
      assert (a + b)[..|a + b| - 1] == a + init;
      WrittenSamplesAppend(a, init);
    }
  }

  /** The total sample count of a sequence of notes. */
  function NotesLength(notes: seq<Note>): nat
    decreases |notes|
  {
    if notes == [] then 0 else NotesLength(notes[..|notes| - 1]) + notes[|notes| - 1].length
  }

  /** The output holds exactly the samples rendered for the notes played. */
  lemma {:induction false} WrittenSamplesOfCalls(notes: seq<Note>)
    ensures WrittenSamples(Calls(notes)) == NotesLength(notes)
    decreases |notes|
  {
    if notes != [] {
      var init := notes[..|notes| - 1];
      var last := NoteCalls(notes[|notes| - 1]);
      WrittenSamplesOfCalls(init);
      WrittenSamplesAppend(Calls(init), last);
      WrittenSamplesOfNote(notes[|notes| - 1]);
    }
  }

  lemma WrittenSamplesOfNote(note: Note)
    ensures WrittenSamples(NoteCalls(note)) == note.length
  {
    var calls := NoteCalls(note);
    assert calls[..2][..1][..0] == [];
    assert WrittenSamples(calls[..2][..1]) == 0;
    assert WrittenSamples(calls[..2]) == note.length;
    assert calls[..|calls| - 1] == calls[..2];
  }

  /** Skipping events never adds samples: the notes together are no longer than the events. */
  lemma {:induction false} PlayableLength(events: seq<PitchEvent>, toMidi: real -> nat)
    ensures NotesLength(Playable(events, toMidi)) <= EventsLength(events)
    decreases |events|
  {
    if events != [] {
      var init := events[..|events| - 1];
      var e := events[|events| - 1];
      PlayableLength(init, toMidi);
      assert init + [e] == events;
      EventsLengthAppend(init, [e]);
      var prev := Playable(init, toMidi);
      assert [e][1..] == [];
      assert EventsLength(events) == EventsLength(init) + e.length;
      if toMidi(e.frequency) <= MAX_MIDI_NOTE {
        var notes := prev + [Note(toMidi(e.frequency), NumSamples(e))];
        assert Playable(events, toMidi) == notes;
        assert notes[..|notes| - 1] == prev;
        assert NotesLength(notes) == NotesLength(prev) + e.length;
      } else {
        assert Playable(events, toMidi) == prev;
      }
    }
  }

  /** When every event covers at least one sample, the notes cover all the events' samples
      exactly when no event was skipped. */
  lemma {:induction false} PlayableCoverage(events: seq<PitchEvent>, toMidi: real -> nat)
    requires forall i :: 0 <= i < |events| ==> events[i].length >= 1
    ensures NotesLength(Playable(events, toMidi)) == EventsLength(events)
      <==> |Playable(events, toMidi)| == |events|
    decreases |events|
  {
    if events != [] {
      var init := events[..|events| - 1];
      var e := events[|events| - 1];
      var prev := Playable(init, toMidi);
      assert NotesLength(prev) <= EventsLength(init) && |prev| <= |init|
        && (NotesLength(prev) == EventsLength(init) <==> |prev| == |init|)
      by {
        PlayableLength(init, toMidi);
        PlayableCoverage(init, toMidi);
      }
      assert EventsLength(events) == EventsLength(init) + e.length by {
        assert init + [e] == events;
        EventsLengthAppend(init, [e]);
        assert [e][1..] == [];
      }
      if toMidi(e.frequency) <= MAX_MIDI_NOTE {
        var notes := prev + [Note(toMidi(e.frequency), NumSamples(e))];
        assert Playable(events, toMidi) == notes;
        assert notes[..|notes| - 1] == prev;
        assert NotesLength(notes) == NotesLength(prev) + e.length;
      } else {
        assert Playable(events, toMidi) == prev;
      }
    }
  }

  /** One more event adds its note when its MIDI note is in range, and nothing otherwise. */
  lemma PlayableSnoc(events: seq<PitchEvent>, toMidi: real -> nat, i: nat)
    requires i < |events|
    ensures toMidi(events[i].frequency) > MAX_MIDI_NOTE ==>
      Playable(events[..i + 1], toMidi) == Playable(events[..i], toMidi)
    ensures toMidi(events[i].frequency) <= MAX_MIDI_NOTE ==>
      Playable(events[..i + 1], toMidi)
        == Playable(events[..i], toMidi) + [Note(toMidi(events[i].frequency), NumSamples(events[i]))]
  {
    assert events[..i + 1][..i] == events[..i];
    assert Playable(events[..i], toMidi) + [] == Playable(events[..i], toMidi);
  }

  /** One more note adds its three calls after those of the notes before it, and its sample
      count to the samples written. */
  lemma PlayNote(notes: seq<Note>, note: Note)
    ensures Calls(notes + [note]) == Calls(notes) + NoteCalls(note)
    ensures WrittenSamples(Calls(notes + [note])) == WrittenSamples(Calls(notes)) + note.length
  {
    assert (notes + [note])[..|notes|] == notes;
    WrittenSamplesAppend(Calls(notes), NoteCalls(note));
    WrittenSamplesOfNote(note);
  }

  /** The playback loop (src/main.rs:65-86): returns the calls made on the synthesizer and the
      number of samples written to the output. */
  method Play(events: seq<PitchEvent>, toMidi: real -> nat) returns (calls: seq<SynthCall>, written: nat)
    ensures calls == Calls(Playable(events, toMidi))
    ensures written == WrittenSamples(calls)
  {
    calls, written := [], 0;
    for i := 0 to |events|
      invariant calls == Calls(Playable(events[..i], toMidi))
      invariant written == WrittenSamples(calls)
    {
      PlayableSnoc(events, toMidi, i);
      var numSamples := NumSamples(events[i]);
      var midiNote := toMidi(events[i].frequency);
      if midiNote > MAX_MIDI_NOTE {
        continue;
      }
      var played := Note(midiNote, numSamples);
      PlayNote(Playable(events[..i], toMidi), played);
      ghost var before := calls;
      calls := calls + [NoteOn(CHANNEL, midiNote, VELOCITY)];
      calls := calls + [Write(numSamples)];
      written := written + numSamples;
      calls := calls + [NoteOff(CHANNEL, midiNote)];
      assert calls == before + NoteCalls(played);
    }
    assert events[..|events|] == events;
  }

  /** From recording to output: the synthesized file never holds more samples than the input
      recording, whatever the spectra and the note mapping. */
  lemma OutputNoLongerThanInput(an: Analyzer, toMidi: real -> nat, samples: seq<real>)
    ensures WrittenSamples(Calls(Playable(Transcribe(an, samples), toMidi))) <= |samples|
  {
    var events := Transcribe(an, samples);
    TranscribeFacts(an, samples);
    PlayableLength(events, toMidi);
    WrittenSamplesOfCalls(Playable(events, toMidi));
  }

  /** From recording to output: the synthesized file holds exactly as many samples as the
      recording when every window yields an event that is played, and strictly fewer as soon
      as a window is dropped or an event is skipped. */
  lemma OutputCoverage(an: Analyzer, toMidi: real -> nat, samples: seq<real>)
    ensures WrittenSamples(Calls(Playable(Transcribe(an, samples), toMidi))) == |samples|
      <==> |Playable(Transcribe(an, samples), toMidi)| == |Chunks(samples, AGGREGATE_SIZE)|
    ensures WrittenSamples(Calls(Playable(Transcribe(an, samples), toMidi))) < |samples|
      <==> |Playable(Transcribe(an, samples), toMidi)| < |Chunks(samples, AGGREGATE_SIZE)|
  {
    var events := Transcribe(an, samples);
    var notes := Playable(events, toMidi);
    assert |events| <= |Chunks(samples, AGGREGATE_SIZE)| by {
      ChunksSizes(samples, AGGREGATE_SIZE);
      TranscribeWindowsFacts(an, ZeroBuffer(), Chunks(samples, AGGREGATE_SIZE));
    }
    assert forall i :: 0 <= i < |events| ==> events[i].length >= 1 by {
      TranscribeFacts(an, samples);
      assert forall i :: 0 <= i < |events| ==> events[i] in events;
    }
    TranscribeFacts(an, samples);
    TranscribeCoverage(an, samples);
    PlayableLength(events, toMidi);
    PlayableCoverage(events, toMidi);
    WrittenSamplesOfCalls(notes);
  }
}
