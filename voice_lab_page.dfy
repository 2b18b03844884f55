/**
 * The voice lab page: its pitch reading, the pitch history fed to the
 * visualiser, the listening flags, the session metrics and the stopwatch, and
 * the handlers that change them. Each animation frame runs `UpdatePitch` on
 * one frame of samples; the microphone, the audio graph and the browser's
 * scheduling are outside the model.
 */
module VoiceLabPage {
  import opened Options
  import NoteMapper
  import PitchEstimator
  import PitchHistory
  import Metrics
  import Timing

  /** The `pitch` state: `{ hz, note, octave, noteIndex, cents }`. */
  datatype Reading = Reading(hz: real, note: Option<string>, octave: int, noteIndex: int, cents: real)

  /** The reading shown while nothing is heard. */
  const Unvoiced: Reading := Reading(0.0, Some("..."), 0, -1, 0.0)

  /** The `{ cents, noteIndex }` pair a reading appends to the history. */
  function EntryOf(p: Reading): PitchHistory.HistoryEntry
  {
    PitchHistory.HistoryEntry(p.cents, p.noteIndex)
  }

  /** The reading a frame's estimate leads to: noteFromPitch on a voiced frequency, else the unvoiced reading. */
  function ReadingFor(est: Option<real>, midiOf: real -> NoteMapper.MidiEstimate): (p: Reading)
    ensures est.None? ==> p == Unvoiced
    ensures est.Some? ==>
      && p.hz == est.value && p.noteIndex == midiOf(est.value).rounded
      && p.cents == midiOf(est.value).cents
      && p.note == NoteMapper.NoteName(p.noteIndex)
      && p.octave == NoteMapper.Octave(p.noteIndex)
      && 12 * (p.octave + 1) <= p.noteIndex < 12 * (p.octave + 2)
  {
    match est
    case None => Unvoiced
    case Some(freq) =>
      var info := NoteMapper.NoteFromMidi(midiOf(freq));
      Reading(freq, info.note, info.octave, info.noteIndex, info.cents)
  }

  /**
   * What the logarithm step of noteFromPitch satisfies on the voice band: 80 Hz lies
   * at MIDI 39.49 and 1000 Hz at 83.21, so the nearest note is within 39..83, and
   * rounding to the nearest note leaves at most half a semitone, 50 cents.
   */
  ghost predicate Calibrated(midiOf: real -> NoteMapper.MidiEstimate)
  {
    forall f: real :: 80.0 < f < 1000.0 ==>
      39 <= midiOf(f).rounded <= 83 && -50.0 <= midiOf(f).cents <= 50.0
  }

  /** A reading of the page: either the unvoiced one or a named note of the voice band. */
  ghost predicate PlausibleReading(p: Reading)
  {
    p == Unvoiced
    || (80.0 < p.hz < 1000.0 && p.note.Some? && 39 <= p.noteIndex <= 83 && -50.0 <= p.cents <= 50.0)
  }

  /** A history entry: the unvoiced `{ 0, -1 }` or a note of the voice band at most 50 cents off. */
  ghost predicate PlausibleEntry(e: PitchHistory.HistoryEntry)
  {
    e == PitchHistory.HistoryEntry(0.0, -1) || (39 <= e.noteIndex <= 83 && -50.0 <= e.cents <= 50.0)
  }

  /** Under a calibrated logarithm step every estimate leads to a plausible reading, with a note name. */
  lemma ReadingIsPlausible(est: Option<real>, midiOf: real -> NoteMapper.MidiEstimate)
    requires Calibrated(midiOf)
    requires est.Some? ==> 80.0 < est.value < 1000.0
    ensures PlausibleReading(ReadingFor(est, midiOf))
    ensures PlausibleEntry(EntryOf(ReadingFor(est, midiOf)))
    ensures ReadingFor(est, midiOf).hz > 0.0 <==> est.Some?
  {
    if est.Some? {
      var m := midiOf(est.value);
      assert 39 <= m.rounded <= 83;
    }
  }

  /** A frame under the gate gives the unvoiced reading and appends `{ 0, -1 }`, whatever the rest of the frame. */
  lemma SilentFrameIsUnvoiced(frame: seq<real>, sampleRate: real, midiOf: real -> NoteMapper.MidiEstimate)
    requires PitchEstimator.Silent(frame)
    ensures ReadingFor(PitchEstimator.Estimate(frame, sampleRate), midiOf) == Unvoiced
    ensures EntryOf(ReadingFor(PitchEstimator.Estimate(frame, sampleRate), midiOf)) == PitchHistory.HistoryEntry(0.0, -1)
  {
  }

  class VoiceLab {
    var hasMicPermission: bool
    var isListening: bool
    /** The analyser and an audio context that is not closed both exist: the guard of updatePitch. */
    var audioActive: bool
    var pitch: Reading
    var pitchHistory: seq<PitchHistory.HistoryEntry>
    /** minPitch, maxPitch, avgPitch and allPitchesRef. */
    const metrics: Metrics.VocalMetrics
    /** stopwatchTime, isStopwatchRunning and recordedTimes. */
    const stopwatch: Timing.Stopwatch

    /**
     * The audio graph runs exactly while the page listens, and only with microphone
     * permission; the reading and every history entry are plausible; and every
     * recorded frequency lies in the voice band.
     */
    ghost predicate Valid()
      reads this, metrics, stopwatch
    {
      && metrics.Valid() && stopwatch.Valid()
      && audioActive == isListening
      && (isListening ==> hasMicPermission)
      && PlausibleReading(pitch)
      && (forall i :: 0 <= i < |pitchHistory| ==> PlausibleEntry(pitchHistory[i]))
      && (forall i :: 0 <= i < |metrics.allPitches| ==> 80.0 < metrics.allPitches[i] < 1000.0)
    }

    constructor ()
      ensures Valid() && fresh(metrics) && fresh(stopwatch)
      ensures hasMicPermission && !isListening && !audioActive
      ensures pitch == Unvoiced && pitchHistory == []
      ensures metrics.allPitches == [] && stopwatch.time == 0 && !stopwatch.running && stopwatch.recordedTimes == []
    {
      hasMicPermission, isListening, audioActive := true, false, false;
      pitch, pitchHistory := Unvoiced, [];
      metrics := new Metrics.VocalMetrics();
      stopwatch := new Timing.Stopwatch();
    }

    /**
     * One animation frame of updatePitch on the samples `frame`. With no live audio
     * graph nothing changes. Otherwise the frame's estimate decides the reading, the
     * reading's pair is appended to the history, and a voiced frequency is recorded
     * in the metrics.
     */
    method UpdatePitch(frame: seq<real>, sampleRate: real, midiOf: real -> NoteMapper.MidiEstimate)
      requires Valid() && Calibrated(midiOf)
      modifies this, metrics
      ensures Valid()
      ensures hasMicPermission == old(hasMicPermission) && isListening == old(isListening)
      ensures audioActive == old(audioActive)
      ensures !old(audioActive) ==>
        pitch == old(pitch) && pitchHistory == old(pitchHistory) && unchanged(metrics)
      ensures old(audioActive) ==>
        var est := PitchEstimator.Estimate(frame, sampleRate);
        && pitch == ReadingFor(est, midiOf)
        && pitchHistory == old(pitchHistory) + [EntryOf(pitch)]
        && (est.None? ==> unchanged(metrics))
        && (est.Some? ==>
              && metrics.allPitches == old(metrics.allPitches) + [est.value]
              && metrics.minPitch == Metrics.NewMin(old(metrics.minPitch), Metrics.PitchRecord(pitch.hz, pitch.note, pitch.octave))
              && metrics.maxPitch == Metrics.NewMax(old(metrics.maxPitch), Metrics.PitchRecord(pitch.hz, pitch.note, pitch.octave)))
    {
      if !audioActive {
        return;
      }
      var est := PitchEstimator.EstimateFrame(frame, sampleRate);
      ReadingIsPlausible(est, midiOf);
      pitch := ReadingFor(est, midiOf);
      if est.Some? {
        metrics.Update(pitch.hz, pitch.note, pitch.octave);
      }
      assert forall i :: 0 <= i < |old(metrics.allPitches)| ==> metrics.allPitches[i] == old(metrics.allPitches)[i];
      pitchHistory := pitchHistory + [EntryOf(pitch)];
    }

    /**
     * startPitchDetection once getUserMedia has answered `granted`. A page already
     * listening ignores the call; a refusal only clears the permission flag.
     */
    method StartPitchDetection(granted: bool)
      requires Valid()
      modifies this
      ensures Valid()
      ensures pitch == old(pitch) && pitchHistory == old(pitchHistory)
      ensures old(isListening) ==>
        hasMicPermission == old(hasMicPermission) && isListening && audioActive
      ensures !old(isListening) && granted ==> hasMicPermission && isListening && audioActive
      ensures !old(isListening) && !granted ==> !hasMicPermission && !isListening && !audioActive
    {
      if isListening {
        return;
      }
      if granted {
        hasMicPermission := true;
        audioActive := true;
        isListening := true;
      } else {
        hasMicPermission := false;
      }
    }

    /** stopPitchDetection: the graph is closed, the reading returns to unvoiced and the history is emptied. */
    method StopPitchDetection()
      requires Valid()
      modifies this
      ensures Valid()
      ensures !isListening && !audioActive && hasMicPermission == old(hasMicPermission)
      ensures pitch == Unvoiced && pitchHistory == []
    {
      audioActive := false;
      isListening := false;
      pitch := Unvoiced;
      pitchHistory := [];
    }

    /**
     * resetMetrics: the metrics, the recorded times, the stopwatch and the history are
     * cleared; the reading and the listening state stay as they are.
     */
    method ResetMetrics()
      requires Valid()
      modifies this, metrics, stopwatch
      ensures Valid()
      ensures metrics.minPitch == None && metrics.maxPitch == None
      ensures metrics.avgPitch == 0.0 && metrics.allPitches == []
      ensures stopwatch.time == 0 && !stopwatch.running && stopwatch.recordedTimes == []
      ensures pitchHistory == []
      ensures pitch == old(pitch) && isListening == old(isListening)
      ensures audioActive == old(audioActive) && hasMicPermission == old(hasMicPermission)
    {
      metrics.Reset();
      stopwatch.ClearRecordedTimes();
      stopwatch.Reset();
      pitchHistory := [];
    }

    /** The session's minimum, mean and maximum all lie in the voice band, in that order. */
    lemma MetricsInVoiceBand()
      requires Valid()
      requires metrics.allPitches != []
      ensures metrics.minPitch.Some? && metrics.maxPitch.Some?
      ensures 80.0 < metrics.minPitch.value.hz <= metrics.avgPitch <= metrics.maxPitch.value.hz < 1000.0
    {
      metrics.RangeOrdered();
    }
  }
}
