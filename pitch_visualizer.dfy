/**
 * The visualiser puts the three components side by side: the meter gets the
 * reading's cents, the keyboard its MIDI note, and the timeline the history
 * over the keyboard's own range, C3 to C5. These lemmas state how the pieces
 * line up.
 */
module PitchVisualizer {
  import opened Options
  import NoteMapper
  import Piano
  import PitchHistory
  import PitchDeviationMeter

  const MinPianoNoteIndex: int := 48
  const MaxPianoNoteIndex: int := 72

  /** The timeline's columns are the keyboard's keys: same notes, same order, white exactly where the key is not sharp. */
  lemma TimelineColumnsAreKeys(activeNoteIndex: int)
    ensures var keys := Piano.Keys(activeNoteIndex);
      var lines := PitchHistory.GridLines(MinPianoNoteIndex, MaxPianoNoteIndex);
      && |keys| == |lines|
      && forall i :: 0 <= i < |keys| ==>
           keys[i].noteIndex == lines[i].midiNote && (keys[i].isSharp <==> !lines[i].isWhiteKey)
  {
    var keys := Piano.Keys(activeNoteIndex);
    var lines := PitchHistory.GridLines(MinPianoNoteIndex, MaxPianoNoteIndex);
    forall i | 0 <= i < |keys|
      ensures keys[i].noteIndex == lines[i].midiNote && (keys[i].isSharp <==> !lines[i].isWhiteKey)
    {
      var n := MinPianoNoteIndex + i;
      Piano.SharpByOffset(n);
      PitchHistory.WhiteKeyByOffset(n);
    }
  }

  /** The detected note lights the key at its offset from C3. */
  lemma KeyOfNoteIsLit(noteIndex: int)
    requires MinPianoNoteIndex <= noteIndex <= MaxPianoNoteIndex
    ensures Piano.Keys(noteIndex)[noteIndex - MinPianoNoteIndex].isActive
  {
    var i := noteIndex - MinPianoNoteIndex;
    assert Piano.Keys(noteIndex)[i] == Piano.KeyAt(i, noteIndex);
  }

  /**
   * For a note of the keyboard's range, its bar in the timeline stands between the grid
   * line of its column and the next one (or the right edge), under the key KeyOfNoteIsLit lights.
   */
  lemma BarUnderLitKey(noteIndex: int)
    requires MinPianoNoteIndex <= noteIndex <= MaxPianoNoteIndex
    ensures var i := noteIndex - MinPianoNoteIndex;
      var lines := PitchHistory.GridLines(MinPianoNoteIndex, MaxPianoNoteIndex);
      var left := PitchHistory.BarLeft(noteIndex, MinPianoNoteIndex, MaxPianoNoteIndex);
      && lines[i].left < left < 100.0
      && (i + 1 < |lines| ==> left < lines[i + 1].left)
  {
    var i := noteIndex - MinPianoNoteIndex;
    var lines := PitchHistory.GridLines(MinPianoNoteIndex, MaxPianoNoteIndex);
    assert PitchHistory.ColumnWidth(MinPianoNoteIndex, MaxPianoNoteIndex) == 4.0;
    assert PitchHistory.BarLeft(noteIndex, MinPianoNoteIndex, MaxPianoNoteIndex) == (i as real) * 4.0 + 2.0;
    assert lines[i].left == (i as real) * 4.0;
    if i + 1 < |lines| {
      assert lines[i + 1].left == ((i + 1) as real) * 4.0;
    }
  }

  /** The timeline's colour bands are the meter's starred markers: green within ±5 cents, yellow within ±12. */
  lemma ColourBandsAreMarkers(e: PitchHistory.HistoryEntry)
    requires e.noteIndex != -1
    ensures var m := PitchDeviationMeter.Markers;
      && (PitchHistory.IndicatorColor(e) == PitchHistory.Green <==> m[2].value <= e.cents <= m[4].value)
      && (PitchHistory.IndicatorColor(e) != PitchHistory.Red <==> m[1].value <= e.cents <= m[5].value)
  {
  }

  /** The keyboard and the page name notes from the same table. */
  lemma NameTablesAgree()
    ensures Piano.NoteNames == NoteMapper.NoteStrings
    ensures forall n: nat :: NoteMapper.NoteName(n) == Some(Piano.NoteNames[n % 12])
  {
  }

  /**
   * The visualiser passes no `maxHistoryItems`, so the timeline shows the default window:
   * the last min(|history|, 100) entries, in their original order.
   */
  lemma DefaultWindowIsLastHundred(history: seq<PitchHistory.HistoryEntry>)
    ensures var rows := PitchHistory.VisibleHistory(history, PitchHistory.DefaultMaxHistoryItems);
      && |rows| == (if |history| < 100 then |history| else 100)
      && rows == history[|history| - |rows|..]
  {
  }
}
