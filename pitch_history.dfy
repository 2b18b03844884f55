/**
 * The pitch history timeline: which recorded ticks are drawn, which colour
 * each bar takes, where a bar sits across the note columns, and the vertical
 * grid lines, one per note of the displayed range.
 */
module PitchHistory {
  import opened Options
  import Js

  /** One tick of the history: the cents deviation and the MIDI note, -1 for an unvoiced tick. */
  datatype HistoryEntry = HistoryEntry(cents: real, noteIndex: int)

  /** The default of the `maxHistoryItems` property. */
  const DefaultMaxHistoryItems: int := 100

  /** The offsets within an octave of C, D, E, F, G, A and B. */
  const WhiteKeyOffsets: seq<int> := [0, 2, 4, 5, 7, 9, 11]

  datatype Color = Red | Yellow | Green

  /** A row of the timeline; an unvoiced tick leaves its row empty. */
  datatype Row = Row(bar: Option<Bar>)
  datatype Bar = Bar(left: real, color: Color)

  datatype GridLine = GridLine(midiNote: int, isWhiteKey: bool, left: real)

  /** `history.slice(-maxHistoryItems)`: the rows that are drawn. */
  function VisibleHistory(history: seq<HistoryEntry>, maxHistoryItems: int): (rows: seq<HistoryEntry>)
    ensures maxHistoryItems > 0 ==> |rows| == Js.Min(|history|, maxHistoryItems)
    ensures maxHistoryItems == 0 ==> rows == history
    ensures |rows| <= |history| && rows == history[|history| - |rows|..]
  {
    Js.SliceFrom(history, -maxHistoryItems)
  }

  function Abs(x: real): real { if x < 0.0 then -x else x }

  /** The colour of a bar: within 5 cents green, within 12 yellow, otherwise (and for -1) red. */
  function IndicatorColor(e: HistoryEntry): (c: Color)
    ensures c == Green <==> e.noteIndex != -1 && Abs(e.cents) <= 5.0
    ensures c == Yellow <==> e.noteIndex != -1 && 5.0 < Abs(e.cents) <= 12.0
    ensures c == Red <==> e.noteIndex == -1 || 12.0 < Abs(e.cents)
  {
    var color := Red;
    if e.noteIndex != -1 then
      (if Abs(e.cents) <= 5.0 then Green else if Abs(e.cents) <= 12.0 then Yellow else color)
    else color
  }

  /** `maxNoteIndex - minNoteIndex + 1` columns of equal width. */
  function ColumnWidth(minNoteIndex: int, maxNoteIndex: int): (w: real)
    requires minNoteIndex <= maxNoteIndex
    ensures w > 0.0 && w * ((maxNoteIndex - minNoteIndex + 1) as real) == 100.0
  {
    100.0 / ((maxNoteIndex - minNoteIndex + 1) as real)
  }

  /** The centre of the column of `noteIndex`. */
  function BarLeft(noteIndex: int, minNoteIndex: int, maxNoteIndex: int): real
    requires minNoteIndex <= maxNoteIndex
  {
    var w := ColumnWidth(minNoteIndex, maxNoteIndex);
    ((noteIndex - minNoteIndex) as real) * w + w / 2.0
  }

  /** The rows of the timeline: one per visible entry, with a bar only for voiced entries. */
  function Rows(history: seq<HistoryEntry>, minNoteIndex: int, maxNoteIndex: int, maxHistoryItems: int): (rows: seq<Row>)
    requires minNoteIndex <= maxNoteIndex
    ensures var visible := VisibleHistory(history, maxHistoryItems);
      && |rows| == |visible|
      && forall i :: 0 <= i < |rows| ==>
           (rows[i].bar.Some? <==> visible[i].noteIndex != -1)
           && (rows[i].bar.Some? ==>
                 rows[i].bar.value ==
                 Bar(BarLeft(visible[i].noteIndex, minNoteIndex, maxNoteIndex), IndicatorColor(visible[i])))
  {
    var visible := VisibleHistory(history, maxHistoryItems);
    seq(|visible|, i requires 0 <= i < |visible| =>
      if visible[i].noteIndex != -1
      then Row(Some(Bar(BarLeft(visible[i].noteIndex, minNoteIndex, maxNoteIndex), IndicatorColor(visible[i]))))
      else Row(None))
  }

  /** `whiteKeyMidiOffsetsInOctave.includes(midiNote % 12)`, with JavaScript's `%`. */
  predicate IsWhiteKey(midiNote: int)
  {
    Js.Rem12(midiNote) in WhiteKeyOffsets
  }

  /** One grid line per note of the range, line i at i column widths from the left. */
  function GridLines(minNoteIndex: int, maxNoteIndex: int): (lines: seq<GridLine>)
    requires minNoteIndex <= maxNoteIndex
    ensures |lines| == maxNoteIndex - minNoteIndex + 1
    ensures forall i :: 0 <= i < |lines| ==>
      lines[i] == GridLine(minNoteIndex + i, IsWhiteKey(minNoteIndex + i),
                           (i as real) * ColumnWidth(minNoteIndex, maxNoteIndex))
  {
    var w := ColumnWidth(minNoteIndex, maxNoteIndex);
    seq(maxNoteIndex - minNoteIndex + 1, i requires 0 <= i <= maxNoteIndex - minNoteIndex =>
      GridLine(minNoteIndex + i, IsWhiteKey(minNoteIndex + i), (i as real) * w))
  }

  // ----- Properties -----

  /**
   * With a positive window the rows are exactly the last min(|history|, k) entries,
   * in their original order.
   */
  lemma VisibleIsLastEntries(history: seq<HistoryEntry>, k: int)
    requires k > 0
    ensures var rows := VisibleHistory(history, k);
      |rows| == (if |history| < k then |history| else k)
      && forall i :: 0 <= i < |rows| ==> rows[i] == history[|history| - |rows| + i]
  {
  }

  /** Pushing onto a window of capacity k: append, and drop the oldest once it is full. */
  function RingPush(window: seq<HistoryEntry>, e: HistoryEntry, k: int): (w: seq<HistoryEntry>)
    requires k > 0
    ensures |w| == Js.Min(|window| + 1, k)
    ensures w == window[|window| - (|w| - 1)..] + [e]
  {
    if |window| < k then window + [e] else window[|window| - k + 1..] + [e]
  }

  /**
   * Appending to the unbounded history and taking the window at read time is the
   * same as keeping a FIFO buffer of capacity k and evicting the oldest entry.
   */
  lemma {:induction false} WindowIsRingBuffer(history: seq<HistoryEntry>, e: HistoryEntry, k: int)
    requires k > 0
    ensures VisibleHistory(history + [e], k) == RingPush(VisibleHistory(history, k), e, k)
  {
    var h := history + [e];
    var w := VisibleHistory(history, k);
    var w2 := VisibleHistory(h, k);
    if |history| < k {
      assert w == history;
      assert w2 == h;
    } else {
      assert w == history[|history| - k..];
      assert w2 == h[|h| - k..];
      assert w2 == history[|history| - k + 1..] + [e];
      assert w[|w| - k + 1..] == history[|history| - k + 1..];
    }
  }

  /** The timeline capacity property: with capacity 3, five pushes keep the last three, in order. */
  lemma WindowOfThree(a: HistoryEntry, b: HistoryEntry, c: HistoryEntry, d: HistoryEntry, e: HistoryEntry)
    ensures VisibleHistory([a, b, c, d, e], 3) == [c, d, e]
  {
    assert [a, b, c, d, e][2..] == [c, d, e];
  }

  /** A silent tick always shows red and never draws a bar, yet still takes a row. */
  lemma SilentRowIsEmpty(history: seq<HistoryEntry>, minNoteIndex: int, maxNoteIndex: int, k: int, i: nat)
    requires minNoteIndex <= maxNoteIndex
    requires i < |VisibleHistory(history, k)| && VisibleHistory(history, k)[i].noteIndex == -1
    ensures IndicatorColor(VisibleHistory(history, k)[i]) == Red
    ensures i < |Rows(history, minNoteIndex, maxNoteIndex, k)|
    ensures Rows(history, minNoteIndex, maxNoteIndex, k)[i].bar == None
  {
  }

  /**
   * A bar for a note of the displayed range sits at the exact middle of that note's
   * column, strictly between its two grid lines and strictly inside (0, 100).
   */
  lemma BarInsideColumn(noteIndex: int, minNoteIndex: int, maxNoteIndex: int)
    requires minNoteIndex <= noteIndex <= maxNoteIndex
    ensures var w := ColumnWidth(minNoteIndex, maxNoteIndex);
      var i := (noteIndex - minNoteIndex) as real;
      var left := BarLeft(noteIndex, minNoteIndex, maxNoteIndex);
      && left == (i * w + (i + 1.0) * w) / 2.0
      && i * w < left < (i + 1.0) * w
      && 0.0 < left < 100.0
  {
    var w := ColumnWidth(minNoteIndex, maxNoteIndex);
    var n := (maxNoteIndex - minNoteIndex + 1) as real;
    var i := (noteIndex - minNoteIndex) as real;
    assert i + 1.0 <= n;
    assert (i + 1.0) * w <= n * w == 100.0;
    assert (i + 1.0) * w - w / 2.0 < 100.0;
  }

  lemma ScaleBelow(i: real, n: real, w: real)
    requires 0.0 <= i && i + 1.0 <= n && w > 0.0
    ensures 0.0 <= i * w < n * w
  {
    assert (i + 1.0) * w <= n * w;
  }

  /** Every grid line stands in [0, 100). */
  lemma GridLinesInRange(minNoteIndex: int, maxNoteIndex: int)
    requires minNoteIndex <= maxNoteIndex
    ensures var lines := GridLines(minNoteIndex, maxNoteIndex);
      forall i :: 0 <= i < |lines| ==> 0.0 <= lines[i].left < 100.0
  {
    var lines := GridLines(minNoteIndex, maxNoteIndex);
    var w := ColumnWidth(minNoteIndex, maxNoteIndex);
    var n := (maxNoteIndex - minNoteIndex + 1) as real;
    forall i | 0 <= i < |lines|
      ensures 0.0 <= lines[i].left < 100.0
    {
      ScaleBelow(i as real, n, w);
    }
  }

  /** For notes at or above C-1 the white keys are exactly those whose octave offset is 0, 2, 4, 5, 7, 9 or 11. */
  lemma WhiteKeyByOffset(midiNote: int)
    requires midiNote >= 0
    ensures IsWhiteKey(midiNote) <==> midiNote % 12 in {0, 2, 4, 5, 7, 9, 11}
  {
  }

  /** Below zero JavaScript's `%` goes negative and no grid line counts as white. */
  lemma NegativeNotesAreNotWhite(midiNote: int)
    requires midiNote < 0 && midiNote % 12 != 0
    ensures !IsWhiteKey(midiNote)
  {
  }
}
