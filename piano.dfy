/**
 * The on-screen keyboard: one key for each MIDI note from C3 (48) to C5 (72),
 * each with its label, a sharp flag, an active flag for the detected note and
 * the rounding of the two end keys.
 */
module Piano {
  import Js

  const StartIndex: nat := 48
  const EndIndex: nat := 72

  const NoteNames: seq<string> := ["C", "C#", "D", "D#", "E", "F", "F#", "G", "G#", "A", "A#", "B"]

  /** The background of a key: black or white, turned to a darker or lighter blue while active. */
  datatype Fill = Black | White | DarkBlue | LightBlue

  datatype Key = Key(
    noteIndex: nat,
    display: string,
    isSharp: bool,
    isActive: bool,
    fill: Fill,
    roundedLeft: bool,
    roundedRight: bool)

  /** The later active class overrides the base colour class of the key. */
  function KeyFill(isSharp: bool, isActive: bool): (f: Fill)
    ensures f in {DarkBlue, LightBlue} <==> isActive
    ensures f in {Black, DarkBlue} <==> isSharp
  {
    if isActive then (if isSharp then DarkBlue else LightBlue)
    else if isSharp then Black else White
  }

  /** getNoteDisplay: the note name followed by `Math.floor(index / 12) - 1`. */
  function GetNoteDisplay(index: nat): string
  {
    NoteNames[index % 12] + Js.IntToString(index / 12 - 1)
  }

  /** `noteName.includes("#")`. */
  predicate IsSharp(index: nat)
  {
    '#' in NoteNames[index % 12]
  }

  /** The key at position i of the keyboard, for the detected note `activeNoteIndex`. */
  function KeyAt(i: nat, activeNoteIndex: int): Key
    requires i <= EndIndex - StartIndex
  {
    var noteIndex := StartIndex + i;
    var isSharp := IsSharp(noteIndex);
    var isActive := activeNoteIndex == noteIndex;
    Key(noteIndex, GetNoteDisplay(noteIndex), isSharp, isActive, KeyFill(isSharp, isActive),
        i == 0, i == EndIndex - StartIndex)
  }

  /** `Array.from({ length: endIndex - startIndex + 1 }).map(...)`. */
  function Keys(activeNoteIndex: int): (keys: seq<Key>)
    ensures |keys| == 25
    ensures forall i :: 0 <= i < |keys| ==> keys[i] == KeyAt(i, activeNoteIndex)
  {
    seq(EndIndex - StartIndex + 1, i requires 0 <= i <= EndIndex - StartIndex => KeyAt(i, activeNoteIndex))
  }

  // ----- Properties -----

  /** The keys are the notes 48, 49, ..., 72, in ascending order. */
  lemma KeysAscending(activeNoteIndex: int)
    ensures var keys := Keys(activeNoteIndex);
      && keys[0].noteIndex == 48 && keys[|keys| - 1].noteIndex == 72
      && forall i :: 0 <= i < |keys| - 1 ==> keys[i + 1].noteIndex == keys[i].noteIndex + 1
  {
  }

  /** Some key is lit exactly when the detected note lies in 48..72, and then only that one. */
  lemma ExactlyOneActive(activeNoteIndex: int)
    ensures var keys := Keys(activeNoteIndex);
      && ((exists i :: 0 <= i < |keys| && keys[i].isActive) <==> StartIndex <= activeNoteIndex <= EndIndex)
      && (forall i, j :: 0 <= i < |keys| && 0 <= j < |keys| && keys[i].isActive && keys[j].isActive ==> i == j)
      && (StartIndex <= activeNoteIndex <= EndIndex ==> keys[activeNoteIndex - StartIndex].isActive)
  {
    var keys := Keys(activeNoteIndex);
    if StartIndex <= activeNoteIndex <= EndIndex {
      assert keys[activeNoteIndex - StartIndex].isActive;
    }
  }

  /** The silent reading, noteIndex -1, lights no key. */
  lemma SilenceLightsNothing()
    ensures forall k :: k in Keys(-1) ==> !k.isActive
  {
  }

  /** Only the first key is rounded on the left, and only the last on the right (where the border is dropped). */
  lemma EndKeysRounded(activeNoteIndex: int)
    ensures var keys := Keys(activeNoteIndex);
      forall i :: 0 <= i < |keys| ==>
        (keys[i].roundedLeft <==> i == 0) && (keys[i].roundedRight <==> i == |keys| - 1)
  {
  }

  lemma SharpNames(k: nat)
    requires k < 12
    ensures '#' in NoteNames[k] <==> k in {1, 3, 6, 8, 10}
  {
    if k == 0 { assert NoteNames[k] == "C"; }
    else if k == 1 { assert NoteNames[k] == "C#"; }
    else if k == 2 { assert NoteNames[k] == "D"; }
    else if k == 3 { assert NoteNames[k] == "D#"; }
    else if k == 4 { assert NoteNames[k] == "E"; }
    else if k == 5 { assert NoteNames[k] == "F"; }
    else if k == 6 { assert NoteNames[k] == "F#"; }
    else if k == 7 { assert NoteNames[k] == "G"; }
    else if k == 8 { assert NoteNames[k] == "G#"; }
    else if k == 9 { assert NoteNames[k] == "A"; }
    else if k == 10 { assert NoteNames[k] == "A#"; }
    else { assert NoteNames[k] == "B"; }
  }

  /** A key is black exactly when its note is C#, D#, F#, G# or A#. */
  lemma SharpByOffset(index: nat)
    ensures IsSharp(index) <==> index % 12 in {1, 3, 6, 8, 10}
  {
    SharpNames(index % 12);
  }

  /** The labels at both ends and at A4. */
  lemma DisplayExamples()
    ensures GetNoteDisplay(48) == "C3"
    ensures GetNoteDisplay(69) == "A4"
    ensures GetNoteDisplay(72) == "C5"
  {
    assert Js.IntToString(3) == "3" by { assert Js.DigitChar(3) == '3'; }
    assert Js.IntToString(4) == "4" by { assert Js.DigitChar(4) == '4'; }
    assert Js.IntToString(5) == "5" by { assert Js.DigitChar(5) == '5'; }
  }

  /** Every key's label is its note name followed by a single octave digit, 3 to 5. */
  lemma DisplayOfKeys(index: nat)
    requires StartIndex <= index <= EndIndex
    ensures var s := GetNoteDisplay(index);
      && s[..|s| - 1] == NoteNames[index % 12]
      && Js.IsDigit(s[|s| - 1])
      && Js.DigitValue(s[|s| - 1]) == index / 12 - 1
      && 3 <= index / 12 - 1 <= 5
  {
    var octave := index / 12 - 1;
    var digits := Js.IntToString(octave);
    assert |digits| == 1;
    assert Js.DigitsValue(digits) == Js.DigitValue(digits[0]);
  }
}
