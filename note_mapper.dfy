/**
 * The integer half of the page's `noteFromPitch`: from a rounded MIDI note
 * number to a note name and an octave. The logarithms that turn a frequency
 * into that number and the cents deviation are not modelled; they arrive as a
 * `MidiEstimate`.
 */
module NoteMapper {
  import opened Options
  import Js

  /** The chromatic note names, starting at C. */
  const NoteStrings: seq<string> := ["C", "C#", "D", "D#", "E", "F", "F#", "G", "G#", "A", "A#", "B"]

  /** What the logarithm step of noteFromPitch yields: the nearest MIDI note and the deviation from it. */
  datatype MidiEstimate = MidiEstimate(rounded: int, cents: real)

  /** The result of noteFromPitch. `note` is None where the program indexes the table out of range (`undefined`). */
  datatype NoteInfo = NoteInfo(note: Option<string>, octave: int, noteIndex: int, cents: real)

  /** `noteStrings[n % 12]` with JavaScript's `%`: a negative remainder reads past the table. */
  function NoteName(n: int): (name: Option<string>)
    ensures n >= 0 ==> name == Some(NoteStrings[n % 12])
    ensures n < 0 ==> (name.Some? <==> n % 12 == 0)
    ensures n < 0 && n % 12 == 0 ==> name == Some("C")
  {
    var k := Js.Rem12(n);
    if k >= 0 then Some(NoteStrings[k]) else None
  }

  /** `Math.floor(n / 12) - 1`: the octave in which MIDI note 60 is C4. */
  function Octave(n: int): (octave: int)
    ensures 12 * (octave + 1) <= n < 12 * (octave + 2)
  {
    n / 12 - 1
  }

  /** noteFromPitch once the logarithm step has produced `est`: the whole MIDI number is kept as noteIndex. */
  function NoteFromMidi(est: MidiEstimate): (info: NoteInfo)
    ensures info.noteIndex == est.rounded && info.cents == est.cents
    ensures est.rounded >= 0 ==> info.note == Some(NoteStrings[est.rounded % 12])
    ensures 12 * (info.octave + 1) <= est.rounded < 12 * (info.octave + 2)
  {
    NoteInfo(NoteName(est.rounded), Octave(est.rounded), est.rounded, est.cents)
  }

  /** Octave and name together determine the MIDI number again. */
  lemma NoteFromMidiInjective(n: nat)
    ensures var info := NoteFromMidi(MidiEstimate(n, 0.0));
      12 * (info.octave + 1) + n % 12 == n && info.note == Some(NoteStrings[n % 12])
  {
  }

  /** The reference points: A4 is MIDI 69 and middle C is MIDI 60. */
  lemma NoteFromMidiLandmarks(cents: real)
    ensures NoteFromMidi(MidiEstimate(69, cents)) == NoteInfo(Some("A"), 4, 69, cents)
    ensures NoteFromMidi(MidiEstimate(60, cents)) == NoteInfo(Some("C"), 4, 60, cents)
    ensures NoteFromMidi(MidiEstimate(-1, cents)).note == None
  {
  }
}
