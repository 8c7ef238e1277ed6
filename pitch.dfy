/** The fixed F-A-C-G-C-E tuning and the sharps-only pitch-class names
    (`TUNING`, `NOTES` and `getNoteFromString` in facgce-chord-explorer.tsx). */
module Pitch {
  import opened Seqs

  /** Open note of each string, lowest-sounding string first. */
  const Tuning: seq<string> := ["F", "A", "C", "G", "C", "E"]

  /** Pitch-class names, index = semitones above C. */
  const Notes: seq<string> := ["C", "C#", "D", "D#", "E", "F", "F#", "G", "G#", "A", "A#", "B"]

  /** The open strings' pitch classes written out by hand (F = 5, A = 9,
      C = 0, G = 7, C = 0, E = 4): the reference against which the name
      lookup of `getNoteFromString` is checked. */
  const OpenPitch: seq<int> := [5, 9, 0, 7, 0, 4]

  const StringCount := 6

  /** A pitch-class name is a natural letter A..G, optionally followed by '#'. */
  predicate IsNoteName(n: string) {
    (|n| == 1 || (|n| == 2 && n[1] == '#')) && 'A' <= n[0] <= 'G'
  }

  /** A note name is made of a capital letter A..G and possibly '#'. */
  lemma NoteNameChars(n: string)
    requires IsNoteName(n)
    ensures forall c :: c in n ==> c == '#' || 'A' <= c <= 'G'
  {
    assert n == [n[0]] || n == [n[0], '#'];
  }

  lemma NotesWellFormed()
    ensures |Notes| == 12 && NoDup(Notes)
    ensures forall n :: n in Notes ==> IsNoteName(n)
  {
  }

  lemma NoteAt(k: int)
    requires 0 <= k < 12
    ensures Notes[k] in Notes && IsNoteName(Notes[k])
  {
    NotesWellFormed();
  }

  lemma TuningMatchesOpenPitch(s: int)
    requires 0 <= s < StringCount
    ensures IndexOf(Notes, Tuning[s]) == OpenPitch[s]
  {
    NotesWellFormed();
    IndexOfDistinct(Notes, OpenPitch[s]);
  }

  /** The note a string sounds at a fret: its open note raised by `fret`
      semitones, wrapped to the octave. */
  function GetNoteFromString(stringNum: int, fret: int): (note: string)
    requires 0 <= stringNum < StringCount && fret >= 0
    ensures note in Notes && IsNoteName(note)
    ensures note == Notes[(OpenPitch[stringNum] + fret) % 12]
  {
    var openNoteIndex := IndexOf(Notes, Tuning[stringNum]);
    var k := (openNoteIndex + fret) % 12;
    FrettedIndex(stringNum, fret, openNoteIndex, k);
    Notes[k]
  }

  /** The wrapped index `getNoteFromString` computes is the open pitch class
      raised by `fret`, and names a note. */
  lemma FrettedIndex(stringNum: int, fret: int, openNoteIndex: int, k: int)
    requires 0 <= stringNum < StringCount && fret >= 0
    requires openNoteIndex == IndexOf(Notes, Tuning[stringNum])
    requires k == (openNoteIndex + fret) % 12
    ensures 0 <= k < 12 && k == (OpenPitch[stringNum] + fret) % 12
    ensures Notes[k] in Notes && IsNoteName(Notes[k])
  {
    TuningMatchesOpenPitch(stringNum);
    NoteAt(k);
  }

  /** `NOTES.indexOf(note)`: the semitone value of a name (C = 0). */
  function Semitone(note: string): (k: int)
    requires note in Notes
    ensures 0 <= k < 12 && Notes[k] == note
  {
    IndexOf(Notes, note)
  }

  lemma SemitoneOfName(k: int)
    requires 0 <= k < 12
    ensures Semitone(Notes[k]) == k
  {
    NotesWellFormed();
    IndexOfDistinct(Notes, k);
  }
}
