/** The progression generator of facgce-chord-explorer.tsx: the twelve
    progressions in C major (`PROGRESSIONS`), the chord-name-to-degree table
    (`rootToNashville`) and `generateProgression`, which picks a progression
    containing the degree of the chord on the fretboard and puts the user's
    fingering in place of every step of that degree. `Math.random()` is a
    parameter `random` in [0, 1). */
module Progressions {
  import opened Seqs
  import opened Pitch
  import opened ChordIdentifier

  /** One chord of a progression: its Nashville degree, its name, its
      fingering, and whether it is the user's own chord. */
  datatype Step = Step(nashville: string, name: string, frets: seq<int>, isUserChord: bool)

  datatype Progression = Progression(name: string, key: string, chords: seq<Step>)

  /** A library step, which is never the user's chord. */
  function Chord(nashville: string, name: string, frets: seq<int>): Step {
    Step(nashville, name, frets, false)
  }

  const Library: seq<Progression> := [
    Progression("I - V - vi - IV", "C", [
      Chord("I", "Cadd9", [7, 9, 0, 2, 0, 0]),
      Chord("V", "Gadd11", [2, 4, 0, 0, 5, 0]),
      Chord("vi", "Am7", [0, 0, 0, 2, 3, 0]),
      Chord("IV", "Fmaj9", [0, 0, 0, 0, 0, 0])]),
    Progression("I - IV - V", "C", [
      Chord("I", "Cmaj7", [5, 7, 0, 0, 0, 0]),
      Chord("IV", "Fmaj9", [0, 0, 0, 0, 0, 0]),
      Chord("V", "Gsus4", [2, 4, 0, 0, 5, 0])]),
    Progression("vi - IV - I - V", "C", [
      Chord("vi", "Am11", [0, 0, 0, 2, 5, 0]),
      Chord("IV", "Fmaj9", [0, 0, 0, 0, 0, 0]),
      Chord("I", "Cadd9", [7, 9, 0, 2, 0, 0]),
      Chord("V", "G6", [2, 4, 0, 0, 0, 0])]),
    Progression("I - vi - ii - V", "C", [
      Chord("I", "Cmaj7", [5, 7, 0, 0, 0, 0]),
      Chord("vi", "Am7", [0, 0, 0, 2, 3, 0]),
      Chord("ii", "Dm9", [3, 5, 2, 0, 3, 0]),
      Chord("V", "Gadd11", [2, 4, 0, 0, 5, 0])]),
    Progression("ii - V - I", "C", [
      Chord("ii", "Dm7", [3, 5, 2, 0, 3, 0]),
      Chord("V", "G6", [2, 4, 0, 0, 0, 0]),
      Chord("I", "Cmaj9", [5, 7, 0, 2, 0, 0])]),
    Progression("I - iii - vi - IV", "C", [
      Chord("I", "Cadd9", [7, 9, 0, 2, 0, 0]),
      Chord("iii", "Em7", [0, 2, 0, 0, 3, 0]),
      Chord("vi", "Am7", [0, 0, 0, 2, 3, 0]),
      Chord("IV", "Fmaj9", [0, 0, 0, 0, 0, 0])]),
    Progression("vi - V - IV - V", "C", [
      Chord("vi", "Am7", [0, 0, 0, 2, 3, 0]),
      Chord("V", "Gsus4", [2, 4, 0, 0, 5, 0]),
      Chord("IV", "Fmaj9", [0, 0, 0, 0, 0, 0]),
      Chord("V", "G6", [2, 4, 0, 0, 0, 0])]),
    Progression("I - iii - IV - V", "C", [
      Chord("I", "Cmaj7", [5, 7, 0, 0, 0, 0]),
      Chord("iii", "Em11", [0, 2, 0, 0, 5, 0]),
      Chord("IV", "Fmaj9", [0, 0, 0, 0, 0, 0]),
      Chord("V", "Gadd11", [2, 4, 0, 0, 5, 0])]),
    Progression("IV - V - iii - vi (Royal Road)", "C", [
      Chord("IV", "Fmaj9", [0, 0, 0, 0, 0, 0]),
      Chord("V", "Gsus4", [2, 4, 0, 0, 5, 0]),
      Chord("iii", "Em7", [0, 2, 0, 0, 3, 0]),
      Chord("vi", "Am11", [0, 0, 0, 2, 5, 0])]),
    Progression("vi - ii - V - I", "C", [
      Chord("vi", "Am7", [0, 0, 0, 2, 3, 0]),
      Chord("ii", "Dm9", [3, 5, 2, 0, 3, 0]),
      Chord("V", "G6", [2, 4, 0, 0, 0, 0]),
      Chord("I", "Cmaj9", [5, 7, 0, 2, 0, 0])]),
    Progression("I - ii - iii - IV", "C", [
      Chord("I", "Cmaj9", [5, 7, 0, 2, 0, 0]),
      Chord("ii", "Dm7", [3, 5, 2, 0, 3, 0]),
      Chord("iii", "Em7", [0, 2, 0, 0, 3, 0]),
      Chord("IV", "Fmaj9", [0, 0, 0, 0, 0, 0])]),
    Progression("I - V - vi - iii - IV", "C", [
      Chord("I", "Cadd9", [7, 9, 0, 2, 0, 0]),
      Chord("V", "G6", [2, 4, 0, 0, 0, 0]),
      Chord("vi", "Am11", [0, 0, 0, 2, 5, 0]),
      Chord("iii", "Em7", [0, 2, 0, 0, 3, 0]),
      Chord("IV", "Fmaj9", [0, 0, 0, 0, 0, 0])])
  ]

  /** `rootToNashville`, in its declaration order (which is the order
      `Object.entries` visits its string keys). */
  const RootToNashville: seq<(string, string)> := [
    ("C", "I"), ("D", "II"), ("Dm", "ii"), ("E", "III"), ("Em", "iii"), ("F", "IV"),
    ("G", "V"), ("A", "VI"), ("Am", "vi"), ("B", "VII"), ("Bm", "vii°")
  ]

  // ---------------------------------------------------------------------------
  // Degree lookup

  /** The value of the first key of `table` that `chordName` starts with. */
  function Lookup(table: seq<(string, string)>, chordName: string): (degree: Option<string>)
    ensures degree.None? <==> forall i :: 0 <= i < |table| ==> !StartsWith(chordName, table[i].0)
    ensures degree.Some? ==> exists i :: 0 <= i < |table| && FirstKeyAt(table, chordName, i) && degree.value == table[i].1
  {
    if |table| == 0 then None
    else if StartsWith(chordName, table[0].0) then
      assert FirstKeyAt(table, chordName, 0);
      Some(table[0].1)
    else
      var rest := Lookup(table[1..], chordName);
      assert forall i :: 1 <= i < |table| ==> table[i] == table[1..][i - 1];
      if rest.Some? then
        var i :| 0 <= i < |table[1..]| && FirstKeyAt(table[1..], chordName, i) && rest.value == table[1..][i].1;
        assert FirstKeyAt(table, chordName, i + 1);
        rest
      else rest
  }

  /** `i` is the first position whose key `chordName` starts with. */
  predicate FirstKeyAt(table: seq<(string, string)>, chordName: string, i: int) {
    0 <= i < |table| && StartsWith(chordName, table[i].0)
    && forall j :: 0 <= j < i ==> !StartsWith(chordName, table[j].0)
  }

  /** `currentNashville` for a chord name. */
  function NashvilleOf(chordName: string): Option<string> {
    Lookup(RootToNashville, chordName)
  }

  /** The `for … of Object.entries(rootToNashville)` loop with `break`. */
  method FindNashville(currentChordName: string) returns (currentNashville: Option<string>)
    ensures currentNashville == NashvilleOf(currentChordName)
  {
    currentNashville := None;
    var i := 0;
    while i < |RootToNashville|
      invariant 0 <= i <= |RootToNashville|
      invariant currentNashville == None
      invariant Lookup(RootToNashville[i..], currentChordName) == NashvilleOf(currentChordName)
    {
      var (key, value) := RootToNashville[i];
      LookupStep(RootToNashville, i, currentChordName);
      if StartsWith(currentChordName, key) {
        currentNashville := Some(value);
        break;
      }
      i := i + 1;
    }
  }

  /** One step of the lookup from position `i` of the table. */
  lemma LookupStep(table: seq<(string, string)>, i: int, chordName: string)
    requires 0 <= i < |table|
    ensures StartsWith(chordName, table[i].0) ==> Lookup(table[i..], chordName) == Some(table[i].1)
    ensures !StartsWith(chordName, table[i].0) ==> Lookup(table[i..], chordName) == Lookup(table[i + 1..], chordName)
  {
    assert table[i..][0] == table[i];
    assert table[i..][1..] == table[i + 1..];
  }

  // ---------------------------------------------------------------------------
  // Picking and substituting

  /** The progression has a step of the given degree (never, for `null`). */
  predicate HasDegree(p: Progression, degree: Option<string>) {
    exists j :: 0 <= j < |p.chords| && Some(p.chords[j].nashville) == degree
  }

  /** `PROGRESSIONS.filter(...)`: the progressions with a step of `degree`, in
      library order. */
  function Matching(ps: seq<Progression>, degree: Option<string>): (r: seq<Progression>)
    ensures |r| <= |ps|
    ensures forall p :: p in r <==> p in ps && HasDegree(p, degree)
    ensures |r| == 0 <==> forall i :: 0 <= i < |ps| ==> !HasDegree(ps[i], degree)
  {
    if |ps| == 0 then []
    else
      assert ps == [ps[0]] + ps[1..];
      var rest := Matching(ps[1..], degree);
      if HasDegree(ps[0], degree) then [ps[0]] + rest else rest
  }

  /** `Math.floor(random * n)`. */
  function RandomIndex(random: real, n: nat): (i: nat)
    requires 0.0 <= random < 1.0 && n > 0
    ensures i < n
  {
    ScaledBelow(random, n);
    (random * n as real).Floor
  }

  lemma ScaledBelow(random: real, n: nat)
    requires 0.0 <= random < 1.0 && n > 0
    ensures 0.0 <= random * n as real < n as real
  {
    assert (1.0 - random) * n as real > 0.0;
  }

  /** The step with the user's chord in place of a step of `degree`. */
  function UserStep(step: Step, degree: Option<string>, chordName: string, frets: seq<int>): (s: Step)
    ensures s.nashville == step.nashville
    ensures Some(step.nashville) == degree ==> s.name == chordName && s.frets == frets && s.isUserChord
    ensures Some(step.nashville) != degree ==> s == step
  {
    if Some(step.nashville) == degree then step.(name := chordName, frets := frets, isUserChord := true)
    else step
  }

  /** `modifiedProgression`: the name and key are kept and every step goes
      through `UserStep`. */
  function Substitute(p: Progression, degree: Option<string>, chordName: string, frets: seq<int>): (q: Progression)
    ensures q.name == p.name && q.key == p.key && |q.chords| == |p.chords|
    ensures forall j :: 0 <= j < |p.chords| ==> q.chords[j] == UserStep(p.chords[j], degree, chordName, frets)
  {
    p.(chords := seq(|p.chords|, j requires 0 <= j < |p.chords| => UserStep(p.chords[j], degree, chordName, frets)))
  }

  predicate HasSoundingString(frets: seq<int>) {
    exists i :: 0 <= i < |frets| && frets[i] >= 0
  }

  /** The progressions the pick is drawn from: those containing the degree,
      or the whole library when none does. */
  function Pool(degree: Option<string>): seq<Progression> {
    var matching := Matching(Library, degree);
    if |matching| > 0 then matching else Library
  }

  /** What `generateProgression` sets as the current progression. */
  function Generated(selectedFrets: seq<int>, random: real): Progression
    requires |selectedFrets| == StringCount && 0.0 <= random < 1.0
  {
    if !HasSoundingString(selectedFrets) then Library[RandomIndex(random, |Library|)]
    else
      var chordName := ChordName(selectedFrets);
      var degree := NashvilleOf(chordName);
      var pool := Pool(degree);
      Substitute(pool[RandomIndex(random, |pool|)], degree, chordName, selectedFrets)
  }

  method GenerateProgression(selectedFrets: seq<int>, random: real) returns (progression: Progression)
    requires |selectedFrets| == StringCount && 0.0 <= random < 1.0
    ensures progression == Generated(selectedFrets, random)
  {
    var hasValidChord := exists i :: 0 <= i < |selectedFrets| && selectedFrets[i] >= 0;
    if !hasValidChord {
      progression := Library[RandomIndex(random, |Library|)];
      return;
    }
    var currentChordName := IdentifyChord(selectedFrets);
    var currentNashville := FindNashville(currentChordName);
    var matchingProgressions := Matching(Library, currentNashville);
    var selectedProgression;
    if |matchingProgressions| > 0 {
      selectedProgression := matchingProgressions[RandomIndex(random, |matchingProgressions|)];
    } else {
      selectedProgression := Library[RandomIndex(random, |Library|)];
    }
    progression := Substitute(selectedProgression, currentNashville, currentChordName, selectedFrets);
  }

  // ---------------------------------------------------------------------------
  // Properties

  /** The degree of a natural note letter in C major, written as the
      one-letter keys of the table give it. */
  function LetterDegree(letter: char): string
    requires 'A' <= letter <= 'G'
  {
    match letter
      case 'C' => "I"
      case 'D' => "II"
      case 'E' => "III"
      case 'F' => "IV"
      case 'G' => "V"
      case 'A' => "VI"
      case _ => "VII"
  }

  /** A name starting with a note letter gets the degree of that letter: the
      one-letter key comes before the two-letter minor key, so "Dm7" maps to
      "II" and "Am7" to "VI". */
  lemma DegreeOfLetter(chordName: string)
    requires |chordName| > 0 && 'A' <= chordName[0] <= 'G'
    ensures NashvilleOf(chordName) == Some(LetterDegree(chordName[0]))
  {
    var k := LetterKey(chordName[0]);
    assert StartsWith(chordName, RootToNashville[k].0);
    var d := NashvilleOf(chordName);
    var i :| 0 <= i < |RootToNashville| && FirstKeyAt(RootToNashville, chordName, i) && d.value == RootToNashville[i].1;
    KeyFirstLetter(chordName, i);
  }

  /** Where the one-letter key of a note letter sits in the table. */
  function LetterKey(letter: char): (k: nat)
    requires 'A' <= letter <= 'G'
    ensures k < |RootToNashville| && RootToNashville[k].0 == [letter]
    ensures RootToNashville[k].1 == LetterDegree(letter)
  {
    match letter
      case 'C' => 0
      case 'D' => 1
      case 'E' => 3
      case 'F' => 5
      case 'G' => 6
      case 'A' => 7
      case _ => 9
  }

  /** Every key starts with its one-letter key, which comes no later. */
  lemma KeyFirstLetter(chordName: string, i: int)
    requires |chordName| > 0 && 'A' <= chordName[0] <= 'G'
    requires FirstKeyAt(RootToNashville, chordName, i)
    ensures i == LetterKey(chordName[0])
  {
    var k := LetterKey(chordName[0]);
    assert StartsWith(chordName, RootToNashville[k].0);
    assert RootToNashville[i].0[0] == chordName[0];
  }

  /** A name that does not start with a note letter has no degree. */
  lemma NoLetterNoDegree(chordName: string)
    requires |chordName| == 0 || !('A' <= chordName[0] <= 'G')
    ensures NashvilleOf(chordName).None?
  {
    forall i | 0 <= i < |RootToNashville| ensures !StartsWith(chordName, RootToNashville[i].0) {
      assert 'A' <= RootToNashville[i].0[0] <= 'G';
    }
  }

  /** The minor degrees of the table are never the result. */
  lemma MinorDegreesShadowed(chordName: string)
    ensures NashvilleOf(chordName) != Some("ii") && NashvilleOf(chordName) != Some("iii")
    ensures NashvilleOf(chordName) != Some("vi") && NashvilleOf(chordName) != Some("vii°")
  {
    if |chordName| > 0 && 'A' <= chordName[0] <= 'G' {
      DegreeOfLetter(chordName);
    } else {
      NoLetterNoDegree(chordName);
    }
  }

  /** The degrees the library's steps use. */
  predicate IsLibraryDegree(d: string) {
    d == "I" || d == "ii" || d == "iii" || d == "IV" || d == "V" || d == "vi"
  }

  /** A progression as the library holds it: every step has a library degree
      and none is marked as the user's chord. */
  predicate Plain(p: Progression) {
    forall j :: 0 <= j < |p.chords| ==> IsLibraryDegree(p.chords[j].nashville) && !p.chords[j].isUserChord
  }

  lemma LibraryPlain()
    ensures forall i :: 0 <= i < |Library| ==> Plain(Library[i])
  {
  }

  /** Substituting sets the flag exactly on the steps of the degree, gives
      those the user's name and fingering, and leaves every other step as it
      was. */
  lemma SubstituteFlagsIff(p: Progression, degree: Option<string>, chordName: string, frets: seq<int>)
    requires Plain(p)
    ensures var q := Substitute(p, degree, chordName, frets);
      forall j :: 0 <= j < |p.chords| ==>
        && (q.chords[j].isUserChord <==> Some(p.chords[j].nashville) == degree)
        && (q.chords[j].isUserChord ==> q.chords[j].name == chordName && q.chords[j].frets == frets)
        && (!q.chords[j].isUserChord ==> q.chords[j] == p.chords[j])
  {
  }

  /** A progression without a step of the degree comes out unchanged. */
  lemma SubstituteNoMatch(p: Progression, degree: Option<string>, chordName: string, frets: seq<int>)
    requires !HasDegree(p, degree)
    ensures Substitute(p, degree, chordName, frets) == p
  {
    var q := Substitute(p, degree, chordName, frets);
    assert q.chords == p.chords;
  }

  /** The name of a sounding fretting starts with a note letter, so it always
      has the degree of that letter. */
  lemma SoundingNameDegree(frets: seq<int>)
    requires |frets| == StringCount && HasSoundingString(frets)
    ensures var name := ChordName(frets);
      |name| > 0 && 'A' <= name[0] <= 'G' && NashvilleOf(name) == Some(LetterDegree(name[0]))
  {
    var k :| 0 <= k < |frets| && frets[k] >= 0;
    SoundingNonEmpty(frets, k);
    var d := Distinct(SoundingNotes(frets));
    assert d[0] in d;
    FormatStartsWithNoteOrCustom(d, BassNote(frets), Chosen(frets));
    DegreeOfLetter(ChordName(frets));
  }

  /** The degrees of D, E, A and B do not occur in the library. */
  lemma NoProgressionHas(degree: Option<string>)
    requires degree == Some("II") || degree == Some("III") || degree == Some("VI") || degree == Some("VII")
    ensures Matching(Library, degree) == []
  {
    LibraryPlain();
  }

  /** With no string sounding the pick is a library progression, unmodified;
      so it is when the chord's name starts with D, E, A or B, whose degrees
      no progression has. */
  lemma UnmatchedPicksLibrary(selectedFrets: seq<int>, random: real)
    requires |selectedFrets| == StringCount && 0.0 <= random < 1.0
    requires HasSoundingString(selectedFrets) ==>
      var name := ChordName(selectedFrets);
      |name| > 0 && (name[0] == 'D' || name[0] == 'E' || name[0] == 'A' || name[0] == 'B')
    ensures Generated(selectedFrets, random) == Library[RandomIndex(random, |Library|)]
  {
    if HasSoundingString(selectedFrets) {
      var name := ChordName(selectedFrets);
      SoundingNameDegree(selectedFrets);
      LetterUnmatched(name[0]);
      SoundingPick(selectedFrets, random, name, NashvilleOf(name));
    }
  }

  lemma LetterUnmatched(letter: char)
    requires letter == 'D' || letter == 'E' || letter == 'A' || letter == 'B'
    ensures Matching(Library, Some(LetterDegree(letter))) == []
  {
    NoProgressionHas(Some(LetterDegree(letter)));
  }

  /** The degrees of C, F and G are in the first progression, so a chord
      named after one of them always finds a match. */
  lemma LetterMatched(letter: char)
    requires letter == 'C' || letter == 'F' || letter == 'G'
    ensures |Matching(Library, Some(LetterDegree(letter)))| > 0
  {
    var p := Library[0];
    var j := if letter == 'C' then 0 else if letter == 'G' then 1 else 3;
    assert Some(p.chords[j].nashville) == Some(LetterDegree(letter));
    assert !(forall i :: 0 <= i < |Library| ==> !HasDegree(Library[i], Some(LetterDegree(letter))));
  }

  /** The `Custom (…)` fallback starts with 'C', so it gets degree I and
      always finds a progression. */
  lemma CustomNameMatches(chordName: string)
    requires StartsWith(chordName, "Custom (")
    ensures NashvilleOf(chordName) == Some("I")
    ensures |Matching(Library, NashvilleOf(chordName))| > 0
  {
    assert chordName[0] == 'C';
    DegreeOfLetter(chordName);
    LetterMatched('C');
  }

  /** The sounding case of `generateProgression` when no progression matches. */
  lemma SoundingPick(selectedFrets: seq<int>, random: real, chordName: string, degree: Option<string>)
    requires |selectedFrets| == StringCount && 0.0 <= random < 1.0 && HasSoundingString(selectedFrets)
    requires chordName == ChordName(selectedFrets) && degree == NashvilleOf(chordName)
    requires Matching(Library, degree) == []
    ensures Generated(selectedFrets, random) == Library[RandomIndex(random, |Library|)]
  {
    PickWithoutMatch(Library, RandomIndex(random, |Library|), degree, chordName, selectedFrets);
  }

  /** When no progression of a list has the degree, substituting into any of
      them changes nothing. */
  lemma PickWithoutMatch(ps: seq<Progression>, i: int, degree: Option<string>, chordName: string, frets: seq<int>)
    requires 0 <= i < |ps| && Matching(ps, degree) == []
    ensures Substitute(ps[i], degree, chordName, frets) == ps[i]
  {
    SubstituteNoMatch(ps[i], degree, chordName, frets);
  }

  /** With a sounding chord whose degree some progression has, the pick is one
      of those progressions, and the user's chord appears in it with their
      name and fingering, in place of exactly the steps of that degree. */
  lemma MatchedPickHoldsUserChord(selectedFrets: seq<int>, random: real)
    requires |selectedFrets| == StringCount && 0.0 <= random < 1.0
    requires HasSoundingString(selectedFrets)
    requires |Matching(Library, NashvilleOf(ChordName(selectedFrets)))| > 0
    ensures var name := ChordName(selectedFrets);
      var degree := NashvilleOf(name);
      var g := Generated(selectedFrets, random);
      && (exists p :: p in Library && HasDegree(p, degree) && g == Substitute(p, degree, name, selectedFrets))
      && (exists j :: 0 <= j < |g.chords| && g.chords[j].isUserChord && g.chords[j].name == name && g.chords[j].frets == selectedFrets)
  {
    var name := ChordName(selectedFrets);
    var degree := NashvilleOf(name);
    var m := Matching(Library, degree);
    var p := m[RandomIndex(random, |m|)];
    assert p in m;
    var g := Substitute(p, degree, name, selectedFrets);
    assert Generated(selectedFrets, random) == g;
    var j :| 0 <= j < |p.chords| && Some(p.chords[j].nashville) == degree;
    assert g.chords[j] == UserStep(p.chords[j], degree, name, selectedFrets);
  }
}
