/** Chord naming from a six-string fretting (`identifyChord` in
    facgce-chord-explorer.tsx): drop muted strings, handle the one- and
    two-note cases, try every distinct note as root, score the classified
    candidates with fixed bonuses, keep the first best one and name it,
    with a slash bass when the bass is not the root. */
module ChordIdentifier {
  import opened Seqs
  import opened Pitch
  import opened ChordType

  const NoNotesSelected := "No notes selected"

  /** Scoring table: roots of the C major scale, the roots that are common in
      this tuning, and the chord qualities counted as simple. */
  const CMajorScale: seq<int> := [0, 2, 4, 5, 7, 9, 11]
  const CommonRoots: seq<string> := ["C", "F", "G", "A", "D", "E"]
  const SimpleChords: seq<string> := ["", "m", "sus2", "sus4", "add9", "madd9"]

  datatype Candidate = Candidate(root: string, quality: string, intervals: seq<int>, score: int, noteCount: int)

  /** The note each string sounds, `None` for a muted (negative) fret. */
  function PlayedNotes(frets: seq<int>): seq<Option<string>>
    requires |frets| <= StringCount
  {
    seq(|frets|, i requires 0 <= i < |frets| =>
      if frets[i] >= 0 then Some(GetNoteFromString(i, frets[i])) else None)
  }

  /** The sounding notes in string order, muted strings dropped. */
  function SoundingNotes(frets: seq<int>): (notes: seq<string>)
    requires |frets| <= StringCount
    ensures forall n :: n in notes ==> n in Notes && IsNoteName(n)
    ensures |notes| == 0 <==> forall i :: 0 <= i < |frets| ==> frets[i] < 0
  {
    var played := PlayedNotes(frets);
    assert forall i :: 0 <= i < |frets| && frets[i] >= 0 ==> played[i] in played;
    PlayedNotesAreNames(frets);
    var notes := Somes(played);
    assert |notes| > 0 ==> notes[0] in notes;
    notes
  }

  lemma PlayedNotesAreNames(frets: seq<int>)
    requires |frets| <= StringCount
    ensures forall n :: Some(n) in PlayedNotes(frets) ==> n in Notes && IsNoteName(n)
  {
    var played := PlayedNotes(frets);
    forall n | Some(n) in played ensures n in Notes && IsNoteName(n) {
      var i :| 0 <= i < |played| && played[i] == Some(n);
    }
  }

  /** The note on the lowest-indexed sounding string. */
  function BassNote(frets: seq<int>): (bass: Option<string>)
    requires |frets| <= StringCount
    ensures bass == if |SoundingNotes(frets)| == 0 then None else Some(SoundingNotes(frets)[0])
  {
    FirstSome(PlayedNotes(frets))
  }

  /** The bass is the note of the first unmuted string, wherever it is. */
  lemma BassIsLowestSoundingString(frets: seq<int>, k: int)
    requires |frets| == StringCount && 0 <= k < |frets| && frets[k] >= 0
    requires forall j :: 0 <= j < k ==> frets[j] < 0
    ensures BassNote(frets) == Some(GetNoteFromString(k, frets[k]))
  {
    FirstSomeAt(PlayedNotes(frets), k);
  }

  /** `uniqueNotes.map(noteToSemitone)`. */
  function Semitones(names: seq<string>): (semis: seq<int>)
    requires forall n :: n in names ==> n in Notes
    ensures |semis| == |names|
    ensures forall i :: 0 <= i < |semis| ==> 0 <= semis[i] < 12 && Notes[semis[i]] == names[i]
    ensures NoDup(names) ==> NoDup(semis)
  {
    seq(|names|, i requires 0 <= i < |names| => Semitone(names[i]))
  }

  /** `(s - rootSemitone + 12) % 12` for every semitone, sorted ascending. */
  function Intervals(semitones: seq<int>, rootSemitone: int): seq<int> {
    Sort(seq(|semitones|, i requires 0 <= i < |semitones| => (semitones[i] - rootSemitone + 12) % 12))
  }

  /** The intervals above a root are, as a set, the listed shifted notes. */
  lemma IntervalMembers(semitones: seq<int>, rootSemitone: int, shifted: seq<int>)
    requires |shifted| == |semitones|
    requires forall i :: 0 <= i < |semitones| ==> shifted[i] == (semitones[i] - rootSemitone + 12) % 12
    ensures forall y :: y in Intervals(semitones, rootSemitone) <==> y in shifted
  {
    assert shifted == seq(|semitones|, i requires 0 <= i < |semitones| => (semitones[i] - rootSemitone + 12) % 12);
  }

  lemma ShiftInjective(a: int, b: int, r: int)
    requires 0 <= a < 12 && 0 <= b < 12 && 0 <= r < 12
    requires (a - r + 12) % 12 == (b - r + 12) % 12
    ensures a == b
  {
  }

  /** For a candidate root taken from distinct pitch classes, the intervals
      are ascending without repetitions, lie in one octave, contain the
      root's own 0, and there is one interval per distinct note. */
  lemma IntervalsShape(semitones: seq<int>, rootSemitone: int)
    requires NoDup(semitones) && forall i :: 0 <= i < |semitones| ==> 0 <= semitones[i] < 12
    requires rootSemitone in semitones
    ensures var iv := Intervals(semitones, rootSemitone);
      StrictlySorted(iv) && InOctave(iv) && 0 in iv && |iv| == |semitones|
  {
    var shifted := seq(|semitones|, i requires 0 <= i < |semitones| => (semitones[i] - rootSemitone + 12) % 12);
    forall i, j | 0 <= i < j < |shifted| ensures shifted[i] != shifted[j] {
      if shifted[i] == shifted[j] {
        ShiftInjective(semitones[i], semitones[j], rootSemitone);
      }
    }
    SortStrict(shifted);
    var k :| 0 <= k < |semitones| && semitones[k] == rootSemitone;
    assert shifted[k] == 0;
  }

  predicate CompleteTriad(intervals: seq<int>) {
    0 in intervals && |intervals| >= 3 && (3 in intervals || 4 in intervals) && 7 in intervals
  }

  /** The heuristic score of a classified root: 100, +20 for a root of the
      C major scale, +10 for a common root, +15 for a simple quality, +25
      for a complete triad, +30 when the root is the bass. */
  function Score(rootSemitone: int, quality: string, intervals: seq<int>, bass: Option<string>): (score: int)
    requires 0 <= rootSemitone < 12
    ensures 100 <= score <= 200
  {
    100
    + (if rootSemitone in CMajorScale then 20 else 0)
    + (if Notes[rootSemitone] in CommonRoots then 10 else 0)
    + (if quality in SimpleChords then 15 else 0)
    + (if CompleteTriad(intervals) then 25 else 0)
    + (if Some(Notes[rootSemitone]) == bass then 30 else 0)
  }

  /** Every common root is a root of the C major scale, so the +10 bonus
      never comes without the +20 one. */
  lemma CommonRootsAreDiatonic(rootSemitone: int)
    requires 0 <= rootSemitone < 12
    ensures Notes[rootSemitone] in CommonRoots ==> rootSemitone in CMajorScale
  {
  }

  /** The non-inversion bonus is exactly 30 and depends on nothing else. */
  lemma BassBonus(rootSemitone: int, quality: string, intervals: seq<int>, other: Option<string>)
    requires 0 <= rootSemitone < 12 && other != Some(Notes[rootSemitone])
    ensures Score(rootSemitone, quality, intervals, Some(Notes[rootSemitone]))
         == Score(rootSemitone, quality, intervals, other) + 30
  {
  }

  /** The candidate for one root, or `None` when the classifier gives `null`. */
  function CandidateFor(semitones: seq<int>, rootSemitone: int, bass: Option<string>): (c: Option<Candidate>)
    requires 0 <= rootSemitone < 12
  {
    var intervals := Intervals(semitones, rootSemitone);
    match IdentifyChordType(intervals)
    case None => None
    case Some(q) => Some(Candidate(Notes[rootSemitone], q, intervals, Score(rootSemitone, q, intervals, bass), |semitones|))
  }

  /** A candidate's score lies in 100..200, its root is a note name and
      its quality one of the classifier's labels (so neither holds a slash). */
  predicate WellFormed(c: Candidate) {
    100 <= c.score <= 200 && IsNoteName(c.root) && c.quality in QualityLabels && '/' !in c.quality
  }

  lemma CandidateWellFormed(semitones: seq<int>, rootSemitone: int, bass: Option<string>)
    requires 0 <= rootSemitone < 12
    ensures CandidateFor(semitones, rootSemitone, bass).Some? ==> WellFormed(CandidateFor(semitones, rootSemitone, bass).value)
  {
    var intervals := Intervals(semitones, rootSemitone);
    var q := IdentifyChordType(intervals);
    if q.Some? {
      NotesWellFormed();
      assert Notes[rootSemitone] in Notes;
      QualityIsLabel(intervals);
      LabelsHaveNoSlash();
      var k :| 0 <= k < |QualityLabels| && QualityLabels[k] == q.value;
      var c := Candidate(Notes[rootSemitone], q.value, intervals, Score(rootSemitone, q.value, intervals, bass), |semitones|);
      assert CandidateFor(semitones, rootSemitone, bass) == Some(c);
      assert WellFormed(c);
    }
  }

  /** The candidates pushed while trying each of `roots` in turn. */
  function CandidatesOf(roots: seq<int>, semitones: seq<int>, bass: Option<string>): (cands: seq<Candidate>)
    requires forall i :: 0 <= i < |roots| ==> 0 <= roots[i] < 12
    ensures |cands| <= |roots|
  {
    if roots == [] then []
    else
      var last := roots[|roots| - 1];
      var init := CandidatesOf(roots[..|roots| - 1], semitones, bass);
      match CandidateFor(semitones, last, bass)
      case None => init
      case Some(c) => init + [c]
  }

  /** The classifier's answer for each of `roots`, in order: one entry per
      root, `None` where `identifyChordType` gives `null`. */
  function Tried(roots: seq<int>, semitones: seq<int>, bass: Option<string>): (tried: seq<Option<Candidate>>)
    requires forall i :: 0 <= i < |roots| ==> 0 <= roots[i] < 12
    ensures |tried| == |roots|
  {
    if roots == [] then []
    else Tried(roots[..|roots| - 1], semitones, bass) + [CandidateFor(semitones, roots[|roots| - 1], bass)]
  }

  /** The candidates are the classified answers for the roots, in root order:
      `push` runs exactly for the roots the classifier names, so every
      candidate occurs as often as the classifier produces it. */
  lemma {:induction false} CandidatesOfTried(roots: seq<int>, semitones: seq<int>, bass: Option<string>)
    requires forall i :: 0 <= i < |roots| ==> 0 <= roots[i] < 12
    ensures CandidatesOf(roots, semitones, bass) == Somes(Tried(roots, semitones, bass))
  {
    if roots != [] {
      var n := |roots| - 1;
      var o := CandidateFor(semitones, roots[n], bass);
      CandidatesOfTried(roots[..n], semitones, bass);
      var prev := CandidatesOf(roots[..n], semitones, bass);
      var ti := Tried(roots[..n], semitones, bass);
      CandidatesOfSnoc(roots, semitones, bass, o);
      TriedSnoc(roots, semitones, bass, o);
      SomesSnoc(ti, prev, o);
    }
  }

  lemma CandidatesOfSnoc(roots: seq<int>, semitones: seq<int>, bass: Option<string>, o: Option<Candidate>)
    requires forall i :: 0 <= i < |roots| ==> 0 <= roots[i] < 12
    requires |roots| > 0 && o == CandidateFor(semitones, roots[|roots| - 1], bass)
    ensures CandidatesOf(roots, semitones, bass) ==
      CandidatesOf(roots[..|roots| - 1], semitones, bass) + (if o.Some? then [o.value] else [])
  {
  }

  lemma TriedSnoc(roots: seq<int>, semitones: seq<int>, bass: Option<string>, o: Option<Candidate>)
    requires forall i :: 0 <= i < |roots| ==> 0 <= roots[i] < 12
    requires |roots| > 0 && o == CandidateFor(semitones, roots[|roots| - 1], bass)
    ensures Tried(roots, semitones, bass) == Tried(roots[..|roots| - 1], semitones, bass) + [o]
  {
  }

  /** Entry `i` of `Tried` is the classifier's answer for root `roots[i]`. */
  lemma {:induction false} TriedAt(roots: seq<int>, semitones: seq<int>, bass: Option<string>, i: int, r: int)
    requires forall k :: 0 <= k < |roots| ==> 0 <= roots[k] < 12
    requires 0 <= i < |roots| && r == roots[i]
    ensures Tried(roots, semitones, bass)[i] == CandidateFor(semitones, r, bass)
  {
    var n := |roots| - 1;
    if i < n {
      TriedPrefix(roots, semitones, bass, i);
      TriedAt(roots[..n], semitones, bass, i, r);
    } else {
      TriedLast(roots, semitones, bass, r);
    }
  }

  lemma TriedPrefix(roots: seq<int>, semitones: seq<int>, bass: Option<string>, i: int)
    requires forall k :: 0 <= k < |roots| ==> 0 <= roots[k] < 12
    requires 0 <= i < |roots| - 1
    ensures roots[..|roots| - 1][i] == roots[i]
    ensures Tried(roots, semitones, bass)[i] == Tried(roots[..|roots| - 1], semitones, bass)[i]
  {
  }

  lemma TriedLast(roots: seq<int>, semitones: seq<int>, bass: Option<string>, r: int)
    requires forall k :: 0 <= k < |roots| ==> 0 <= roots[k] < 12
    requires |roots| > 0 && r == roots[|roots| - 1]
    ensures Tried(roots, semitones, bass)[|roots| - 1] == CandidateFor(semitones, r, bass)
  {
  }

  /** Hence a candidate is collected exactly when some root classifies as it. */
  lemma CandidatesOfMembers(roots: seq<int>, semitones: seq<int>, bass: Option<string>, c: Candidate)
    requires forall i :: 0 <= i < |roots| ==> 0 <= roots[i] < 12
    ensures c in CandidatesOf(roots, semitones, bass) <==>
      exists i :: 0 <= i < |roots| && CandidateFor(semitones, roots[i], bass) == Some(c)
  {
    CandidatesOfTried(roots, semitones, bass);
    var t := Tried(roots, semitones, bass);
    if c in CandidatesOf(roots, semitones, bass) {
      var i :| 0 <= i < |t| && t[i] == Some(c);
      TriedAt(roots, semitones, bass, i, roots[i]);
    }
    if exists i :: 0 <= i < |roots| && CandidateFor(semitones, roots[i], bass) == Some(c) {
      var i :| 0 <= i < |roots| && CandidateFor(semitones, roots[i], bass) == Some(c);
      TriedAt(roots, semitones, bass, i, roots[i]);
      assert t[i] in t;
    }
  }

  lemma {:induction false} CandidatesWellFormed(roots: seq<int>, semitones: seq<int>, bass: Option<string>)
    requires forall i :: 0 <= i < |roots| ==> 0 <= roots[i] < 12
    ensures forall c :: c in CandidatesOf(roots, semitones, bass) ==> WellFormed(c)
  {
    if roots != [] {
      CandidatesWellFormed(roots[..|roots| - 1], semitones, bass);
      CandidateWellFormed(semitones, roots[|roots| - 1], bass);
    }
  }

  /** After the stable descending sort, element 0 is the first candidate of
      maximal score. */
  function BestIndex(cands: seq<Candidate>): (k: nat)
    requires |cands| > 0
    ensures k < |cands|
    ensures forall j :: 0 <= j < |cands| ==> cands[j].score <= cands[k].score
    ensures forall j :: 0 <= j < k ==> cands[j].score < cands[k].score
  {
    if |cands| == 1 then 0
    else
      var k := BestIndex(cands[..|cands| - 1]);
      if cands[|cands| - 1].score > cands[k].score then |cands| - 1 else k
  }

  /** The candidate `identifyChord` names when at least three distinct notes
      sound: the first of maximal score among those the classifier accepts;
      `None` when fewer notes sound or no root classifies. */
  function Chosen(frets: seq<int>): (chosen: Option<Candidate>)
    requires |frets| == StringCount
    ensures chosen.Some? ==> WellFormed(chosen.value)
  {
    var uniqueNotes := Distinct(SoundingNotes(frets));
    if |uniqueNotes| < 3 then None
    else
      var semitones := Semitones(uniqueNotes);
      var candidates := CandidatesOf(semitones, semitones, BassNote(frets));
      if |candidates| == 0 then None
      else
        CandidatesWellFormed(semitones, semitones, BassNote(frets));
        var k := BestIndex(candidates);
        assert candidates[k] in candidates;
        Some(candidates[k])
  }

  /** The chord name `identifyChord` returns. */
  function ChordName(frets: seq<int>): (name: string)
    requires |frets| == StringCount
  {
    var notes := SoundingNotes(frets);
    if |notes| == 0 then NoNotesSelected
    else Format(Distinct(notes), BassNote(frets), Chosen(frets))
  }

  /** How a name is written from the distinct notes, the bass note and the
      chosen candidate, once at least one note sounds. */
  function Format(uniqueNotes: seq<string>, bass: Option<string>, chosen: Option<Candidate>): string
    requires |uniqueNotes| > 0 && bass.Some?
  {
    if |uniqueNotes| == 1 then uniqueNotes[0] + " power chord"
    else if |uniqueNotes| == 2 then uniqueNotes[0] + "/" + uniqueNotes[1] + " (interval)"
    else match chosen
      case Some(best) =>
        if Some(best.root) != bass then best.root + best.quality + "/" + bass.value
        else best.root + best.quality
      case None => "Custom (" + Join(uniqueNotes, ", ") + ")"
  }

  /** One iteration of the root loop: classify the intervals above
      `rootSemitone` and, when the classifier names them, score the candidate. */
  method TryRoot(semitones: seq<int>, rootSemitone: int, bassNote: Option<string>) returns (candidate: Option<Candidate>)
    requires 0 <= rootSemitone < 12
    ensures candidate == CandidateFor(semitones, rootSemitone, bassNote)
  {
    var rootNote := Notes[rootSemitone];
    var intervals := Intervals(semitones, rootSemitone);
    var chordType := IdentifyChordType(intervals);
    if chordType.None? {
      return None;
    }
    var score := 100;
    if rootSemitone in CMajorScale {
      score := score + 20;
    }
    if rootNote in CommonRoots {
      score := score + 10;
    }
    if chordType.value in SimpleChords {
      score := score + 15;
    }
    if 0 in intervals && |intervals| >= 3 {
      var hasThird := 3 in intervals || 4 in intervals;
      var hasFifth := 7 in intervals;
      if hasThird && hasFifth {
        score := score + 25;
      }
    }
    if Some(rootNote) == bassNote {
      score := score + 30;
    }
    assert score == Score(rootSemitone, chordType.value, intervals, bassNote);
    return Some(Candidate(rootNote, chordType.value, intervals, score, |semitones|));
  }

  /** Pushing the candidate of root `semitones[i]` extends `CandidatesOf`
      from the first `i` roots to the first `i + 1`. */
  lemma CandidatesOfStep(semitones: seq<int>, bass: Option<string>, i: int, candidate: Option<Candidate>)
    requires forall k :: 0 <= k < |semitones| ==> 0 <= semitones[k] < 12
    requires 0 <= i < |semitones|
    requires candidate == CandidateFor(semitones, semitones[i], bass)
    ensures CandidatesOf(semitones[..i + 1], semitones, bass) ==
      CandidatesOf(semitones[..i], semitones, bass) + (if candidate.Some? then [candidate.value] else [])
  {
    assert semitones[..i + 1][..i] == semitones[..i];
  }

  /** The root loop: every distinct pitch class is tried as root, in the
      order of the notes, and each classified one is pushed. */
  method CollectCandidates(semitones: seq<int>, bassNote: Option<string>) returns (chordCandidates: seq<Candidate>)
    requires forall i :: 0 <= i < |semitones| ==> 0 <= semitones[i] < 12
    ensures chordCandidates == CandidatesOf(semitones, semitones, bassNote)
  {
    chordCandidates := [];
    var i := 0;
    while i < |semitones|
      invariant 0 <= i <= |semitones|
      invariant chordCandidates == CandidatesOf(semitones[..i], semitones, bassNote)
    {
      var candidate := TryRoot(semitones, semitones[i], bassNote);
      CandidatesOfStep(semitones, bassNote, i, candidate);
      if candidate.Some? {
        chordCandidates := chordCandidates + [candidate.value];
      }
      i := i + 1;
    }
    assert semitones[..i] == semitones;
  }

  /** Selection of the first best-scoring candidate, the element `identifyChord`
      reads after its stable sort by descending score. */
  method SelectBest(cands: seq<Candidate>) returns (best: nat)
    requires |cands| > 0
    ensures best == BestIndex(cands)
  {
    best := 0;
    var j := 1;
    while j < |cands|
      invariant 1 <= j <= |cands|
      invariant best == BestIndex(cands[..j])
    {
      assert cands[..j + 1][..j] == cands[..j];
      if cands[j].score > cands[best].score {
        best := j;
      }
      j := j + 1;
    }
    assert cands[..j] == cands;
  }

  method IdentifyChord(selectedFrets: seq<int>) returns (name: string)
    requires |selectedFrets| == StringCount
    ensures name == ChordName(selectedFrets)
  {
    var notes := SoundingNotes(selectedFrets);
    if |notes| == 0 {
      return NoNotesSelected;
    }
    var uniqueNotes := Distinct(notes);
    if |uniqueNotes| == 1 {
      return uniqueNotes[0] + " power chord";
    }
    if |uniqueNotes| == 2 {
      return uniqueNotes[0] + "/" + uniqueNotes[1] + " (interval)";
    }
    var semitones := Semitones(uniqueNotes);
    var bassNote := BassNote(selectedFrets);

    var chordCandidates := CollectCandidates(semitones, bassNote);

    if |chordCandidates| > 0 {
      var best := SelectBest(chordCandidates);
      var chosen := chordCandidates[best];
      if Some(chosen.root) != bassNote {
        return chosen.root + chosen.quality + "/" + bassNote.value;
      }
      return chosen.root + chosen.quality;
    }
    return "Custom (" + Join(uniqueNotes, ", ") + ")";
  }

  /** A sounding fret yields at least one sounding note, which is the bass. */
  lemma SoundingNonEmpty(frets: seq<int>, k: int)
    requires |frets| == StringCount && 0 <= k < |frets| && frets[k] >= 0
    ensures |SoundingNotes(frets)| > 0 && BassNote(frets).Some?
  {
  }

  lemma {:induction false} JoinAvoids(xs: seq<string>, sep: string, ch: char)
    requires forall i :: 0 <= i < |xs| ==> ch !in xs[i]
    requires ch !in sep
    ensures ch !in Join(xs, sep)
  {
    if |xs| > 1 {
      JoinAvoids(xs[1..], sep, ch);
    }
  }

  /** The name is the "no notes" sentinel exactly when every string is muted:
      every other name starts with a note letter or with "Custom". */
  lemma NoNotesIff(frets: seq<int>)
    requires |frets| == StringCount
    ensures ChordName(frets) == NoNotesSelected <==> forall i :: 0 <= i < |frets| ==> frets[i] < 0
  {
    var notes := SoundingNotes(frets);
    if |notes| > 0 {
      var d := Distinct(notes);
      assert d[0] in d;
      FormatStartsWithNoteOrCustom(d, BassNote(frets), Chosen(frets));
    }
  }

  lemma FormatStartsWithNoteOrCustom(uniqueNotes: seq<string>, bass: Option<string>, chosen: Option<Candidate>)
    requires |uniqueNotes| > 0 && bass.Some? && IsNoteName(uniqueNotes[0])
    requires chosen.Some? ==> WellFormed(chosen.value)
    ensures var name := Format(uniqueNotes, bass, chosen); |name| > 0 && 'A' <= name[0] <= 'G'
  {
  }

  /** When every sounding string plays the same pitch class `n`, however many
      strings and octaves, the name is "<n> power chord". */
  lemma PowerChordName(frets: seq<int>, k: int)
    requires |frets| == StringCount && 0 <= k < |frets| && frets[k] >= 0
    requires forall i :: 0 <= i < |frets| && frets[i] >= 0 ==> GetNoteFromString(i, frets[i]) == GetNoteFromString(k, frets[k])
    ensures ChordName(frets) == GetNoteFromString(k, frets[k]) + " power chord"
  {
    var n := GetNoteFromString(k, frets[k]);
    var played := PlayedNotes(frets);
    var notes := SoundingNotes(frets);
    assert played[k] == Some(n);
    assert n in notes;
    forall x | x in notes ensures x == n {
      var i :| 0 <= i < |played| && played[i] == Some(x);
    }
    DistinctOfConstant(notes, n);
  }

  /** With exactly two distinct pitch classes the name is "<a>/<b> (interval)",
      where `a` is the bass (first sounding string) and `b` the other note. */
  lemma IntervalName(frets: seq<int>, a: string, b: string)
    requires |frets| == StringCount && BassNote(frets) == Some(a)
    requires a != b && b in SoundingNotes(frets)
    requires forall x :: x in SoundingNotes(frets) ==> x == a || x == b
    ensures ChordName(frets) == a + "/" + b + " (interval)"
  {
    var notes := SoundingNotes(frets);
    var d := Distinct(notes);
    NoDupPair(d, a, b);
    assert d[1] in d;
  }

  /** With three or more distinct notes, the name carries a slash exactly
      when a candidate was chosen and its root is not the bass note. */
  lemma SlashIff(frets: seq<int>)
    requires |frets| == StringCount && |Distinct(SoundingNotes(frets))| >= 3
    ensures '/' in ChordName(frets) <==> Chosen(frets).Some? && Some(Chosen(frets).value.root) != BassNote(frets)
  {
    var d := Distinct(SoundingNotes(frets));
    var bass, chosen := BassNote(frets), Chosen(frets);
    forall i | 0 <= i < |d| ensures '/' !in d[i] {
      assert d[i] in SoundingNotes(frets);
      NoteNameChars(d[i]);
    }
    assert ChordName(frets) == Format(d, bass, chosen);
    FormatSlash(d, bass, chosen);
  }

  lemma FormatSlash(uniqueNotes: seq<string>, bass: Option<string>, chosen: Option<Candidate>)
    requires |uniqueNotes| >= 3 && bass.Some?
    requires forall i :: 0 <= i < |uniqueNotes| ==> '/' !in uniqueNotes[i]
    requires chosen.Some? ==> WellFormed(chosen.value)
    ensures '/' in Format(uniqueNotes, bass, chosen) <==> chosen.Some? && Some(chosen.value.root) != bass
  {
    if chosen.None? {
      JoinAvoids(uniqueNotes, ", ", '/');
    } else {
      assert '/' !in chosen.value.root;
    }
  }

  /** The "Custom (...)" fallback appears exactly when at least three distinct
      notes sound and no root classifies. */
  lemma CustomIff(frets: seq<int>)
    requires |frets| == StringCount
    ensures StartsWith(ChordName(frets), "Custom (") <==>
              |Distinct(SoundingNotes(frets))| >= 3 && Chosen(frets).None?
  {
    var notes := SoundingNotes(frets);
    if |notes| > 0 {
      var d := Distinct(notes);
      assert d[0] in d;
      FormatCustom(d, BassNote(frets), Chosen(frets));
    } else {
      assert ChordName(frets)[1] == 'o';
    }
  }

  lemma FormatCustom(uniqueNotes: seq<string>, bass: Option<string>, chosen: Option<Candidate>)
    requires |uniqueNotes| > 0 && bass.Some? && IsNoteName(uniqueNotes[0])
    requires chosen.Some? ==> WellFormed(chosen.value)
    ensures StartsWith(Format(uniqueNotes, bass, chosen), "Custom (") <==> |uniqueNotes| >= 3 && chosen.None?
  {
    var name := Format(uniqueNotes, bass, chosen);
    if |uniqueNotes| >= 3 && chosen.None? {
      assert name[..8] == "Custom (";
    } else {
      if chosen.Some? && |uniqueNotes| >= 3 {
        LabelsAvoidU();
        var k :| 0 <= k < |QualityLabels| && QualityLabels[k] == chosen.value.quality;
      }
      SecondCharNotU(name);
    }
  }

  lemma SecondCharNotU(name: string)
    requires |name| >= 2 ==> name[1] != 'u'
    ensures !StartsWith(name, "Custom (")
  {
    if |name| >= 8 {
      assert name[..8][1] == name[1];
    }
  }
}
