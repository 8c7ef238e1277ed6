/** The all-open fretting worked through `identifyChord`: the strings sound
    F A C G C E, the distinct notes are F A C G E, and of the five roots F
    scores highest, so the shape is named "Fmaj9". */
module OpenStrings {
  import opened Seqs
  import opened Pitch
  import opened ChordType
  import opened ChordIdentifier

  /** Pitch classes of the open notes, F A C G E, in the first-occurrence order. */
  predicate IsOpenSemitones(s: seq<int>) {
    |s| == 5 && s[0] == 5 && s[1] == 9 && s[2] == 0 && s[3] == 7 && s[4] == 4
  }

  lemma OpenSemitonesInOctave(semitones: seq<int>)
    requires IsOpenSemitones(semitones)
    ensures forall k :: 0 <= k < |semitones| ==> 0 <= semitones[k] < 12
  {
  }

  /** Every string is played open (fret 0). */
  predicate AllOpen(frets: seq<int>) {
    |frets| == StringCount && forall i :: 0 <= i < |frets| ==> frets[i] == 0
  }

  lemma OpenNote(s: int)
    requires 0 <= s < StringCount
    ensures GetNoteFromString(s, 0) == Notes[OpenPitch[s] % 12]
  {
    assert (OpenPitch[s] + 0) % 12 == OpenPitch[s] % 12;
  }

  lemma OpenPitchClasses()
    ensures OpenPitch[0] % 12 == 5 && OpenPitch[1] % 12 == 9 && OpenPitch[2] % 12 == 0
    ensures OpenPitch[3] % 12 == 7 && OpenPitch[4] % 12 == 0 && OpenPitch[5] % 12 == 4
  {
  }

  lemma OpenSounding(frets: seq<int>)
    requires AllOpen(frets)
    ensures |SoundingNotes(frets)| == 6
    ensures forall i :: 0 <= i < 6 ==> SoundingNotes(frets)[i] == Notes[OpenPitch[i] % 12]
    ensures BassNote(frets) == Some(Notes[OpenPitch[0] % 12])
  {
    var played := PlayedNotes(frets);
    forall i | 0 <= i < 6 ensures played[i] == Some(Notes[OpenPitch[i] % 12]) {
      OpenNote(i);
    }
    SomesAllPresent(played);
    BassIsLowestSoundingString(frets, 0);
    OpenNote(0);
  }

  lemma DistinctOfSix<T(!new)>(f: T, a: T, c: T, g: T, e: T)
    requires f != a && f != c && f != g && f != e && a != c && a != g && a != e && c != g && c != e && g != e
    ensures Distinct([f, a, c, g, c, e]) == [f, a, c, g, e]
  {
    var s1, s2, s3, s4, s5, s6 := [f], [f, a], [f, a, c], [f, a, c, g], [f, a, c, g, c], [f, a, c, g, c, e];
    assert s2 == s1 + [a] && s3 == s2 + [c] && s4 == s3 + [g] && s5 == s4 + [c] && s6 == s5 + [e];
    assert Distinct(s1) == [f];
    DistinctSnoc(s1, a);
    DistinctSnoc(s2, c);
    DistinctSnoc(s3, g);
    DistinctSnoc(s4, c);
    DistinctSnoc(s5, e);
    assert [f] + [a] + [c] + [g] + [e] == [f, a, c, g, e];
  }

  lemma OpenDistinct(notes: seq<string>)
    requires |notes| == 6
    requires notes[0] == Notes[5] && notes[1] == Notes[9] && notes[2] == Notes[0]
    requires notes[3] == Notes[7] && notes[4] == Notes[0] && notes[5] == Notes[4]
    ensures Distinct(notes) == [Notes[5], Notes[9], Notes[0], Notes[7], Notes[4]]
  {
    NotesWellFormed();
    assert notes == [Notes[5], Notes[9], Notes[0], Notes[7], Notes[0], Notes[4]];
    DistinctOfSix(Notes[5], Notes[9], Notes[0], Notes[7], Notes[4]);
  }

  lemma OpenSemitonesOf(d: seq<string>)
    requires d == [Notes[5], Notes[9], Notes[0], Notes[7], Notes[4]]
    ensures IsOpenSemitones(Semitones(d))
  {
    SemitoneOfName(5);
    SemitoneOfName(9);
    SemitoneOfName(0);
    SemitoneOfName(7);
    SemitoneOfName(4);
  }

  /** Every open pitch class is a C-major root and a common root, none of the
      five qualities found is a simple one, and only F is the bass. */
  lemma OpenScore(r: int, q: string, iv: seq<int>, bass: Option<string>)
    requires (r == 5 || r == 9 || r == 0 || r == 7 || r == 4) && bass == Some(Notes[5])
    requires q in ["maj9", "m7", "add6", "quartal", "m(no5)"]
    ensures Score(r, q, iv, bass) == 130 + (if CompleteTriad(iv) then 25 else 0) + (if r == 5 then 30 else 0)
  {
    assert Notes[5] in CommonRoots && Notes[9] in CommonRoots && Notes[0] in CommonRoots;
    assert Notes[7] in CommonRoots && Notes[4] in CommonRoots;
    assert q !in SimpleChords;
    assert Notes[9] != Notes[5] && Notes[0] != Notes[5] && Notes[7] != Notes[5] && Notes[4] != Notes[5];
  }

  /** F: intervals {0, 2, 4, 7, 11}, a major ninth, 100 + 20 + 10 + 25 + 30. */
  lemma RootF(semitones: seq<int>, bass: Option<string>)
    requires IsOpenSemitones(semitones) && bass == Some(Notes[5])
    ensures CandidateFor(semitones, semitones[0], bass).Some?
    ensures var c := CandidateFor(semitones, semitones[0], bass).value;
      c.root == Notes[5] && c.quality == "maj9" && c.score == 185
  {
    var iv := Intervals(semitones, 5);
    IntervalMembers(semitones, 5, [0, 4, 7, 2, 11]);
    ClassifyF(iv);
    OpenScore(5, "maj9", iv, bass);
  }

  lemma ClassifyF(iv: seq<int>)
    requires |iv| == 5 && forall z :: z in iv <==> z in [0, 4, 7, 2, 11]
    ensures IdentifyChordType(iv) == Some("maj9") && CompleteTriad(iv) == true
  {
  }

  /** A: intervals {0, 3, 7, 8, 10}, a minor seventh, 100 + 20 + 10 + 25. */
  lemma RootA(semitones: seq<int>, bass: Option<string>)
    requires IsOpenSemitones(semitones) && bass == Some(Notes[5])
    ensures CandidateFor(semitones, semitones[1], bass).Some?
    ensures var c := CandidateFor(semitones, semitones[1], bass).value;
      c.root == Notes[9] && c.quality == "m7" && c.score == 155
  {
    var iv := Intervals(semitones, 9);
    IntervalMembers(semitones, 9, [8, 0, 3, 10, 7]);
    ClassifyA(iv);
    OpenScore(9, "m7", iv, bass);
  }

  lemma ClassifyA(iv: seq<int>)
    requires |iv| == 5 && forall z :: z in iv <==> z in [8, 0, 3, 10, 7]
    ensures IdentifyChordType(iv) == Some("m7") && CompleteTriad(iv) == true
  {
  }

  /** C: intervals {0, 4, 5, 7, 9}, an added sixth, 100 + 20 + 10 + 25. */
  lemma RootC(semitones: seq<int>, bass: Option<string>)
    requires IsOpenSemitones(semitones) && bass == Some(Notes[5])
    ensures CandidateFor(semitones, semitones[2], bass).Some?
    ensures var c := CandidateFor(semitones, semitones[2], bass).value;
      c.root == Notes[0] && c.quality == "add6" && c.score == 155
  {
    var iv := Intervals(semitones, 0);
    IntervalMembers(semitones, 0, [5, 9, 0, 7, 4]);
    ClassifyC(iv);
    OpenScore(0, "add6", iv, bass);
  }

  lemma ClassifyC(iv: seq<int>)
    requires |iv| == 5 && forall z :: z in iv <==> z in [5, 9, 0, 7, 4]
    ensures IdentifyChordType(iv) == Some("add6") && CompleteTriad(iv) == true
  {
  }

  /** G: intervals {0, 2, 5, 9, 10}, quartal, 100 + 20 + 10. */
  lemma RootG(semitones: seq<int>, bass: Option<string>)
    requires IsOpenSemitones(semitones) && bass == Some(Notes[5])
    ensures CandidateFor(semitones, semitones[3], bass).Some?
    ensures var c := CandidateFor(semitones, semitones[3], bass).value;
      c.root == Notes[7] && c.quality == "quartal" && c.score == 130
  {
    var iv := Intervals(semitones, 7);
    IntervalMembers(semitones, 7, [10, 2, 5, 0, 9]);
    ClassifyG(iv);
    OpenScore(7, "quartal", iv, bass);
  }

  lemma ClassifyG(iv: seq<int>)
    requires |iv| == 5 && forall z :: z in iv <==> z in [10, 2, 5, 0, 9]
    ensures IdentifyChordType(iv) == Some("quartal") && CompleteTriad(iv) == false
  {
  }

  /** E: intervals {0, 1, 3, 5, 8}, minor without fifth, 100 + 20 + 10. */
  lemma RootE(semitones: seq<int>, bass: Option<string>)
    requires IsOpenSemitones(semitones) && bass == Some(Notes[5])
    ensures CandidateFor(semitones, semitones[4], bass).Some?
    ensures var c := CandidateFor(semitones, semitones[4], bass).value;
      c.root == Notes[4] && c.quality == "m(no5)" && c.score == 130
  {
    var iv := Intervals(semitones, 4);
    IntervalMembers(semitones, 4, [1, 5, 8, 3, 0]);
    ClassifyE(iv);
    OpenScore(4, "m(no5)", iv, bass);
  }

  lemma ClassifyE(iv: seq<int>)
    requires |iv| == 5 && forall z :: z in iv <==> z in [1, 5, 8, 3, 0]
    ensures IdentifyChordType(iv) == Some("m(no5)") && CompleteTriad(iv) == false
  {
  }

  /** The root loop after its first `k + 1` roots: one candidate per root so
      far, F first with a major ninth scoring 185, every later one below. */
  predicate OpenPrefix(cands: seq<Candidate>, k: int) {
    && 0 <= k && |cands| == k + 1
    && cands[0].root == Notes[5] && cands[0].quality == "maj9" && cands[0].score == 185
    && forall j :: 1 <= j < |cands| ==> cands[j].score < 185
  }

  lemma LinkF(semitones: seq<int>, bass: Option<string>) returns (cands: seq<Candidate>)
    requires IsOpenSemitones(semitones) && bass == Some(Notes[5])
    ensures cands == CandidatesOf(semitones[..1], semitones, bass) && OpenPrefix(cands, 0)
  {
    RootF(semitones, bass);
    var c := CandidateFor(semitones, semitones[0], bass).value;
    OpenSemitonesInOctave(semitones);
    assert semitones[..0] == [];
    CandidatesOfStep(semitones, bass, 0, Some(c));
    cands := [c];
  }

  lemma LinkA(semitones: seq<int>, bass: Option<string>) returns (cands: seq<Candidate>)
    requires IsOpenSemitones(semitones) && bass == Some(Notes[5])
    ensures cands == CandidatesOf(semitones[..2], semitones, bass) && OpenPrefix(cands, 1)
  {
    var prev := LinkF(semitones, bass);
    RootA(semitones, bass);
    var c := CandidateFor(semitones, semitones[1], bass).value;
    OpenSemitonesInOctave(semitones);
    CandidatesOfStep(semitones, bass, 1, Some(c));
    cands := prev + [c];
  }

  lemma LinkC(semitones: seq<int>, bass: Option<string>) returns (cands: seq<Candidate>)
    requires IsOpenSemitones(semitones) && bass == Some(Notes[5])
    ensures cands == CandidatesOf(semitones[..3], semitones, bass) && OpenPrefix(cands, 2)
  {
    var prev := LinkA(semitones, bass);
    RootC(semitones, bass);
    var c := CandidateFor(semitones, semitones[2], bass).value;
    OpenSemitonesInOctave(semitones);
    CandidatesOfStep(semitones, bass, 2, Some(c));
    cands := prev + [c];
  }

  lemma LinkG(semitones: seq<int>, bass: Option<string>) returns (cands: seq<Candidate>)
    requires IsOpenSemitones(semitones) && bass == Some(Notes[5])
    ensures cands == CandidatesOf(semitones[..4], semitones, bass) && OpenPrefix(cands, 3)
  {
    var prev := LinkC(semitones, bass);
    RootG(semitones, bass);
    var c := CandidateFor(semitones, semitones[3], bass).value;
    OpenSemitonesInOctave(semitones);
    CandidatesOfStep(semitones, bass, 3, Some(c));
    cands := prev + [c];
  }

  lemma LinkE(semitones: seq<int>, bass: Option<string>) returns (cands: seq<Candidate>)
    requires IsOpenSemitones(semitones) && bass == Some(Notes[5])
    ensures cands == CandidatesOf(semitones[..5], semitones, bass) && OpenPrefix(cands, 4)
  {
    var prev := LinkG(semitones, bass);
    RootE(semitones, bass);
    var c := CandidateFor(semitones, semitones[4], bass).value;
    OpenSemitonesInOctave(semitones);
    CandidatesOfStep(semitones, bass, 4, Some(c));
    cands := prev + [c];
  }

  /** The five roots, tried in note order, all classify; the first, F, is
      a major ninth scoring 185 and every other candidate scores less. */
  lemma OpenCandidates(semitones: seq<int>, bass: Option<string>)
    requires IsOpenSemitones(semitones) && bass == Some(Notes[5])
    ensures OpenPrefix(CandidatesOf(semitones, semitones, bass), 4)
  {
    var cands := LinkE(semitones, bass);
    assert semitones[..5] == semitones;
  }

  /** A candidate scoring strictly above all others is the one chosen. */
  lemma UniqueBest(cands: seq<Candidate>, k: int)
    requires 0 <= k < |cands|
    requires forall j :: 0 <= j < |cands| && j != k ==> cands[j].score < cands[k].score
    ensures BestIndex(cands) == k
  {
  }

  /** With the strings open, five distinct notes sound over an F bass and
      the chosen candidate is the F major ninth. */
  lemma OpenChosen(frets: seq<int>)
    requires AllOpen(frets)
    ensures |Distinct(SoundingNotes(frets))| == 5 && BassNote(frets) == Some(Notes[5])
    ensures Chosen(frets).Some? && Chosen(frets).value.root == Notes[5] && Chosen(frets).value.quality == "maj9"
  {
    OpenSounding(frets);
    OpenPitchClasses();
    var notes := SoundingNotes(frets);
    OpenDistinct(notes);
    var d := Distinct(notes);
    OpenSemitonesOf(d);
    var semitones := Semitones(d);
    var bass := BassNote(frets);
    OpenCandidates(semitones, bass);
    var cands := CandidatesOf(semitones, semitones, bass);
    UniqueBest(cands, 0);
    ChosenIsBest(frets, d, semitones, bass, cands);
  }

  /** With three or more distinct notes and some candidate, the chosen one is
      the best of the candidates. */
  lemma ChosenIsBest(frets: seq<int>, u: seq<string>, semitones: seq<int>, bass: Option<string>, cands: seq<Candidate>)
    requires |frets| == StringCount
    requires u == Distinct(SoundingNotes(frets)) && |u| >= 3
    requires semitones == Semitones(u) && bass == BassNote(frets)
    requires cands == CandidatesOf(semitones, semitones, bass) && |cands| > 0
    ensures Chosen(frets) == Some(cands[BestIndex(cands)])
  {
  }

  /** `identifyChord([0, 0, 0, 0, 0, 0])` is "Fmaj9": every fret open. */
  lemma OpenStringsName(frets: seq<int>)
    requires AllOpen(frets)
    ensures ChordName(frets) == "Fmaj9"
  {
    OpenChosen(frets);
    SoundingNonEmpty(frets, 0);
    var u, bass, chosen := Distinct(SoundingNotes(frets)), BassNote(frets), Chosen(frets);
    assert ChordName(frets) == Format(u, bass, chosen);
    FormatNamed(u, bass, chosen);
    SpellFmaj9(chosen.value.root, chosen.value.quality);
  }

  lemma SpellFmaj9(root: string, quality: string)
    requires root == Notes[5] && quality == "maj9"
    ensures root + quality == "Fmaj9"
  {
  }

  /** With three or more notes and a chosen root that is the bass, the name
      is the root and the quality, with no slash. */
  lemma FormatNamed(u: seq<string>, bass: Option<string>, chosen: Option<Candidate>)
    requires |u| >= 3 && chosen.Some? && bass == Some(chosen.value.root)
    ensures Format(u, bass, chosen) == chosen.value.root + chosen.value.quality
  {
  }
}
