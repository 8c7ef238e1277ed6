/** The interval classifier `identifyChordType` of facgce-chord-explorer.tsx:
    an ordered, first-match ladder from the semitone intervals above a
    candidate root to a chord-quality label. */
module ChordType {
  import opened Seqs

  /** Every label the ladder can return, in the order it tests them. */
  const QualityLabels: seq<string> := [
    "maj9", "maj7", "9", "7", "add9", "add6", "",
    "m9", "m7", "mmaj7", "madd9", "m6", "m",
    "7sus2", "sus2add9", "sus2", "7sus4", "sus4add9", "sus4",
    "dim7", "m7\U{266D}5", "dim",
    "augmaj7", "aug7", "aug",
    "5",
    "add9(no5)", "(no5)", "madd9(no5)", "m(no5)",
    "quartal",
    "maj(no5)", "min(no5)"
  ]

  /** No label contains a slash, so a slash in a chord name
      always comes from the bass suffix. */
  lemma LabelsHaveNoSlash()
    ensures forall i :: 0 <= i < |QualityLabels| ==> '/' !in QualityLabels[i]
  {
  }

  /** No label begins with 'u', so a named chord never reads like "Custom". */
  lemma LabelsAvoidU()
    ensures forall i :: 0 <= i < |QualityLabels| ==> |QualityLabels[i]| == 0 || QualityLabels[i][0] != 'u'
  {
  }

  /** `identifyChordType(intervals)`; `None` stands for `null`. Its
      `set.has(14)` tests and its `set.size` are kept as written. */
  function IdentifyChordType(intervals: seq<int>): (quality: Option<string>)
    ensures quality.Some? ==> 0 in intervals
  {
    var hasThird := 3 in intervals || 4 in intervals;
    var hasFifth := 7 in intervals;
    var hasMajorThird := 4 in intervals;
    var hasMinorThird := 3 in intervals;
    var ninth := 2 in intervals || 14 in intervals;
    if 0 !in intervals then None
    else if 4 in intervals && 7 in intervals then
      if 11 in intervals then (if ninth then Some("maj9") else Some("maj7"))
      else if 10 in intervals then (if ninth then Some("9") else Some("7"))
      else if ninth then Some("add9")
      else if 9 in intervals then Some("add6")
      else Some("")
    else if 3 in intervals && 7 in intervals then
      if 10 in intervals then (if ninth then Some("m9") else Some("m7"))
      else if 11 in intervals then Some("mmaj7")
      else if ninth then Some("madd9")
      else if 9 in intervals then Some("m6")
      else Some("m")
    else if !hasThird && hasFifth && 2 in intervals then
      if 10 in intervals then Some("7sus2")
      else if 9 in intervals then Some("sus2add9")
      else Some("sus2")
    else if !hasThird && hasFifth && 5 in intervals then
      if 10 in intervals then Some("7sus4")
      else if 2 in intervals || 9 in intervals then Some("sus4add9")
      else Some("sus4")
    else if 3 in intervals && 6 in intervals then
      if 9 in intervals then Some("dim7")
      else if 10 in intervals then Some("m7\U{266D}5")
      else Some("dim")
    else if 4 in intervals && 8 in intervals then
      if 11 in intervals then Some("augmaj7")
      else if 10 in intervals then Some("aug7")
      else Some("aug")
    else if |Distinct(intervals)| == 2 && 7 in intervals then Some("5")
    else if hasMajorThird && !hasFifth then
      if 2 in intervals then Some("add9(no5)") else Some("(no5)")
    else if hasMinorThird && !hasFifth then
      if 2 in intervals then Some("madd9(no5)") else Some("m(no5)")
    else if 5 in intervals && 10 in intervals then Some("quartal")
    else if |intervals| >= 3 && 2 in intervals && 7 in intervals then Some("sus2")
    else if |intervals| >= 3 && 4 in intervals && !(7 in intervals) then Some("maj(no5)")
    else if |intervals| >= 3 && 3 in intervals && !(7 in intervals) then Some("min(no5)")
    else None
  }

  /** The classifier's result is always one of the listed labels. */
  lemma QualityIsLabel(intervals: seq<int>)
    ensures IdentifyChordType(intervals).Some? ==> IdentifyChordType(intervals).value in QualityLabels
  {
  }

  predicate InOctave(intervals: seq<int>) {
    forall k :: k in intervals ==> 0 <= k < 12
  }

  /** The last-resort branch of the ladder never fires, for any input: its
      two `no5` labels are unreachable, and "sus2" only ever comes from the
      suspended branch. */
  lemma LastResortUnreachable(intervals: seq<int>)
    ensures IdentifyChordType(intervals) != Some("maj(no5)")
    ensures IdentifyChordType(intervals) != Some("min(no5)")
    ensures IdentifyChordType(intervals) == Some("sus2") ==>
              2 in intervals && 7 in intervals && 3 !in intervals && 4 !in intervals
  {
  }

  /** The ladder restated as a table of independent patterns, one family per
      lemma: for intervals taken modulo 12 (so the `14` tests never hold),
      each label is returned exactly when the intervals it needs are present
      and the intervals that would have made an earlier rule match are
      absent. These are the major-third chords with a perfect fifth. */
  lemma MajorPatterns(iv: seq<int>)
    requires InOctave(iv)
    ensures var q := IdentifyChordType(iv);
      && (q == Some("maj9")     <==> 0 in iv && 4 in iv && 7 in iv && 11 in iv && 2 in iv)
      && (q == Some("maj7")     <==> 0 in iv && 4 in iv && 7 in iv && 11 in iv && 2 !in iv)
      && (q == Some("9")        <==> 0 in iv && 4 in iv && 7 in iv && 11 !in iv && 10 in iv && 2 in iv)
      && (q == Some("7")        <==> 0 in iv && 4 in iv && 7 in iv && 11 !in iv && 10 in iv && 2 !in iv)
      && (q == Some("add9")     <==> 0 in iv && 4 in iv && 7 in iv && 11 !in iv && 10 !in iv && 2 in iv)
      && (q == Some("add6")     <==> 0 in iv && 4 in iv && 7 in iv && 11 !in iv && 10 !in iv && 2 !in iv && 9 in iv)
      && (q == Some("")         <==> 0 in iv && 4 in iv && 7 in iv && 11 !in iv && 10 !in iv && 2 !in iv && 9 !in iv)
  {
  }

  /** The patterns of the minor-third chords with a perfect fifth. */
  lemma MinorPatterns(iv: seq<int>)
    requires InOctave(iv)
    ensures var q := IdentifyChordType(iv);
      && (q == Some("m9")       <==> 0 in iv && 3 in iv && 7 in iv && 4 !in iv && 10 in iv && 2 in iv)
      && (q == Some("m7")       <==> 0 in iv && 3 in iv && 7 in iv && 4 !in iv && 10 in iv && 2 !in iv)
      && (q == Some("mmaj7")    <==> 0 in iv && 3 in iv && 7 in iv && 4 !in iv && 10 !in iv && 11 in iv)
      && (q == Some("madd9")    <==> 0 in iv && 3 in iv && 7 in iv && 4 !in iv && 10 !in iv && 11 !in iv && 2 in iv)
      && (q == Some("m6")       <==> 0 in iv && 3 in iv && 7 in iv && 4 !in iv && 10 !in iv && 11 !in iv && 2 !in iv && 9 in iv)
      && (q == Some("m")        <==> 0 in iv && 3 in iv && 7 in iv && 4 !in iv && 10 !in iv && 11 !in iv && 2 !in iv && 9 !in iv)
  {
  }

  /** The patterns of the suspended chords (a fifth, no third). */
  lemma SuspendedPatterns(iv: seq<int>)
    requires InOctave(iv)
    ensures var q := IdentifyChordType(iv);
      && (q == Some("7sus2")    <==> 0 in iv && 7 in iv && 3 !in iv && 4 !in iv && 2 in iv && 10 in iv)
      && (q == Some("sus2add9") <==> 0 in iv && 7 in iv && 3 !in iv && 4 !in iv && 2 in iv && 10 !in iv && 9 in iv)
      && (q == Some("sus2")     <==> 0 in iv && 7 in iv && 3 !in iv && 4 !in iv && 2 in iv && 10 !in iv && 9 !in iv)
      && (q == Some("7sus4")    <==> 0 in iv && 7 in iv && 3 !in iv && 4 !in iv && 2 !in iv && 5 in iv && 10 in iv)
      && (q == Some("sus4add9") <==> 0 in iv && 7 in iv && 3 !in iv && 4 !in iv && 2 !in iv && 5 in iv && 10 !in iv && 9 in iv)
      && (q == Some("sus4")     <==> 0 in iv && 7 in iv && 3 !in iv && 4 !in iv && 2 !in iv && 5 in iv && 10 !in iv && 9 !in iv)
  {
  }

  /** The patterns of the diminished and augmented chords. */
  lemma AlteredFifthPatterns(iv: seq<int>)
    requires InOctave(iv)
    ensures var q := IdentifyChordType(iv);
      && (q == Some("dim7")     <==> 0 in iv && 3 in iv && 6 in iv && 7 !in iv && 9 in iv)
      && (q == Some("m7\U{266D}5") <==> 0 in iv && 3 in iv && 6 in iv && 7 !in iv && 9 !in iv && 10 in iv)
      && (q == Some("dim")      <==> 0 in iv && 3 in iv && 6 in iv && 7 !in iv && 9 !in iv && 10 !in iv)
      && (q == Some("augmaj7")  <==> 0 in iv && 4 in iv && 8 in iv && 7 !in iv && !(3 in iv && 6 in iv) && 11 in iv)
      && (q == Some("aug7")     <==> 0 in iv && 4 in iv && 8 in iv && 7 !in iv && !(3 in iv && 6 in iv) && 11 !in iv && 10 in iv)
      && (q == Some("aug")      <==> 0 in iv && 4 in iv && 8 in iv && 7 !in iv && !(3 in iv && 6 in iv) && 11 !in iv && 10 !in iv)
  {
  }

  /** The patterns of the chords without a fifth, and the quartal stack. */
  lemma NoFifthPatterns(iv: seq<int>)
    requires InOctave(iv)
    ensures var q := IdentifyChordType(iv);
      && (q == Some("add9(no5)")  <==> 0 in iv && 4 in iv && 7 !in iv && 8 !in iv && !(3 in iv && 6 in iv) && 2 in iv)
      && (q == Some("(no5)")      <==> 0 in iv && 4 in iv && 7 !in iv && 8 !in iv && !(3 in iv && 6 in iv) && 2 !in iv)
      && (q == Some("madd9(no5)") <==> 0 in iv && 3 in iv && 4 !in iv && 6 !in iv && 7 !in iv && 2 in iv)
      && (q == Some("m(no5)")     <==> 0 in iv && 3 in iv && 4 !in iv && 6 !in iv && 7 !in iv && 2 !in iv)
      && (q == Some("quartal")    <==> 0 in iv && 5 in iv && 10 in iv && 3 !in iv && 4 !in iv && 7 !in iv)
  {
  }

  /** The power-chord label "5" is returned exactly for the interval set {0, 7}. */
  lemma PowerChordPattern(iv: seq<int>)
    ensures IdentifyChordType(iv) == Some("5") <==>
              0 in iv && 7 in iv && forall k :: k in iv ==> k == 0 || k == 7
  {
    var d := Distinct(iv);
    if 0 in iv && 7 in iv && forall k :: k in iv ==> k == 0 || k == 7 {
      NoDupPair(d, 0, 7);
    }
    if IdentifyChordType(iv) == Some("5") {
      assert 0 in d && 7 in d;
      forall k | k in iv ensures k == 0 || k == 7 {
        if k != 0 && k != 7 {
          ThreeInDistinct(d, 0, 7, k);
        }
      }
    }
  }

  lemma ThreeInDistinct(d: seq<int>, a: int, b: int, c: int)
    requires NoDup(d) && a in d && b in d && c in d && a != b && b != c && a != c
    ensures |d| >= 3
  {
    var i :| 0 <= i < |d| && d[i] == a;
    var j :| 0 <= j < |d| && d[j] == b;
    var k :| 0 <= k < |d| && d[k] == c;
    assert i != j && j != k && i != k;
  }
}
