# FACGCE chord explorer: a verified model of its music-theory engine

This project models, in Dafny, the logic behind a chord explorer for a guitar
in the open F-A-C-G-C-E tuning, and the rate-limited chat endpoint that sits
beside it. It covers:

- **Pitch** (`pitch.dfy`, module `Pitch`): the tuning, the twelve sharps-only
  note names, and `getNoteFromString`.
- **Chord type** (`chord_type.dfy`, module `ChordType`): `identifyChordType`,
  the first-match ladder that maps the intervals above a root to a quality
  label.
- **Chord naming** (`chord_identifier.dfy`, module `ChordIdentifier`):
  `identifyChord`.
  - It drops muted strings and handles the one-note and two-note cases.
  - It tries every distinct note as root and scores each classified
    candidate.
  - It names the best candidate, with a `/bass` suffix for inversions, or
    falls back to `Custom (…)`.
  - The method `IdentifyChord` keeps `identifyChord`'s loops; the function
    `ChordName` is its specification.
- **The all-open chord** (`open_strings.dfy`, module `OpenStrings`): the six
  open strings are named "Fmaj9". F scores 185 and beats A m7 (155), C add6
  (155), G quartal (130) and E m(no5) (130).
- **Fret inputs** (`fret_input.dfy`, module `FretInput`): `handleFretChange`,
  as an update of the fret sequence. The JavaScript `trim`, `toLowerCase` and
  global `parseInt` it relies on are modelled too.
- **Progressions** (`progressions.dfy`, module `Progressions`): the twelve
  built-in progressions, the chord-name-to-degree table and
  `generateProgression`. `Math.random()` is a parameter in [0, 1).
- **Chat endpoint** (`chat.dfy`, module `Chat`):
  - `isRateLimited`: a sliding window of at most 20 requests per 60 s per
    address. It is a method of the class `ChatEndpoint`, whose `rateLimit`
    map field it updates.
  - The handler's early-return checks, which give status 405, 400, 413, 429,
    500 or 400 before the model call, and the two places where a body that
    is `undefined` or `null` makes it throw a `TypeError` it does not catch
    (`Chat.Reply.Thrown`).
- **Shared helpers** (`seqs.dfy`, module `Seqs`): the JavaScript array and
  string operations the app and the endpoint use, each with its defining property proved:
  - `new Set`: same members, no repeats, first-occurrence order;
  - `indexOf`: the first position, or -1;
  - `filter` on optional values: the present values, in order, as often as
    they occur;
  - `find`: the first present value;
  - `sort`: an ascending permutation;
  - `startsWith`: the string is the prefix followed by the rest;
  - `includes`: an occurrence at some position;
  - `join`: joining two lists one after the other puts one separator
    between them, and the length is the parts plus the separators.

Where the code uses a constant, so does the model: the 0..24 fret range,
the -1 mute sentinel, the score bonuses and the window and size limits.

Two places matter most where the code does less than it appears to: the
degree table's minor keys are never reached, and the classifier's last-resort
branch never fires.

- **Minor keys in the degree table.** The table lists `Dm`→`ii`, `Em`→`iii`,
  `Am`→`vi` and `Bm`→`vii°`. The code takes the first key that is a prefix of
  the chord name, and the one-letter keys come first, so these minor entries
  are never used.
  - `Progressions.MinorDegreesShadowed` proves that no name gets a minor
    degree.
  - `Progressions.DegreeOfLetter` shows that the degree depends only on the
    first letter: "Dm7" maps to "II".
  - Every built-in progression uses only I, ii, iii, IV, V and vi. So a chord
    whose name starts with D, E, A or B never matches a progression:
    `Progressions.UnmatchedPicksLibrary` proves that the pick comes from the
    whole library, unchanged.
  - Only names whose first character is C, F or G are ever inserted into a
    progression (`Progressions.LetterMatched`,
    `Progressions.MatchedPickHoldsUserChord`). This includes sharp roots
    such as "F#m", two-note names such as "C/E (interval)" and every
    `Custom (…)` fallback, which starts with 'C' and so gets degree I
    (`Progressions.CustomNameMatches`).
- **The last-resort classifier branch.** Its tests run (for example on the
  intervals [0, 1, 2]), but none of them can succeed, so it never returns a
  label (`ChordType.LastResortUnreachable`); and the `has(14)` alternatives
  never hold for intervals reduced modulo 12.

## Model

| member | source | states |
|---|---|---|
| Pitch.Tuning | facgce-chord-explorer.tsx:4 | the open notes of the six strings, low to high: F, A, C, G, C, E |
| Pitch.Notes | facgce-chord-explorer.tsx:5 | the twelve note names from C to B, sharps only, in semitone order |
| Pitch.TuningMatchesOpenPitch | facgce-chord-explorer.tsx:4-5 | `NOTES.indexOf(TUNING[s])` is the hand-written pitch class of each open string (F=5, A=9, C=0, G=7, C=0, E=4) |
| Pitch.NotesWellFormed | facgce-chord-explorer.tsx:5 | the twelve note names are distinct, each a letter A..G optionally followed by '#' |
| Pitch.GetNoteFromString | facgce-chord-explorer.tsx:153-157 | for every string 0..5 and fret >= 0 the note is `NOTES[(open pitch + fret) % 12]`, always a member of `NOTES` |
| Pitch.FrettedIndex | facgce-chord-explorer.tsx:154-156 | the index `(NOTES.indexOf(TUNING[s]) + fret) % 12` is the open pitch class raised by `fret`, wrapped to 0..11, and names a note |
| Pitch.Semitone | facgce-chord-explorer.tsx:175 | the index of a note name is in 0..11 and names it back |
| Pitch.SemitoneOfName | facgce-chord-explorer.tsx:175 | the index of `NOTES[k]` is `k`, so name and semitone are inverse |
| ChordType.IdentifyChordType | facgce-chord-explorer.tsx:258-263 | a label is returned only when the root interval 0 is present (`null` otherwise) |
| ChordType.QualityIsLabel | facgce-chord-explorer.tsx:258-358 | every returned label is one of the 33 labels the ladder spells out |
| ChordType.MajorPatterns | facgce-chord-explorer.tsx:275-289 | for mod-12 intervals: maj9, maj7, 9, 7, add9, add6 and major each hold exactly when their intervals are present and earlier rules' are absent |
| ChordType.MinorPatterns | facgce-chord-explorer.tsx:290-301 | the same independent characterisation for m9, m7, mmaj7, madd9, m6 and m |
| ChordType.SuspendedPatterns | facgce-chord-explorer.tsx:303-315 | the same for 7sus2, sus2add9, sus2, 7sus4, sus4add9 and sus4 (a fifth and no third) |
| ChordType.AlteredFifthPatterns | facgce-chord-explorer.tsx:317-329 | the same for dim7, m7♭5, dim, augmaj7, aug7 and aug |
| ChordType.NoFifthPatterns | facgce-chord-explorer.tsx:337-348 | the same for add9(no5), (no5), madd9(no5), m(no5) and quartal |
| ChordType.PowerChordPattern | facgce-chord-explorer.tsx:331-334 | "5" is returned exactly when the interval set is {0, 7} |
| ChordType.LastResortUnreachable | facgce-chord-explorer.tsx:350-356 | maj(no5) and min(no5) are never returned, and sus2 only with 2 and 7 present and no third |
| ChordType.LabelsHaveNoSlash | facgce-chord-explorer.tsx:258-358 | no label contains '/' |
| ChordType.LabelsAvoidU | facgce-chord-explorer.tsx:258-358 | no label starts with 'u' |
| ChordIdentifier.PlayedNotes | facgce-chord-explorer.tsx:179-180 | the per-string note list, `null` for a muted string; no contract of its own, characterised by `PlayedNotesAreNames` and `BassIsLowestSoundingString` |
| ChordIdentifier.SoundingNotes | facgce-chord-explorer.tsx:160-162 | the played notes are note names, and there are none exactly when every fret is negative |
| ChordIdentifier.PlayedNotesAreNames | facgce-chord-explorer.tsx:160-161 | every present entry of the per-string note list is a note name |
| ChordIdentifier.BassNote | facgce-chord-explorer.tsx:178-181 | `bassNote` is the first sounding note, absent when none sounds |
| ChordIdentifier.BassIsLowestSoundingString | facgce-chord-explorer.tsx:178-181 | the bass is the note of the lowest-indexed unmuted string |
| ChordIdentifier.Semitones | facgce-chord-explorer.tsx:174-176 | one semitone per name, each in 0..11 naming it back; distinct names give distinct semitones |
| ChordIdentifier.Intervals | facgce-chord-explorer.tsx:189-192 | the sorted mod-12 distances above a root; no contract of its own, characterised by `IntervalMembers` and `IntervalsShape` |
| ChordIdentifier.IntervalMembers | facgce-chord-explorer.tsx:189-192 | the sorted intervals are, as a set, the notes shifted down by the root mod 12 |
| ChordIdentifier.ShiftInjective | facgce-chord-explorer.tsx:190 | shifting by the root is injective on 0..11 |
| ChordIdentifier.IntervalsShape | facgce-chord-explorer.tsx:186-192 | for each candidate root the intervals are strictly ascending, within 0..11, contain 0, one per distinct note |
| ChordIdentifier.CompleteTriad | facgce-chord-explorer.tsx:219-225 | the +25 test: root, a third and a fifth among three or more intervals; no contract of its own, used by `OpenStrings.OpenScore` |
| ChordIdentifier.Score | facgce-chord-explorer.tsx:198-230 | every candidate score lies in 100..200 |
| ChordIdentifier.CommonRootsAreDiatonic | facgce-chord-explorer.tsx:201-210 | a root earning the +10 common-root bonus also earns the +20 C-major bonus |
| ChordIdentifier.BassBonus | facgce-chord-explorer.tsx:227-230 | a root equal to `bassNote` scores exactly 30 more than with any other bass |
| ChordIdentifier.CandidateFor | facgce-chord-explorer.tsx:187-238 | one root's classified and scored candidate, or none; no contract of its own, characterised by `CandidateWellFormed` and `TryRoot` |
| ChordIdentifier.CandidateWellFormed | facgce-chord-explorer.tsx:194-238 | a candidate has a score in 100..200, a note-name root and a slash-free quality label |
| ChordIdentifier.CandidatesOf | facgce-chord-explorer.tsx:183-240 | at most one candidate per root |
| ChordIdentifier.Tried | facgce-chord-explorer.tsx:186-194 | one classifier answer per tried root, in root order |
| ChordIdentifier.CandidatesOfTried | facgce-chord-explorer.tsx:186-240 | the pushed candidates are the present classifier answers, in root order and with their multiplicity |
| ChordIdentifier.TriedAt | facgce-chord-explorer.tsx:186-194 | entry `i` of the answers is the classifier's answer for root `i` |
| ChordIdentifier.CandidatesOfMembers | facgce-chord-explorer.tsx:186-240 | a candidate is collected exactly when some root classifies as it |
| ChordIdentifier.CandidatesWellFormed | facgce-chord-explorer.tsx:183-240 | every collected candidate is well formed |
| ChordIdentifier.BestIndex | facgce-chord-explorer.tsx:242-244 | element 0 after the stable descending sort is the first candidate of maximal score: no later one scores more, every earlier one scores less |
| ChordIdentifier.Chosen | facgce-chord-explorer.tsx:242-244 | the chosen candidate is well formed |
| ChordIdentifier.TryRoot | facgce-chord-explorer.tsx:187-238 | one loop iteration builds exactly the specified candidate for the root |
| ChordIdentifier.CandidatesOfStep | facgce-chord-explorer.tsx:186-240 | one loop iteration appends that root's candidate, if any, to the candidates so far |
| ChordIdentifier.CollectCandidates | facgce-chord-explorer.tsx:183-240 | the `for … of semitones` loop collects exactly the specified candidates, in distinct-note order |
| ChordIdentifier.SelectBest | facgce-chord-explorer.tsx:242-244 | the selection scan finds the first maximal-score candidate |
| ChordIdentifier.IdentifyChord | facgce-chord-explorer.tsx:159-256 | the method returns the specified chord name for every six-string fretting |
| ChordIdentifier.SoundingNonEmpty | facgce-chord-explorer.tsx:160-181 | a sounding string gives at least one note and a bass |
| ChordIdentifier.ChordName | facgce-chord-explorer.tsx:159-256 | the name `identifyChord` returns; no contract of its own, characterised by `NoNotesIff`, `PowerChordName`, `IntervalName`, `SlashIff`, `CustomIff` and `OpenStrings.OpenStringsName` |
| ChordIdentifier.Format | facgce-chord-explorer.tsx:166-255 | how the name is written from the distinct notes, bass and chosen candidate; no contract of its own, characterised by `FormatSlash`, `FormatCustom` and `FormatStartsWithNoteOrCustom` |
| ChordIdentifier.NoNotesIff | facgce-chord-explorer.tsx:164 | the name is "No notes selected" exactly when every fret is negative |
| ChordIdentifier.FormatStartsWithNoteOrCustom | facgce-chord-explorer.tsx:168-255 | every other name starts with a letter A..G |
| ChordIdentifier.PowerChordName | facgce-chord-explorer.tsx:166-168 | when all sounding strings share one pitch class `n` the name is "`n` power chord" |
| ChordIdentifier.IntervalName | facgce-chord-explorer.tsx:169-172 | with two distinct notes the name is "a/b (interval)" in first-occurrence order, from the bass |
| ChordIdentifier.SlashIff | facgce-chord-explorer.tsx:246-252 | with three or more notes, the name contains '/' exactly when a candidate was chosen whose root differs from the bass |
| ChordIdentifier.FormatSlash | facgce-chord-explorer.tsx:246-255 | the slash case of the formatting step |
| ChordIdentifier.CustomIff | facgce-chord-explorer.tsx:255 | the name is "Custom (…)" exactly when three or more notes sound and no root classifies |
| ChordIdentifier.FormatCustom | facgce-chord-explorer.tsx:246-255 | the Custom case of the formatting step |
| ChordIdentifier.JoinAvoids | facgce-chord-explorer.tsx:255 | joining strings that avoid a character with a separator that avoids it gives a string that avoids it |
| ChordIdentifier.SecondCharNotU | facgce-chord-explorer.tsx:249-252 | a string whose second character is not 'u' does not start with "Custom (" |
| OpenStrings.OpenSounding | facgce-chord-explorer.tsx:160-162 | the six open strings sound F A C G C E, with F as the bass |
| OpenStrings.OpenDistinct | facgce-chord-explorer.tsx:166 | their distinct notes are F A C G E |
| OpenStrings.DistinctOfSix | facgce-chord-explorer.tsx:166 | `new Set` drops the repeated C of the tuning and keeps first-occurrence order |
| OpenStrings.OpenSemitonesOf | facgce-chord-explorer.tsx:174-176 | their semitones are 5, 9, 0, 7, 4 |
| OpenStrings.OpenScore | facgce-chord-explorer.tsx:198-230 | for these roots and labels the score is 130, plus 25 for a complete triad, plus 30 for F |
| OpenStrings.RootF | facgce-chord-explorer.tsx:186-238 | root F classifies as maj9 with score 185 |
| OpenStrings.RootA | facgce-chord-explorer.tsx:186-238 | root A classifies as m7 with score 155 |
| OpenStrings.RootC | facgce-chord-explorer.tsx:186-238 | root C classifies as add6 with score 155 |
| OpenStrings.RootG | facgce-chord-explorer.tsx:186-238 | root G classifies as quartal with score 130 |
| OpenStrings.RootE | facgce-chord-explorer.tsx:186-238 | root E classifies as m(no5) with score 130 |
| OpenStrings.OpenCandidates | facgce-chord-explorer.tsx:183-240 | the candidates are five, F maj9 185 first and all others below 185 |
| OpenStrings.UniqueBest | facgce-chord-explorer.tsx:242-244 | a candidate scoring above all others is the one chosen |
| OpenStrings.FormatNamed | facgce-chord-explorer.tsx:246-252 | with three or more notes and the chosen root as bass, the name is root followed by quality with no slash |
| OpenStrings.ChosenIsBest | facgce-chord-explorer.tsx:242-244 | with three or more notes and some candidate, the chosen one is the best-scoring candidate |
| OpenStrings.OpenChosen | facgce-chord-explorer.tsx:159-244 | the chosen candidate for all-open strings is F maj9 with bass F |
| OpenStrings.OpenStringsName | facgce-chord-explorer.tsx:159-253 | the all-open fretting is named "Fmaj9" |
| FretInput.TrimStart | facgce-chord-explorer.tsx:368 | the result is a suffix; exactly the leading whitespace is removed |
| FretInput.TrimEnd | facgce-chord-explorer.tsx:368 | the result is a prefix; exactly the trailing whitespace is removed |
| FretInput.ToLower | facgce-chord-explorer.tsx:368 | same length, each character lower-cased |
| FretInput.DigitPrefixLength | facgce-chord-explorer.tsx:373 | the longest run of leading digits: all digits, followed by a non-digit or the end |
| FretInput.DecimalString | facgce-chord-explorer.tsx:514 | a fret is displayed as a non-empty string of decimal digits |
| FretInput.IsJsWhitespace | facgce-chord-explorer.tsx:368 | the ECMAScript white-space and line-terminator characters; no contract of its own, used by `TrimStart` and `TrimEnd` |
| FretInput.Trim | facgce-chord-explorer.tsx:368 | `trim`: both ends trimmed; no contract of its own, characterised by `TrimStart`, `TrimEnd` and `NormalizeCommutes` |
| FretInput.IsMuteText | facgce-chord-explorer.tsx:368-370 | the mute test on the normalised text; no contract of its own, characterised by `MuteTextIff` |
| FretInput.ParseInt | facgce-chord-explorer.tsx:373 | the global `parseInt`; no contract of its own, characterised by `ParseDecimal` and `ParseUnsignedDecimal` |
| FretInput.Display | facgce-chord-explorer.tsx:514 | what a fret field shows: empty for a muted string, else the numeral; no contract of its own, characterised by `RetypeDisplayed` |
| FretInput.HandleFretChange | facgce-chord-explorer.tsx:366-380 | same length; every other string unchanged; the edited one becomes -1 for "", "x", "-" after lower-casing and trimming, else `parseInt(value)` when it is in 0..24, else stays |
| FretInput.FretChangeKeepsValid | facgce-chord-explorer.tsx:366-380 | an edit keeps every fret muted or within 0..24 |
| FretInput.DecimalDigitsValue | facgce-chord-explorer.tsx:373 | the digits of a number read back as that number |
| FretInput.ParseDecimal | facgce-chord-explorer.tsx:373 | `parseInt` reads back the decimal numeral of every non-negative integer, whatever non-digit text follows it (an "x" right after "0" excepted, which is a hexadecimal prefix) |
| FretInput.ParseUnsignedDecimal | facgce-chord-explorer.tsx:373 | a string starting with a digit and no hex prefix parses as its leading digit run |
| FretInput.DigitPrefixOfDigits | facgce-chord-explorer.tsx:373 | the digit prefix of digits followed by a non-digit is those digits |
| FretInput.DecimalIsNotMute | facgce-chord-explorer.tsx:368-370 | a numeral is never read as a mute word |
| FretInput.NormalizeDigits | facgce-chord-explorer.tsx:368 | lower-casing and trimming leave a digit string alone |
| FretInput.DecimalReadsAsFret | facgce-chord-explorer.tsx:368-375 | the numeral of a board fret is not a mute word and parses to that fret |
| FretInput.FretChangeParsed | facgce-chord-explorer.tsx:372-375 | text that is not a mute word and parses to a board fret sets the string to it |
| FretInput.TypeFret | facgce-chord-explorer.tsx:366-380 | typing the number of a fret in 0..24 sets that string to it and nothing else |
| FretInput.RetypeDisplayed | facgce-chord-explorer.tsx:366-380 | re-entering what a field displays changes nothing |
| FretInput.TrimStartLower | facgce-chord-explorer.tsx:368 | leading trim and lower-casing commute |
| FretInput.TrimEndLower | facgce-chord-explorer.tsx:368 | trailing trim and lower-casing commute |
| FretInput.NormalizeCommutes | facgce-chord-explorer.tsx:368 | `value.toLowerCase().trim()` equals the lower-cased trimmed value |
| FretInput.LowerMuteWord | facgce-chord-explorer.tsx:370 | a lower-cased string is "", "x" or "-" exactly when the string is "", "x", "X" or "-" |
| FretInput.MuteTextIff | facgce-chord-explorer.tsx:368-371 | a field mutes its string exactly when, trimmed, it is "", "x", "X" or "-" |
| Progressions.Library | facgce-chord-explorer.tsx:31-151 | the 12 built-in progressions, in source order, each with its name, key and steps (degree, chord name, frets) |
| Progressions.RootToNashville | facgce-chord-explorer.tsx:402-414 | the name-prefix-to-degree table, its keys in declaration order |
| Progressions.Lookup | facgce-chord-explorer.tsx:417-423 | no degree exactly when no key is a prefix of the name; otherwise the value of the first key in table order that is |
| Progressions.NashvilleOf | facgce-chord-explorer.tsx:402-423 | `currentNashville` for a name; no contract of its own, characterised by `DegreeOfLetter`, `NoLetterNoDegree` and `MinorDegreesShadowed` |
| Progressions.LookupStep | facgce-chord-explorer.tsx:418-423 | one loop step: a matching key gives its degree, otherwise the lookup continues with the next key |
| Progressions.FindNashville | facgce-chord-explorer.tsx:417-423 | the loop with `break` finds the first-prefix degree |
| Progressions.DegreeOfLetter | facgce-chord-explorer.tsx:402-423 | a name starting with a letter A..G gets that letter's degree ("Dm7" gives "II") |
| Progressions.LetterKey | facgce-chord-explorer.tsx:402-414 | each letter's one-letter key and its degree in the table |
| Progressions.KeyFirstLetter | facgce-chord-explorer.tsx:402-423 | the first matching key is the one-letter key of the name's first letter |
| Progressions.NoLetterNoDegree | facgce-chord-explorer.tsx:417-423 | a name not starting with A..G has no degree |
| Progressions.MinorDegreesShadowed | facgce-chord-explorer.tsx:402-423 | no name is given ii, iii, vi or vii° |
| Progressions.HasDegree | facgce-chord-explorer.tsx:427 | the `some` test: a step has the degree; no contract of its own, used by `Matching` |
| Progressions.Matching | facgce-chord-explorer.tsx:426-428 | the filter keeps exactly the progressions with a step of the degree; it is empty exactly when none has one |
| Progressions.RandomIndex | facgce-chord-explorer.tsx:432 | `Math.floor(random * n)` is a valid index |
| Progressions.ScaledBelow | facgce-chord-explorer.tsx:432 | `random * n` lies in [0, n) |
| Progressions.UserStep | facgce-chord-explorer.tsx:440-449 | a step of the degree gets the user's name, frets and `isUserChord`; any other step is unchanged |
| Progressions.Substitute | facgce-chord-explorer.tsx:438-451 | name, key and length are kept and every step goes through `UserStep` |
| Progressions.HasSoundingString | facgce-chord-explorer.tsx:388 | `selectedFrets.some(f => f >= 0)`; no contract of its own |
| Progressions.Pool | facgce-chord-explorer.tsx:426-435 | the matching progressions, or the whole library when none match; no contract of its own |
| Progressions.Generated | facgce-chord-explorer.tsx:386-454 | the progression `generateProgression` sets; no contract of its own, characterised by `UnmatchedPicksLibrary` and `MatchedPickHoldsUserChord` |
| Progressions.GenerateProgression | facgce-chord-explorer.tsx:386-454 | the method computes the specified progression for every fretting and random value |
| Progressions.LibraryPlain | facgce-chord-explorer.tsx:31-151 | every library step has degree I, ii, iii, IV, V or vi and is not a user chord |
| Progressions.SubstituteFlagsIff | facgce-chord-explorer.tsx:438-451 | on a library progression, a step is flagged exactly when its degree matches; flagged steps carry the user's name and a copy of their frets; other steps are unchanged |
| Progressions.SubstituteNoMatch | facgce-chord-explorer.tsx:438-451 | a progression without the degree comes out unchanged |
| Progressions.SoundingNameDegree | facgce-chord-explorer.tsx:398-423 | a sounding fretting's name starts with A..G and always has a degree |
| Progressions.NoProgressionHas | facgce-chord-explorer.tsx:31-151 | no progression has degree II, III, VI or VII |
| Progressions.LetterUnmatched | facgce-chord-explorer.tsx:426-428 | names starting with D, E, A or B match no progression |
| Progressions.LetterMatched | facgce-chord-explorer.tsx:426-428 | names starting with C, F or G match some progression |
| Progressions.PickWithoutMatch | facgce-chord-explorer.tsx:433-451 | with no matching progression, the substitution changes nothing |
| Progressions.CustomNameMatches | facgce-chord-explorer.tsx:402-428 | a `Custom (…)` name gets degree I and always matches some progression |
| Progressions.SoundingPick | facgce-chord-explorer.tsx:426-451 | a sounding chord with no matching progression yields an unchanged library progression |
| Progressions.UnmatchedPicksLibrary | facgce-chord-explorer.tsx:388-451 | an all-muted input, or a chord named from D, E, A or B, gets `PROGRESSIONS[floor(random * 12)]` unmodified |
| Progressions.MatchedPickHoldsUserChord | facgce-chord-explorer.tsx:426-451 | when some progression matches, the pick is one of them with the substitution applied, and it contains the user's chord with their name and frets |
| Chat.Recent | api/chat.ts:13 | the pruned list keeps exactly the timestamps with `now - t < 60000`, each as often as it was stored (two requests in the same millisecond both count), and drops the others |
| Chat.RecentAppend | api/chat.ts:13 | pruning keeps the stored order: pruning a concatenation prunes each piece |
| Chat.Stored | api/chat.ts:11 | `rateLimit.get(ip) ?? []`; no contract of its own |
| Chat.Limited | api/chat.ts:13-14 | the window is full; no contract of its own, characterised by `RefusalIsStable` |
| Chat.AfterCall | api/chat.ts:13-20 | the table after one call; no contract of its own, characterised by `StoredAfterCall`, `StepKeepsBound` and `OtherAddressesUntouched` |
| Chat.ChatEndpoint.constructor | api/chat.ts:5 | the table starts empty |
| Chat.ChatEndpoint.IsRateLimited | api/chat.ts:9-21 | returns whether the pruned count is at least 20, and the map becomes the specified after-call table; the bound of 20 per address is preserved |
| Chat.ChatEndpoint.Handle | api/chat.ts:23-65 | the handler returns the specified reply and leaves the specified table |
| Chat.StoredAfterCall | api/chat.ts:13-20 | afterwards the ip's list holds only in-window stored timestamps and possibly `now`; when refused it is the pruned list, otherwise the pruned list with `now` appended, one longer |
| Chat.StepKeepsBound | api/chat.ts:7-21 | if every stored list has at most 20 entries before a call, the same holds after it |
| Chat.OtherAddressesUntouched | api/chat.ts:15-19 | only the entry for `ip` changes |
| Chat.RefusalIsStable | api/chat.ts:14-17 | a refused request is not recorded: a second call at the same instant is refused and changes nothing |
| Chat.RecentIdempotent | api/chat.ts:13 | pruning an already-pruned list at the same instant changes nothing |
| Chat.JsonContent | api/chat.ts:30-31 | a Content-Type header that includes `application/json`; no contract of its own |
| Chat.HasApiKey | api/chat.ts:50-51 | a set, non-empty API key; no contract of its own |
| Chat.PassesGates | api/chat.ts:25-39 | the request reaches the limiter: POST, a JSON content type, a body that is not `undefined` (whose stringified length would throw) and at most 10240 characters; no contract of its own |
| Chat.Checked | api/chat.ts:49-65 | the checks after the limiter: 500 for a missing key, a throw when a `null` body is destructured, then 400 for messages or the system prompt; no contract of its own, characterised by `StatusPrecedence` |
| Chat.Respond | api/chat.ts:23-65 | the reply and new table for one request; no contract of its own, characterised by `StatusPrecedence` and `LimiterCountsRejected` |
| Chat.StatusPrecedence | api/chat.ts:25-65 | each outcome is given exactly when all earlier checks pass and its own fails: 405, 400 (content type), a throw for an `undefined` body, 413, 429, 500, a throw for a `null` body, 400 (messages, system prompt); the model is called only when all pass |
| Chat.LimiterCountsRejected | api/chat.ts:41-65 | the table changes only for requests that pass the method, content-type and size checks; a request then refused with 500 or 400, or whose `null` body throws, is still recorded |
| Seqs.Distinct | facgce-chord-explorer.tsx:166 | `[...new Set(s)]` has the same members without duplicates, and starts with `s[0]` |
| Seqs.IndexOf | facgce-chord-explorer.tsx:155 | `indexOf` gives -1 exactly for absent values, otherwise the first position |
| Seqs.Somes | facgce-chord-explorer.tsx:162 | the filter keeps exactly the present values (order and multiplicity in `SomesAppend`, `SomesCounts`) |
| Seqs.SomesCounts | facgce-chord-explorer.tsx:162 | the filter keeps every present value as often as it occurs |
| Seqs.SomesAppend | facgce-chord-explorer.tsx:162 | the filter keeps order: filtering a concatenation filters each part |
| Seqs.SomesSnoc | facgce-chord-explorer.tsx:162 | filtering one more entry adds its value, if present, at the end |
| Seqs.FirstSome | facgce-chord-explorer.tsx:181 | `find` gives the first present value |
| Seqs.FirstSomeAt | facgce-chord-explorer.tsx:181 | when entry k is the first present one, `find` gives it |
| Seqs.Insert | facgce-chord-explorer.tsx:192 | inserting adds exactly one element, as a multiset |
| Seqs.InsertSorted | facgce-chord-explorer.tsx:192 | inserting keeps a sorted list sorted, and strictly so for a new element |
| Seqs.Sort | facgce-chord-explorer.tsx:192 | the numeric sort is an ascending permutation |
| Seqs.SortStrict | facgce-chord-explorer.tsx:192 | sorting distinct values gives a strictly ascending list |
| Seqs.StartsWith | facgce-chord-explorer.tsx:419 | `startsWith`; no contract of its own, characterised by `StartsWithIff` |
| Seqs.StartsWithIff | facgce-chord-explorer.tsx:419 | a string starts with a prefix exactly when it is that prefix followed by the rest |
| Seqs.Contains | api/chat.ts:31 | `includes`; no contract of its own, characterised by `ContainsIff` |
| Seqs.ContainsIff | api/chat.ts:31 | `includes` holds exactly when the substring occurs at some position |
| Seqs.Join | facgce-chord-explorer.tsx:255 | `join`; no contract of its own, characterised by `JoinAppend`, `JoinLength` and `ChordIdentifier.JoinAvoids` |
| Seqs.JoinAppend | facgce-chord-explorer.tsx:255 | joining two non-empty lists one after the other puts one separator between their joins |
| Seqs.JoinLength | facgce-chord-explorer.tsx:255 | a join is as long as its parts plus one separator between each pair |

## Left out

- UI: JSX rendering, React state wiring, dark mode, the notes display,
  `clearInput` and `loadChordShape` (facgce-chord-explorer.tsx:361-365,
  382-384, 456-644). `setSelectedFrets` and `setCurrentProgression` are
  modelled as return values.
- `CHORD_LIBRARY` (facgce-chord-explorer.tsx:8-27): no logic reads it.
- Randomness: `Math.random()` is the parameter `random`, in [0, 1).
- The real-number product in `Math.floor(random * n)` is exact here, not IEEE
  floating point.
- `ChordIdentifier.SelectBest`: the stable descending `sort` followed by `[0]`
  is modelled as a scan for the first candidate of maximal score. This gives
  the same element, but the sorted order of the other candidates is not
  modelled.
- `FretInput.ToLower`: lower-cases ASCII letters only. Full Unicode case
  mapping cannot turn any other text into "", "x" or "-", which is all the
  mute test compares against.
- `FretInput.ParseInt`: integers are unbounded, so the model has no `-0` and
  no floating-point rounding of very long digit strings. Neither changes
  whether the result lies in 0..24.
- The input element's `maxLength="2"` (facgce-chord-explorer.tsx:524) is a
  browser constraint. `handleFretChange` is modelled for every string, so
  the model covers more inputs than the page can send.
- `currentRoot` (facgce-chord-explorer.tsx:399) is computed and never used.
- Chat endpoint inputs:
  - `Date.now()` is the parameter `now`.
  - The client address, the length of `JSON.stringify(req.body)` and the
    `ANTHROPIC_API_KEY` setting are fields of `Chat.Request`.
  - The address extraction from `x-forwarded-for` or the socket is not
    modelled (api/chat.ts:42-44).
  - `messages` is represented by its array length and `systemPrompt` by an
    optional string.
  - A Content-Type header given as an array of strings is not modelled; the
    header is an optional string.
  - An uncaught `TypeError` ends the model at `Chat.Reply.Thrown`; the
    response the serverless runtime then sends is outside the handler and is
    not modelled.
- The model call and its 200/502 reply (api/chat.ts:67-84): a foreign network
  call. The model stops at `Chat.Reply.CallModel`.
- Concurrency: the handler is `async`, but nothing awaits before the rate
  limiter runs, so requests are modelled one after another.
