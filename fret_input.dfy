/** The fret text fields of facgce-chord-explorer.tsx: `handleFretChange`
    turns what was typed for one string into the mute sentinel -1 or a fret
    in 0..24, and the field shows a fret back as its decimal digits (or as
    nothing when muted). The JavaScript string built-ins it relies on
    (`trim`, `toLowerCase`, global `parseInt`) are modelled here. */
module FretInput {
  import opened Seqs

  const Muted := -1
  const MaxFret := 24

  /** Every fret is muted or within the fretboard. */
  predicate ValidFrets(frets: seq<int>) {
    forall j :: 0 <= j < |frets| ==> Muted <= frets[j] <= MaxFret
  }

  // ---------------------------------------------------------------------------
  // String built-ins

  /** The characters `String.prototype.trim` and `parseInt` strip: the
      ECMAScript WhiteSpace and LineTerminator code points. */
  predicate IsJsWhitespace(c: char) {
    c == '\t' || c == '\n' || c == '\U{000B}' || c == '\U{000C}' || c == '\r' || c == ' '
    || c == '\U{00A0}' || c == '\U{1680}' || ('\U{2000}' <= c <= '\U{200A}')
    || c == '\U{2028}' || c == '\U{2029}' || c == '\U{202F}' || c == '\U{205F}'
    || c == '\U{3000}' || c == '\U{FEFF}'
  }

  /** `s` with its leading whitespace removed. */
  function TrimStart(s: string): (r: string)
    ensures |r| <= |s| && r == s[|s| - |r|..]
    ensures forall i :: 0 <= i < |s| - |r| ==> IsJsWhitespace(s[i])
    ensures |r| > 0 ==> !IsJsWhitespace(r[0])
  {
    if |s| > 0 && IsJsWhitespace(s[0]) then TrimStart(s[1..]) else s
  }

  /** `s` with its trailing whitespace removed. */
  function TrimEnd(s: string): (r: string)
    ensures |r| <= |s| && r == s[..|r|]
    ensures forall i :: |r| <= i < |s| ==> IsJsWhitespace(s[i])
    ensures |r| > 0 ==> !IsJsWhitespace(r[|r| - 1])
  {
    if |s| > 0 && IsJsWhitespace(s[|s| - 1]) then TrimEnd(s[..|s| - 1]) else s
  }

  /** `String.prototype.trim`. */
  function Trim(s: string): string {
    TrimEnd(TrimStart(s))
  }

  function LowerChar(c: char): char {
    if 'A' <= c <= 'Z' then (c as int + 32) as char else c
  }

  /** `String.prototype.toLowerCase`, on the ASCII letters. */
  function ToLower(s: string): (r: string)
    ensures |r| == |s| && forall i :: 0 <= i < |s| ==> r[i] == LowerChar(s[i])
  {
    seq(|s|, i requires 0 <= i < |s| => LowerChar(s[i]))
  }

  /** The value of `c` as a digit in any radix up to 36, or -1. */
  function DigitValue(c: char): (d: int)
    ensures -1 <= d < 36
  {
    if '0' <= c <= '9' then c as int - '0' as int
    else if 'a' <= c <= 'z' then c as int - 'a' as int + 10
    else if 'A' <= c <= 'Z' then c as int - 'A' as int + 10
    else -1
  }

  predicate IsDigit(c: char, radix: int) {
    0 <= DigitValue(c) < radix
  }

  /** How many leading characters of `s` are digits in `radix`. */
  function DigitPrefixLength(s: string, radix: int): (k: nat)
    ensures k <= |s|
    ensures forall i :: 0 <= i < k ==> IsDigit(s[i], radix)
    ensures k < |s| ==> !IsDigit(s[k], radix)
  {
    if |s| > 0 && IsDigit(s[0], radix) then 1 + DigitPrefixLength(s[1..], radix) else 0
  }

  /** The number a string of digits denotes in `radix` (decimal or
      hexadecimal, the two `parseInt` reads here), most significant first. */
  function DigitsValue(s: string, radix: int): int
    requires radix == 10 || radix == 16
    requires forall i :: 0 <= i < |s| ==> IsDigit(s[i], radix)
  {
    if |s| == 0 then 0
    else if radix == 16 then DigitsValue(s[..|s| - 1], radix) * 16 + DigitValue(s[|s| - 1])
    else DigitsValue(s[..|s| - 1], radix) * 10 + DigitValue(s[|s| - 1])
  }

  /** Global `parseInt(s)` with no radix: skip leading whitespace, take one
      optional sign, read hexadecimal after a `0x`/`0X` prefix and decimal
      otherwise, and stop at the first non-digit; `None` stands for `NaN`. */
  function ParseInt(s: string): Option<int> {
    var t := TrimStart(s);
    var negative := |t| > 0 && t[0] == '-';
    var u := if |t| > 0 && (t[0] == '+' || t[0] == '-') then t[1..] else t;
    var hex := |u| >= 2 && u[0] == '0' && (u[1] == 'x' || u[1] == 'X');
    var radix := if hex then 16 else 10;
    var digits := if hex then u[2..] else u;
    var k := DigitPrefixLength(digits, radix);
    if k == 0 then None
    else
      var m := DigitsValue(digits[..k], radix);
      Some(if negative then -m else m)
  }

  // ---------------------------------------------------------------------------
  // Showing a fret

  function DigitChar(d: int): (c: char)
    requires 0 <= d < 10
    ensures '0' <= c <= '9' && DigitValue(c) == d
  {
    ('0' as int + d) as char
  }

  /** The decimal numeral JavaScript writes for a non-negative integer. */
  function DecimalString(n: nat): (s: string)
    ensures |s| > 0
    ensures forall i :: 0 <= i < |s| ==> '0' <= s[i] <= '9'
  {
    if n < 10 then [DigitChar(n)] else DecimalString(n / 10) + [DigitChar(n % 10)]
  }

  /** What the field shows for a fret: `fret < 0 ? '' : fret`. */
  function Display(fret: int): string {
    if fret < 0 then "" else DecimalString(fret)
  }

  // ---------------------------------------------------------------------------
  // handleFretChange

  /** The words that mute a string: "", "x" and "-". */
  predicate IsMuteWord(w: string) {
    |w| == 0 || (|w| == 1 && (w[0] == 'x' || w[0] == '-'))
  }

  /** `value.toLowerCase().trim()` is a mute word. */
  predicate IsMuteText(value: string) {
    IsMuteWord(Trim(ToLower(value)))
  }

  /** Whether `parseInt(value)` gives a fret the board has. */
  predicate ParsesToFret(value: string) {
    ParseInt(value).Some? && 0 <= ParseInt(value).value <= MaxFret
  }

  /** `handleFretChange(stringIndex, value)` on the current frets: the copied
      array with the one entry reassigned, or left as it was. `parseInt` reads
      the raw `value`, not the normalised text. */
  function HandleFretChange(frets: seq<int>, stringIndex: int, value: string): (newFrets: seq<int>)
    requires 0 <= stringIndex < |frets|
    ensures |newFrets| == |frets|
    ensures forall j :: 0 <= j < |frets| && j != stringIndex ==> newFrets[j] == frets[j]
    ensures newFrets[stringIndex] ==
      if IsMuteText(value) then Muted
      else if ParsesToFret(value) then ParseInt(value).value
      else frets[stringIndex]
  {
    if IsMuteText(value) then frets[stringIndex := Muted]
    else
      var num := ParseInt(value);
      if num.Some? && num.value >= 0 && num.value <= MaxFret then frets[stringIndex := num.value]
      else frets
  }

  // ---------------------------------------------------------------------------
  // Properties

  /** An edit keeps every fret muted or on the board. */
  lemma FretChangeKeepsValid(frets: seq<int>, stringIndex: int, value: string)
    requires 0 <= stringIndex < |frets| && ValidFrets(frets)
    ensures ValidFrets(HandleFretChange(frets, stringIndex, value))
  {
  }

  /** The digits of a non-negative number read back, as decimal digits, as
      that number. */
  lemma {:induction false} DecimalDigitsValue(n: nat)
    ensures forall i :: 0 <= i < |DecimalString(n)| ==> IsDigit(DecimalString(n)[i], 10)
    ensures DigitsValue(DecimalString(n), 10) == n
  {
    var s := DecimalString(n);
    if n >= 10 {
      DecimalDigitsValue(n / 10);
      assert s[..|s| - 1] == DecimalString(n / 10);
    }
  }

  /** `parseInt` inverts the decimal numeral of every non-negative integer,
      and stops at the first character after it that is not a digit (unless
      the numeral is "0" and an `x` follows, which reads as hexadecimal). */
  lemma ParseDecimal(n: nat, rest: string)
    requires |rest| > 0 ==> !IsDigit(rest[0], 10)
    requires |rest| > 0 && n == 0 ==> rest[0] != 'x' && rest[0] != 'X'
    ensures ParseInt(DecimalString(n) + rest) == Some(n)
  {
    var d := DecimalString(n);
    var s := d + rest;
    DecimalDigitsValue(n);
    DigitPrefixOfDigits(d, rest, 10);
    assert s[..|d|] == d;
    assert |s| >= 2 && s[0] == '0' ==> s[1] != 'x' && s[1] != 'X' by {
      if |s| >= 2 && s[0] == '0' {
        if |d| == 1 { assert s[1] == rest[0]; } else { assert s[1] == d[1]; }
      }
    }
    ParseUnsignedDecimal(s, |d|);
  }

  /** A string that starts with a decimal digit and no hexadecimal prefix
      parses as its leading run of digits. */
  lemma ParseUnsignedDecimal(s: string, k: nat)
    requires |s| > 0 && '0' <= s[0] <= '9'
    requires |s| >= 2 && s[0] == '0' ==> s[1] != 'x' && s[1] != 'X'
    requires DigitPrefixLength(s, 10) == k
    ensures ParseInt(s) == Some(DigitsValue(s[..k], 10))
  {
    DigitNotSpace(s[0]);
    assert TrimStart(s) == s;
  }

  lemma DigitNotSpace(c: char)
    requires '0' <= c <= '9'
    ensures !IsJsWhitespace(c)
  {
  }

  /** The digit prefix of a run of digits followed by a non-digit is that run. */
  lemma {:induction false} DigitPrefixOfDigits(s: string, rest: string, radix: int)
    requires forall i :: 0 <= i < |s| ==> IsDigit(s[i], radix)
    requires |rest| > 0 ==> !IsDigit(rest[0], radix)
    ensures DigitPrefixLength(s + rest, radix) == |s|
  {
    if |s| > 0 {
      assert (s + rest)[1..] == s[1..] + rest;
      DigitPrefixOfDigits(s[1..], rest, radix);
    } else {
      assert s + rest == rest;
    }
  }

  /** A decimal numeral is not a mute word: it has no whitespace to trim,
      no capital to lower, and its first character is a digit. */
  lemma DecimalIsNotMute(n: nat)
    ensures !IsMuteText(DecimalString(n))
  {
    var s := DecimalString(n);
    NormalizeDigits(s);
  }

  /** A string of digits is left alone by lower-casing and trimming. */
  lemma NormalizeDigits(s: string)
    requires |s| > 0 && forall i :: 0 <= i < |s| ==> '0' <= s[i] <= '9'
    ensures Trim(ToLower(s)) == s
  {
    assert ToLower(s) == s;
    DigitNotSpace(s[0]);
    assert TrimStart(s) == s;
    DigitNotSpace(s[|s| - 1]);
    assert TrimEnd(s) == s;
  }

  /** Typing the number of a fret on the board sets that string to it. */
  lemma TypeFret(frets: seq<int>, stringIndex: int, n: nat)
    requires 0 <= stringIndex < |frets| && n <= MaxFret
    ensures HandleFretChange(frets, stringIndex, DecimalString(n)) == frets[stringIndex := n]
  {
    DecimalReadsAsFret(n);
    FretChangeParsed(frets, stringIndex, DecimalString(n));
  }

  /** The numeral of a fret on the board is read as that fret. */
  lemma DecimalReadsAsFret(n: nat)
    requires n <= MaxFret
    ensures !IsMuteText(DecimalString(n)) && ParsesToFret(DecimalString(n))
    ensures ParseInt(DecimalString(n)).value == n
  {
    var v := DecimalString(n);
    ParseDecimal(n, "");
    assert v + "" == v;
    DecimalIsNotMute(n);
  }

  /** Text that is no mute word and parses to a fret sets the string to it. */
  lemma FretChangeParsed(frets: seq<int>, stringIndex: int, value: string)
    requires 0 <= stringIndex < |frets|
    requires !IsMuteText(value) && ParsesToFret(value)
    ensures HandleFretChange(frets, stringIndex, value) == frets[stringIndex := ParseInt(value).value]
  {
  }

  /** Re-entering what a field shows changes nothing. */
  lemma RetypeDisplayed(frets: seq<int>, stringIndex: int)
    requires 0 <= stringIndex < |frets| && ValidFrets(frets)
    ensures HandleFretChange(frets, stringIndex, Display(frets[stringIndex])) == frets
  {
    var f := frets[stringIndex];
    if f < 0 {
      assert |Trim(ToLower(""))| == 0;
    } else {
      TypeFret(frets, stringIndex, f);
    }
  }

  /** Lower-casing keeps whitespace and non-whitespace apart. */
  lemma LowerKeepsWhitespace(c: char)
    ensures IsJsWhitespace(LowerChar(c)) == IsJsWhitespace(c)
  {
  }

  lemma {:induction false} TrimStartLower(s: string)
    ensures TrimStart(ToLower(s)) == ToLower(TrimStart(s))
  {
    if |s| > 0 {
      LowerKeepsWhitespace(s[0]);
      assert ToLower(s)[1..] == ToLower(s[1..]);
      TrimStartLower(s[1..]);
    }
  }

  lemma {:induction false} TrimEndLower(s: string)
    ensures TrimEnd(ToLower(s)) == ToLower(TrimEnd(s))
  {
    if |s| > 0 {
      LowerKeepsWhitespace(s[|s| - 1]);
      assert ToLower(s)[..|s| - 1] == ToLower(s[..|s| - 1]);
      TrimEndLower(s[..|s| - 1]);
    }
  }

  /** Lower-casing and trimming can be done in either order. */
  lemma NormalizeCommutes(value: string)
    ensures Trim(ToLower(value)) == ToLower(Trim(value))
  {
    TrimStartLower(value);
    TrimEndLower(TrimStart(value));
  }

  /** The lower-cased text is a mute word exactly when the text is "", "x",
      "X" or "-". */
  lemma LowerMuteWord(t: string)
    ensures IsMuteWord(ToLower(t)) <==>
      |t| == 0 || (|t| == 1 && (t[0] == 'x' || t[0] == 'X' || t[0] == '-'))
  {
  }

  /** A field is read as muted exactly when, once trimmed, it is empty,
      "x", "X" or "-". */
  lemma MuteTextIff(value: string)
    ensures IsMuteText(value) <==>
      var t := Trim(value);
      |t| == 0 || (|t| == 1 && (t[0] == 'x' || t[0] == 'X' || t[0] == '-'))
  {
    NormalizeCommutes(value);
    LowerMuteWord(Trim(value));
  }
}
