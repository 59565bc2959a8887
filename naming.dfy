/**
 * Note names: a letter or solfege syllable chosen by naming style,
 * followed by the octave in decimal. ParseNoteName reads a name back, so
 * that the round trip shows no two notes share a name.
 */
module Naming {
  import opened Options
  import opened Pitch

  const Letters: seq<string> := ["C", "D", "E", "F", "G", "A", "B"]
  const Solfege: seq<string> := ["ド", "レ", "ミ", "ファ", "ソ", "ラ", "シ"]

  /** The name table for a naming style: letters for "letter", syllables for any other style. */
  function Table(style: string): (t: seq<string>)
    ensures |t| == 7
    ensures style == "letter" ==> t == Letters
    ensures style != "letter" ==> t == Solfege
    ensures forall i :: 0 <= i < |t| ==> |t[i]| > 0 && !IsDigit(t[i][|t[i]| - 1])
  {
    LettersWellFormed();
    SolfegeWellFormed();
    if style == "letter" then Letters else Solfege
  }

  predicate IsDigit(c: char)
  {
    '0' <= c <= '9'
  }

  predicate AllDigits(s: string)
  {
    forall i :: 0 <= i < |s| ==> IsDigit(s[i])
  }

  function DigitChar(d: int): (c: char)
    requires 0 <= d <= 9
    ensures IsDigit(c) && c as int - '0' as int == d
  {
    (d + '0' as int) as char
  }

  /** The decimal numeral of `n`, as a template string prints a non-negative integer. */
  function Decimal(n: nat): (s: string)
    ensures |s| > 0 && AllDigits(s)
    ensures |s| > 1 ==> s[0] != '0'
    ensures n < 10 <==> |s| == 1
  {
    if n < 10 then [DigitChar(n)] else Decimal(n / 10) + [DigitChar(n % 10)]
  }

  /** The value of a numeral. */
  function DecimalValue(s: string): nat
    requires AllDigits(s)
  {
    if s == [] then 0 else DecimalValue(s[..|s| - 1]) * 10 + (s[|s| - 1] as int - '0' as int)
  }

  lemma {:induction false} DecimalRoundTrip(n: nat)
    ensures DecimalValue(Decimal(n)) == n
  {
    if n >= 10 {
      var s := Decimal(n);
      assert s[..|s| - 1] == Decimal(n / 10);
      DecimalRoundTrip(n / 10);
    }
  }

  /** The name of a pitch: its table entry followed by the octave in decimal. */
  function PitchName(style: string, p: Pitch): (name: string)
    ensures Table(style)[p.letterIndex] <= name
    ensures var digits := name[|Table(style)[p.letterIndex]|..];
      digits != [] && AllDigits(digits) && DecimalValue(digits) == p.octave &&
      (|digits| > 1 ==> digits[0] != '0')
  {
    DecimalRoundTrip(p.octave);
    var name := Table(style)[p.letterIndex] + Decimal(p.octave);
    assert name[|Table(style)[p.letterIndex]|..] == Decimal(p.octave);
    name
  }

  /** The name shown when the answer is revealed. */
  function NoteName(style: string, note: Note): (name: string)
    ensures style == "letter" ==> Letters[note.letterIndex] <= name
    ensures style != "letter" ==> Solfege[note.letterIndex] <= name
    ensures var digits := name[|Table(style)[note.letterIndex]|..];
      digits != [] && AllDigits(digits) && DecimalValue(digits) == note.octave &&
      (|digits| > 1 ==> digits[0] != '0')
  {
    PitchName(style, Pitch(note.octave, note.letterIndex))
  }

  /** Start of the longest all-digit suffix of `s`. */
  function DigitSuffixStart(s: string): (k: nat)
    ensures k <= |s|
    ensures AllDigits(s[k..])
  {
    if s == [] || !IsDigit(s[|s| - 1]) then |s|
    else
      var k := DigitSuffixStart(s[..|s| - 1]);
      assert s[k..] == s[..|s| - 1][k..] + [s[|s| - 1]];
      k
  }

  /** Position of `x` in `table`, searching from `from`. */
  function Find(table: seq<string>, x: string, from: nat): (r: Option<nat>)
    decreases |table| - from
    ensures r.Some? ==> from <= r.value < |table| && table[r.value] == x
    ensures r.None? ==> forall i :: from <= i < |table| ==> table[i] != x
  {
    if from >= |table| then None
    else if table[from] == x then Some(from)
    else Find(table, x, from + 1)
  }

  /**
   * Reads a note name back into its letter index and octave: the trailing
   * digits are the octave, the rest must be an entry of the style's table.
   */
  function ParseNoteName(style: string, name: string): (r: Option<Pitch>)
    ensures r.Some? ==> PitchName(style, r.value) == name
  {
    var k := DigitSuffixStart(name);
    var digits := name[k..];
    match Find(Table(style), name[..k], 0)
    case None => None
    case Some(i) =>
      if digits == [] || (|digits| > 1 && digits[0] == '0') then None
      else
        var p := Pitch(DecimalValue(digits), i);
        CanonicalNumeral(digits);
        assert name == name[..k] + digits;
        Some(p)
  }

  /** A numeral without a leading zero is the decimal of its value. */
  lemma {:induction false} CanonicalNumeral(s: string)
    requires s != [] && AllDigits(s) && (|s| > 1 ==> s[0] != '0')
    ensures Decimal(DecimalValue(s)) == s
  {
    if |s| > 1 {
      var init := s[..|s| - 1];
      CanonicalNumeral(init);
      var w := DecimalValue(init);
      var d := s[|s| - 1] as int - '0' as int;
      assert 0 <= d <= 9 && DecimalValue(s) == w * 10 + d;
      assert init[0] == s[0];
      assert w >= 1 by {
        assert Decimal(w)[0] != '0';
      }
      DivModTen(w, d);
      assert s == init + [DigitChar(d)];
    } else {
      assert s[..0] == [] && IsDigit(s[0]);
      assert DecimalValue(s) == s[0] as int - '0' as int;
    }
  }

  lemma DivModTen(w: nat, d: int)
    requires 0 <= d <= 9
    ensures (w * 10 + d) / 10 == w && (w * 10 + d) % 10 == d
  {
  }

  /** No table entry is empty, ends in a digit, or shares its first character with another. */
  predicate WellFormedTable(t: seq<string>)
  {
    (forall i :: 0 <= i < |t| ==> |t[i]| > 0 && !IsDigit(t[i][|t[i]| - 1])) &&
    (forall i, j :: 0 <= i < j < |t| && |t[i]| > 0 && |t[j]| > 0 ==> t[i][0] != t[j][0])
  }

  lemma TablesWellFormed(style: string)
    ensures WellFormedTable(Table(style))
  {
    LettersWellFormed();
    SolfegeWellFormed();
  }

  lemma LettersWellFormed()
    ensures WellFormedTable(Letters)
  {
    assert forall i :: 0 <= i < 7 ==> |Letters[i]| == 1;
  }

  lemma SolfegeWellFormed()
    ensures WellFormedTable(Solfege)
  {
    var firsts := "ドレミフソラシ";
    var lasts := "ドレミァソラシ";
    assert forall i :: 0 <= i < 7 ==> |Solfege[i]| > 0 && Solfege[i][0] == firsts[i] && Solfege[i][|Solfege[i]| - 1] == lasts[i];
  }

  lemma {:induction false} DigitSuffixOfName(t: string, d: string)
    requires t == [] || !IsDigit(t[|t| - 1])
    requires AllDigits(d)
    ensures DigitSuffixStart(t + d) == |t|
    decreases |d|
  {
    if d == [] {
      assert t + d == t;
    } else {
      assert (t + d)[..|t + d| - 1] == t + d[..|d| - 1];
      DigitSuffixOfName(t, d[..|d| - 1]);
    }
  }

  /** Reading a name back gives the letter and octave it was written from. */
  lemma NameRoundTrip(style: string, p: Pitch)
    ensures ParseNoteName(style, PitchName(style, p)) == Some(p)
  {
    var table := Table(style);
    var t := table[p.letterIndex];
    var d := Decimal(p.octave);
    var name := PitchName(style, p);
    assert t != [] && !IsDigit(t[|t| - 1]) by {
      TablesWellFormed(style);
    }
    DigitSuffixOfName(t, d);
    assert name[..|t|] == t && name[|t|..] == d;
    FindEntry(style, p.letterIndex);
    DecimalRoundTrip(p.octave);
  }

  /** Searching a style's table for one of its entries finds that entry's index. */
  lemma FindEntry(style: string, i: LetterIndex)
    ensures Find(Table(style), Table(style)[i], 0) == Some(i)
  {
    TablesWellFormed(style);
  }

  /** Different letters or octaves give different names, in either style. */
  lemma NoteNameInjective(style: string, a: Note, b: Note)
    requires NoteName(style, a) == NoteName(style, b)
    ensures a.letterIndex == b.letterIndex && a.octave == b.octave
  {
    NameRoundTrip(style, Pitch(a.octave, a.letterIndex));
    NameRoundTrip(style, Pitch(b.octave, b.letterIndex));
  }

  /** C4 is "C4" in letter style and "ド4" in any other style. */
  lemma NameExamples(n: Note, style: string)
    requires n.letterIndex == 0 && n.octave == 4
    requires style != "letter"
    ensures NoteName("letter", n) == "C4"
    ensures NoteName(style, n) == "ド4"
  {
  }
}
