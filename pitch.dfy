/**
 * Pitch encoding and note generation. A pitch is a step number
 * `octave * 7 + letterIndex`, where the letter index counts C, D, E, F, G,
 * A, B as 0..6. Each clef fixes the step number of its bottom staff line
 * and the inclusive range from which questions are drawn.
 */
module Pitch {

  datatype Clef = Treble | Bass

  /** Step number of the bottom staff line: E4 for treble, G2 for bass. */
  function BottomLineStep(clef: Clef): (n: int)
    ensures n >= 0
    ensures FromStepNumber(n) == if clef == Treble then Pitch(4, 2) else Pitch(2, 4)
  {
    match clef
    case Treble => 4 * 7 + 2
    case Bass => 2 * 7 + 4
  }

  /** Lowest step number a question may use: C4 for treble, E2 for bass. */
  function RangeMin(clef: Clef): (n: int)
    ensures n >= 0 && n - BottomLineStep(clef) == -2
    ensures FromStepNumber(n) == if clef == Treble then Pitch(4, 0) else Pitch(2, 2)
  {
    match clef
    case Treble => 4 * 7 + 0
    case Bass => 2 * 7 + 2
  }

  /** Highest step number a question may use: A5 for treble, C4 for bass. */
  function RangeMax(clef: Clef): (n: int)
    ensures n >= 0 && n - BottomLineStep(clef) == 10
    ensures FromStepNumber(n) == if clef == Treble then Pitch(5, 5) else Pitch(4, 0)
  {
    match clef
    case Treble => 5 * 7 + 5
    case Bass => 4 * 7 + 0
  }

  predicate InRange(clef: Clef, stepNumber: int)
  {
    RangeMin(clef) <= stepNumber <= RangeMax(clef)
  }

  /** Index into the seven letter names, C = 0 up to B = 6. */
  type LetterIndex = i: int | 0 <= i < 7

  /** An octave and a letter: the decoded form of a step number. */
  datatype Pitch = Pitch(octave: nat, letterIndex: LetterIndex)

  /** The encoding `octave * 7 + letterIndex`. */
  function ToStepNumber(p: Pitch): nat
  {
    p.octave * 7 + p.letterIndex
  }

  /**
   * Decodes a step number with floor division and remainder. Negative step
   * numbers never occur, so the difference between the truncating remainder
   * of the original and Dafny's Euclidean one does not arise.
   */
  function FromStepNumber(stepNumber: int): (p: Pitch)
    requires stepNumber >= 0
    ensures ToStepNumber(p) == stepNumber
  {
    Pitch(stepNumber / 7, stepNumber % 7)
  }

  /** Decoding undoes encoding, so the encoding is a bijection onto the naturals. */
  lemma FromToStepNumber(p: Pitch)
    ensures FromStepNumber(ToStepNumber(p)) == p
  {
  }

  /** A question note as the original builds it. */
  datatype Note = Note(clef: Clef, stepNumber: int, octave: nat, letterIndex: LetterIndex, stepIndex: int)

  /**
   * The clef for the next question: a named clef mode is used as it is;
   * any other mode picks treble when the random draw `coin` (standing for
   * a uniform sample below one half) says so, bass otherwise.
   */
  function PickClef(mode: string, coin: bool): (c: Clef)
    ensures mode == "treble" ==> c == Treble
    ensures mode == "bass" ==> c == Bass
    ensures mode != "treble" && mode != "bass" ==> (c == Treble <==> coin)
  {
    if mode == "treble" then Treble
    else if mode == "bass" then Bass
    else if coin then Treble else Bass
  }

  /**
   * The note for a drawn step number: its decoding and its position
   * relative to the clef's bottom staff line.
   */
  function GetRandomNote(clef: Clef, stepNumber: int): (n: Note)
    requires InRange(clef, stepNumber)
    ensures n.clef == clef && n.stepNumber == stepNumber
    ensures Pitch(n.octave, n.letterIndex) == FromStepNumber(stepNumber)
    ensures n.octave * 7 + n.letterIndex == stepNumber
    ensures n.stepIndex == stepNumber - BottomLineStep(clef)
    ensures -2 <= n.stepIndex <= 10
  {
    var p := FromStepNumber(stepNumber);
    Note(clef, stepNumber, p.octave, p.letterIndex, stepNumber - BottomLineStep(clef))
  }

  /** Notes built by GetRandomNote from an in-range step number. */
  predicate WellFormed(n: Note)
  {
    InRange(n.clef, n.stepNumber) && n == GetRandomNote(n.clef, n.stepNumber)
  }

  /** The note shown before the first question: E4 on the treble bottom line. */
  function InitialNote(): (n: Note)
    ensures WellFormed(n) && n.stepIndex == 0
    ensures n.clef == Treble && n.octave == 4 && n.letterIndex == 2
  {
    Note(Treble, 4 * 7 + 2, 4, 2, 0)
  }

  /**
   * The clef tables in plain numbers: treble draws 28..40 over bottom line
   * 30 and bass draws 16..28 over bottom line 18, so both put the step
   * index in [-2, 10], at most one ledger line beyond the staff.
   */
  lemma ClefTables()
    ensures RangeMin(Treble) == 28 && RangeMax(Treble) == 40 && BottomLineStep(Treble) == 30
    ensures RangeMin(Bass) == 16 && RangeMax(Bass) == 28 && BottomLineStep(Bass) == 18
    ensures forall c: Clef :: RangeMin(c) - BottomLineStep(c) == -2 && RangeMax(c) - BottomLineStep(c) == 10
  {
  }
}
