# ClefCoach note-reading trainer: a Dafny model of its domain core

ClefCoach shows a random note on a treble or bass staff, waits, reveals the
note's name, waits again, and repeats; the user can skip ahead, stop, or
change the settings at any time. This project models the logic inside
`app.js` without its browser plumbing:

- **Pitch** (`pitch.dfy`): step numbers `octave * 7 + letterIndex`, their
  decoding, the clef tables (bottom-line step and question range), clef
  choice and note generation with the random draws passed in.
- **Staff** (`staff.dfy`): the integer staff geometry (`LineY`, `StepToY`)
  and the ledger-line loops of the note renderer, lifted into the method
  `LedgerLines`, proved equal to the reference definition `LedgerSteps`.
- **Naming** (`naming.dfy`): letter or solfege names with the octave in
  decimal. The original has no parser; `ParseNoteName` (with
  `DigitSuffixStart`, `Find`, `DecimalValue` and `CanonicalNumeral`) is this
  model's own inverse of `noteName`, there to prove that no two notes share
  a name.
- **Durations** (`durations.dfy`): the defaulting and 100 ms clamp of the
  two phase durations.
- **Quiz** (`quiz.dfy`): the scheduler's transition table on a `QuizState`
  snapshot, with the invariant every event preserves.
- **Scheduler** (`scheduler.dfy`): class `Trainer`, whose fields are the
  original's module-level variables and whose methods mirror `start`,
  `stop`, `schedule`, `clearTimer`, the skip and control-change handlers
  and the two timer callbacks; each method's new state is the matching
  `Quiz` transition of its old state. The method `Session` is a client of
  the class, not a model of any source function: it drives a start, a
  question timeout, a skip and a stop, and checks that the `Trainer`
  contracts compose into the expected states.

Where the code behaves other than one might expect, the model follows the
code:

- The answer duration is read once, in `schedule`, and captured by the
  question timer's callback; it is not re-read when the answer phase
  starts. `Quiz.QuestionTimer` carries it.
- Skipping in the question phase reveals the answer and arms no timer; the
  answer then stays until the next skip or control change while running,
  or the next start (stop leaves it shown).
- `stop` does not clear the current note, the answer text or
  `showingAnswer`.
- The ledger lines are listed from the farthest one inward to the staff.

The evenness test `s % 2 === 0` of the original agrees with Dafny's
Euclidean `s % 2 == 0` for negative `s` as well, so it is written as is.

## Model

| member | source | states |
|---|---|---|
| Pitch.BottomLineStep | app.js:33-36 | the bottom staff line is E4 (octave 4, letter 2) for treble and G2 (octave 2, letter 4) for bass |
| Pitch.RangeMin | app.js:38-42 | the lowest question note is C4 for treble and E2 for bass, in both cases two steps below the bottom line |
| Pitch.RangeMax | app.js:38-42 | the highest question note is A5 for treble and C4 for bass, in both cases ten steps above the bottom line |
| Pitch.FromStepNumber | app.js:118-122 | for a non-negative step number the decoded letter index lies in 0..6 and `octave * 7 + letterIndex` gives the number back |
| Pitch.FromToStepNumber | app.js:118-122 | decoding the encoding of any octave and letter gives them back, so the encoding is one-to-one |
| Pitch.PickClef | app.js:108-112 | a "treble" or "bass" mode is used as it is; any other mode gives treble exactly when the random draw is below one half |
| Pitch.GetRandomNote | app.js:124-131 | the note keeps clef and step number, decodes the step number, has step index = step number minus the clef's bottom-line step, and that index lies in [-2, 10] |
| Pitch.InitialNote | app.js:275 | the note on page load is the well-formed treble E4 on the bottom line (step index 0) |
| Pitch.ClefTables | app.js:33-42 | treble draws 28..40 over bottom line 30, bass 16..28 over bottom line 18; both ranges span step indices -2..10 |
| Staff.LineY | app.js:53-55 | line 4 is at the staff top (y 60); lines 0..4 lie between y 60 and y 124; only line 0 and below reach y 124 or more |
| Staff.StepToY | app.js:57-60 | an even step index 2k is drawn at the y of line k, for every k; a step is drawn above the bottom line exactly when its index is positive |
| Staff.StepToYOnLines | app.js:53-60 | the even step index 2k is drawn exactly on staff line k, for k in 0..4 |
| Staff.StepToYStrictlyDecreasing | app.js:53-60 | a higher step index is drawn strictly higher, exactly 8 px per step |
| Staff.StepToYWithinStaff | app.js:21-60 | step indices 0..8 are drawn between the top line (y 60) and the bottom line (y 124) |
| Staff.LedgerLines | app.js:137-176 | the ledger steps the two loops visit, in order, equal the reference list `LedgerSteps`, and the short on-note mark is drawn exactly when the note's own step is one of them |
| Staff.LedgerMembership | app.js:141-157 | a step is a ledger line exactly when it is even and lies between the note (inclusive) and the staff, below it from s-1 to -2 or above it from 10 to s+1 |
| Staff.LedgerOrder | app.js:141-157 | the list is empty exactly when 0 <= s <= 8; otherwise it starts at the farthest even step, moves two steps toward the staff each time and ends at -2 or 10 |
| Staff.OnLedgerIsLedger | app.js:172 | the on-note mark condition (outside 0..8 and even) holds exactly when the note head sits on one of its ledger lines |
| Staff.LedgerWithinRange | app.js:141-157 | for step indices -2..10, -1 and -2 need only the line at -2, 9 and 10 only the line at 10, the rest none |
| Naming.Table | app.js:179-183 | seven entries: the letter table for style "letter", the syllable table for every other style; every entry is non-empty and does not end in a digit, so the octave digits that follow it can be told apart |
| Naming.TablesWellFormed | app.js:28-29 | no entry of either table is empty or ends in a digit, and no two entries share a first character |
| Naming.PitchName | app.js:181-184 | the name of a letter and octave is the style's table entry followed by a non-empty digit string without a leading zero whose value is the octave, that is, the octave's decimal numeral |
| Naming.NoteName | app.js:179-185 | the name starts with the note's letter for style "letter" and with its syllable for any other style, followed by digits without a leading zero whose value is the octave, that is, the octave's decimal numeral |
| Naming.Decimal | app.js:184 | the octave numeral is non-empty, all digits, single-digit exactly below 10 and has no leading zero |
| Naming.DecimalRoundTrip | app.js:184 | the value of the numeral of n is n |
| Naming.ParseNoteName | app.js:179-185 | inverse partner of `noteName`, not a model of any source function: any name it accepts is the name of the letter and octave it returns |
| Naming.NameRoundTrip | app.js:179-185 | parsing the name of a letter and octave, in either style, gives them back |
| Naming.NoteNameInjective | app.js:179-185 | two notes with the same name in a style have the same letter and octave |
| Naming.NameExamples | app.js:179-185 | letter 0 in octave 4 is "C4" in letter style and "ド4" in every style other than "letter" |
| Durations.ClampedMs | app.js:203-204 | one duration: at least 100 ms; a missing or zero input uses the default (clamped); an input of at least 0.1 s is used as given; any other non-zero input becomes 100 ms |
| Durations.MsFromInputs | app.js:202-206 | each duration is at least 100 ms; missing or zero inputs give 2000 and 1000 ms; inputs of at least 0.1 s are used as given; other non-zero inputs become 100 ms |
| Quiz.Initial | app.js:273-277 | the page starts stopped, with no timer and the E4 note, in a state that satisfies the invariant |
| Quiz.ClearTimer | app.js:226-231 | no timer is pending afterwards and nothing else changes |
| Quiz.ClearTimerIdempotent | app.js:226-231 | cancelling twice is the same as cancelling once |
| Quiz.ShowQuestion | app.js:187-194 | the current note becomes the note drawn for the picked clef, the answer is blanked and `showingAnswer` cleared; running and the timer are untouched |
| Quiz.ShowAnswer | app.js:196-200 | with a current note, its name in the configured style is shown and `showingAnswer` set, timer untouched; without one nothing changes |
| Quiz.Schedule | app.js:187-224 | a running quiz gets a fresh question and exactly one question timer with the durations read now; a stopped one only loses its timer; the invariant is preserved |
| Quiz.Start | app.js:233-240 | a no-op while running; otherwise the quiz runs with a fresh question; the invariant is preserved |
| Quiz.Stop | app.js:242-248 | the quiz is stopped with no timer pending, the note and `showingAnswer` untouched; the invariant is preserved |
| Quiz.Skip | app.js:253-263 | a no-op when stopped; in the question phase the answer is revealed with no timer armed; in the answer phase a fresh question starts; the invariant is preserved |
| Quiz.ControlChange | app.js:265-271 | a no-op when stopped; otherwise a fresh question with the new settings; the invariant is preserved |
| Quiz.QuestionTimerFires | app.js:215-219 | the answer is revealed and exactly one answer timer is armed, with the answer duration read when the question began; the invariant is preserved |
| Quiz.AnswerTimerFires | app.js:219-222 | a fresh question starts; the invariant is preserved |
| Quiz.StopThenStart | app.js:233-248 | from any state, stop then start yields a fresh question |
| Scheduler.Trainer.constructor | app.js:273-277 | the trainer starts in the initial state |
| Scheduler.Trainer.ClearTimer | app.js:226-231 | the fields change as `Quiz.ClearTimer` says |
| Scheduler.Trainer.ShowQuestion | app.js:187-194 | current note, answer text and `showingAnswer` change as a new question needs |
| Scheduler.Trainer.ShowAnswer | app.js:196-200 | with a current note, its name is shown and `showingAnswer` set; without one nothing changes |
| Scheduler.Trainer.Schedule | app.js:208-224 | the fields change as `Quiz.Schedule` says |
| Scheduler.Trainer.Start | app.js:233-240 | the invariant is kept and the fields change as `Quiz.Start` says |
| Scheduler.Trainer.Stop | app.js:242-248 | the invariant is kept and the fields change as `Quiz.Stop` says |
| Scheduler.Trainer.Skip | app.js:253-263 | the invariant is kept and the fields change as `Quiz.Skip` says |
| Scheduler.Trainer.ControlChange | app.js:265-271 | the invariant is kept and the fields change as `Quiz.ControlChange` says |
| Scheduler.Trainer.FireQuestionTimer | app.js:215-219 | the invariant is kept and the fields change as `Quiz.QuestionTimerFires` says |
| Scheduler.Trainer.FireAnswerTimer | app.js:219-222 | the invariant is kept and the fields change as `Quiz.AnswerTimerFires` says |

## Left out

- SVG and DOM construction (`el`, `clearGroup`, `drawStaff`, the clef glyphs and labels, the note-head ellipse and its x positions, the button `disabled` toggles): rendering, not logic. Of the answer element only its text is kept, as `answerText`.
- `setTimeout`, `clearTimeout` and the event-listener wiring: the pending timer is a field, and its expiry is an explicit method call that requires the matching timer to be pending, as the browser only runs armed, uncancelled timers. Nothing runs concurrently.
- `Math.random` and `randomInt`: the clef coin and the drawn step number are parameters (`Quiz.Draw`), required to lie in the picked clef's range; the uniform distribution is not modelled.
- `parseFloat`: each duration input arrives already parsed, `None` standing for a value that is not a number; zero is treated as missing, as the original's `||` does. Infinite inputs are not modelled.
- Durations are exact reals, not IEEE doubles: `0.1 * 1000` is exactly 100 here.
- Pitch.FromStepNumber: requires a non-negative step number; the truncating remainder of the original on negative numbers is not modelled, since no range reaches them.
- Pitch.GetRandomNote: requires the step number to lie in the clef's range, which `randomInt` guarantees in the original.
- Naming.NoteName covers letter indices 0..6 only, the only ones a decoded step number produces; out-of-table indices (an "undefined" prefix in the original) cannot be built.
