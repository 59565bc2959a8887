/**
 * Phase durations read from the two duration inputs, in seconds, turned
 * into milliseconds. An input is given already parsed: None stands for a
 * value that does not parse as a number.
 */
module Durations {
  import opened Options

  const DefaultQuestionSeconds: real := 2.0
  const DefaultAnswerSeconds: real := 1.0
  const MinSeconds: real := 0.1

  datatype Durations = Durations(questionMs: real, answerMs: real)

  function Max(a: real, b: real): real
  {
    if a >= b then a else b
  }

  /** One input: a missing or zero value falls back to the default; the result is clamped to at least 0.1 s. */
  function ClampedMs(input: Option<real>, defaultSeconds: real): (ms: real)
    ensures ms >= MinSeconds * 1000.0
    ensures input.None? || input == Some(0.0) ==> ms == Max(MinSeconds, defaultSeconds) * 1000.0
    ensures input.Some? && input.value >= MinSeconds ==> ms == input.value * 1000.0
    ensures input.Some? && input.value != 0.0 && input.value < MinSeconds ==> ms == MinSeconds * 1000.0
  {
    var seconds := if input.None? || input.value == 0.0 then defaultSeconds else input.value;
    Max(MinSeconds, seconds) * 1000.0
  }

  /**
   * Both phase durations. Each is at least 100 ms; a missing or zero input
   * gives 2000 ms for the question and 1000 ms for the answer; an input of
   * at least 0.1 s is used as given; any other non-zero input, negative
   * ones included, is raised to 100 ms.
   */
  function MsFromInputs(question: Option<real>, answer: Option<real>): (d: Durations)
    ensures d.questionMs >= 100.0 && d.answerMs >= 100.0
    ensures question.None? || question == Some(0.0) ==> d.questionMs == 2000.0
    ensures answer.None? || answer == Some(0.0) ==> d.answerMs == 1000.0
    ensures question.Some? && question.value >= MinSeconds ==> d.questionMs == question.value * 1000.0
    ensures answer.Some? && answer.value >= MinSeconds ==> d.answerMs == answer.value * 1000.0
    ensures question.Some? && question.value != 0.0 && question.value < MinSeconds ==> d.questionMs == 100.0
    ensures answer.Some? && answer.value != 0.0 && answer.value < MinSeconds ==> d.answerMs == 100.0
  {
    Durations(ClampedMs(question, DefaultQuestionSeconds), ClampedMs(answer, DefaultAnswerSeconds))
  }
}
