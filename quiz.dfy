/**
 * The quiz scheduler's transition table, on a snapshot of its state. The
 * snapshot holds the four module-level variables of the trainer (running,
 * showingAnswer, the pending timer and the current note) and the text of
 * the answer display. Config is what the form controls say when an event
 * is handled; Draw is the random choices a new question needs.
 */
module Quiz {
  import opened Options
  import opened Pitch
  import opened Naming
  import opened Durations

  datatype Phase = Question | Answer

  /**
   * A pending timer. The question timer also carries the answer duration
   * read when it was armed: the answer timer uses that value, not one read
   * when the question timer fires.
   */
  datatype Timer =
    | QuestionTimer(durationMs: real, answerMs: real)
    | AnswerTimer(durationMs: real)
  {
    function Phase(): Phase
    {
      if QuestionTimer? then Question else Answer
    }
  }

  datatype Config = Config(clefMode: string, naming: string, questionSeconds: Option<real>, answerSeconds: Option<real>)

  /** The random choices of one question: the clef coin and the drawn step number. */
  datatype Draw = Draw(coin: bool, stepNumber: int)

  datatype QuizState = QuizState(running: bool, showingAnswer: bool, timer: Option<Timer>, current: Option<Note>, answerText: string)

  /** The random-number source only draws step numbers inside the picked clef's range. */
  predicate ValidDraw(cfg: Config, draw: Draw)
  {
    InRange(PickClef(cfg.clefMode, draw.coin), draw.stepNumber)
  }

  const StartPrompt: string := "\"開始\" でスタート"
  const BlankAnswer: string := " "

  /**
   * The scheduler invariant: a pending timer means the quiz is running and
   * its phase agrees with showingAnswer; a running quiz has a note; every
   * note is one the generator can produce; timers last at least 100 ms,
   * and so does the answer duration a question timer carries.
   */
  ghost predicate Inv(q: QuizState)
  {
    (q.timer.Some? ==> q.running) &&
    (q.timer.Some? ==> (q.timer.value.Phase() == Question <==> !q.showingAnswer)) &&
    (q.running ==> q.current.Some?) &&
    (q.current.Some? ==> WellFormed(q.current.value)) &&
    (q.timer.Some? ==> q.timer.value.durationMs >= 100.0) &&
    (q.timer.Some? && q.timer.value.QuestionTimer? ==> q.timer.value.answerMs >= 100.0)
  }

  /** The state on page load: stopped, no timer, E4 shown on the treble staff. */
  function Initial(): (q: QuizState)
    ensures Inv(q) && !q.running && q.timer.None? && !q.showingAnswer
    ensures q.current == Some(InitialNote())
  {
    QuizState(false, false, None, Some(InitialNote()), StartPrompt)
  }

  /** The state right after a new question is shown, with its timer armed. */
  ghost predicate FreshQuestion(r: QuizState, cfg: Config, draw: Draw)
    requires ValidDraw(cfg, draw)
  {
    var d := MsFromInputs(cfg.questionSeconds, cfg.answerSeconds);
    r.running && !r.showingAnswer &&
    r.timer == Some(QuestionTimer(d.questionMs, d.answerMs)) &&
    r.current == Some(GetRandomNote(PickClef(cfg.clefMode, draw.coin), draw.stepNumber)) &&
    r.answerText == BlankAnswer
  }

  /** The state after the current note's name is revealed, all else as in `q`. */
  ghost predicate Revealed(q: QuizState, r: QuizState, cfg: Config)
    requires q.current.Some?
  {
    r.running == q.running && r.showingAnswer && r.current == q.current &&
    r.answerText == NoteName(cfg.naming, q.current.value)
  }

  /** Cancelling the pending timer; nothing else changes. */
  function ClearTimer(q: QuizState): (r: QuizState)
    ensures r.timer.None?
    ensures r.(timer := q.timer) == q
    ensures Inv(q) ==> Inv(r)
  {
    if q.timer.Some? then q.(timer := None) else q
  }

  /** A new question is drawn and shown with a blank answer; running and the timer are untouched. */
  function ShowQuestion(q: QuizState, cfg: Config, draw: Draw): (r: QuizState)
    requires ValidDraw(cfg, draw)
    ensures r.current == Some(GetRandomNote(PickClef(cfg.clefMode, draw.coin), draw.stepNumber))
    ensures !r.showingAnswer && r.answerText == BlankAnswer
    ensures r.running == q.running && r.timer == q.timer
  {
    var clef := PickClef(cfg.clefMode, draw.coin);
    q.(current := Some(GetRandomNote(clef, draw.stepNumber)), answerText := BlankAnswer, showingAnswer := false)
  }

  /** The current note's name is revealed; with no current note nothing changes. */
  function ShowAnswer(q: QuizState, cfg: Config): (r: QuizState)
    ensures q.current.None? ==> r == q
    ensures q.current.Some? ==> Revealed(q, r, cfg) && r.timer == q.timer
  {
    if q.current.None? then q
    else q.(answerText := NoteName(cfg.naming, q.current.value), showingAnswer := true)
  }

  /**
   * Starting a new question cycle: any pending timer is cancelled; a
   * running quiz shows a fresh question and arms exactly one question
   * timer, reading both durations now.
   */
  function Schedule(q: QuizState, cfg: Config, draw: Draw): (r: QuizState)
    requires ValidDraw(cfg, draw)
    ensures q.running ==> FreshQuestion(r, cfg, draw)
    ensures !q.running ==> r == ClearTimer(q)
    ensures Inv(q) ==> Inv(r)
  {
    var cleared := ClearTimer(q);
    if !cleared.running then cleared
    else
      var d := MsFromInputs(cfg.questionSeconds, cfg.answerSeconds);
      ShowQuestion(cleared, cfg, draw).(timer := Some(QuestionTimer(d.questionMs, d.answerMs)))
  }

  /** Start: a no-op while running; otherwise the quiz runs and shows a fresh question. */
  function Start(q: QuizState, cfg: Config, draw: Draw): (r: QuizState)
    requires ValidDraw(cfg, draw)
    ensures q.running ==> r == q
    ensures !q.running ==> FreshQuestion(r, cfg, draw)
    ensures Inv(q) ==> Inv(r)
  {
    if q.running then q else Schedule(q.(running := true), cfg, draw)
  }

  /**
   * Stop: the quiz stops and no timer is left pending; the current note
   * and showingAnswer are left as they were.
   */
  function Stop(q: QuizState): (r: QuizState)
    ensures !r.running && r.timer.None?
    ensures r.current == q.current && r.showingAnswer == q.showingAnswer && r.answerText == q.answerText
    ensures Inv(q) ==> Inv(r)
  {
    ClearTimer(q.(running := false))
  }

  /**
   * Skip: a no-op when stopped. In the question phase the timer is
   * cancelled and the answer revealed, with no new timer armed; in the
   * answer phase a fresh question starts at once.
   */
  function Skip(q: QuizState, cfg: Config, draw: Draw): (r: QuizState)
    requires ValidDraw(cfg, draw)
    ensures !q.running ==> r == q
    ensures Inv(q) && q.running && !q.showingAnswer ==> Revealed(q, r, cfg) && r.timer.None?
    ensures q.running && q.showingAnswer ==> FreshQuestion(r, cfg, draw)
    ensures Inv(q) ==> Inv(r)
  {
    if !q.running then q
    else if !q.showingAnswer then ShowAnswer(ClearTimer(q), cfg)
    else Schedule(q, cfg, draw)
  }

  /** A change of any control: a no-op when stopped, otherwise a fresh question with the new settings. */
  function ControlChange(q: QuizState, cfg: Config, draw: Draw): (r: QuizState)
    requires ValidDraw(cfg, draw)
    ensures !q.running ==> r == q
    ensures q.running ==> FreshQuestion(r, cfg, draw)
    ensures Inv(q) ==> Inv(r)
  {
    if !q.running then q else Schedule(q, cfg, draw)
  }

  /**
   * The question timer expires: the answer is revealed and exactly one
   * answer timer is armed, for the answer duration read with the question.
   */
  function QuestionTimerFires(q: QuizState, cfg: Config): (r: QuizState)
    requires q.timer.Some? && q.timer.value.QuestionTimer?
    ensures !q.running ==> r == q
    ensures Inv(q) ==> Revealed(q, r, cfg) && r.timer == Some(AnswerTimer(q.timer.value.answerMs))
    ensures Inv(q) ==> Inv(r)
  {
    if !q.running then q
    else ShowAnswer(q, cfg).(timer := Some(AnswerTimer(q.timer.value.answerMs)))
  }

  /** The answer timer expires: a fresh question starts. */
  function AnswerTimerFires(q: QuizState, cfg: Config, draw: Draw): (r: QuizState)
    requires q.timer.Some? && q.timer.value.AnswerTimer?
    requires ValidDraw(cfg, draw)
    ensures !q.running ==> r == q
    ensures q.running ==> FreshQuestion(r, cfg, draw)
    ensures Inv(q) ==> Inv(r)
  {
    if !q.running then q else Schedule(q, cfg, draw)
  }

  /** Cancelling twice is the same as cancelling once. */
  lemma ClearTimerIdempotent(q: QuizState)
    ensures ClearTimer(ClearTimer(q)) == ClearTimer(q)
  {
  }

  /** From any state, a stop followed by a start shows a fresh question. */
  lemma StopThenStart(q: QuizState, cfg: Config, draw: Draw)
    requires ValidDraw(cfg, draw)
    ensures FreshQuestion(Start(Stop(q), cfg, draw), cfg, draw)
  {
  }
}
