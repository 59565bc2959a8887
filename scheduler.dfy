/**
 * The quiz scheduler as the original keeps it: module-level variables
 * updated in place by the button, control and timer callbacks. Each
 * method's new state is the corresponding transition of the Quiz module
 * applied to the old state, so the invariant proved there holds here.
 */
module Scheduler {
  import opened Options
  import opened Pitch
  import opened Naming
  import opened Durations
  import opened Quiz

  class Trainer {
    var running: bool
    var showingAnswer: bool
    var currentTimer: Option<Timer>
    var current: Option<Note>
    /** The text of the answer display. */
    var answerText: string

    function State(): QuizState
      reads this
    {
      QuizState(running, showingAnswer, currentTimer, current, answerText)
    }

    ghost predicate Valid()
      reads this
    {
      Inv(State())
    }

    /** The state on page load. */
    constructor ()
      ensures Valid() && State() == Initial()
    {
      running := false;
      currentTimer := None;
      showingAnswer := false;
      current := Some(InitialNote());
      answerText := StartPrompt;
    }

    method ClearTimer()
      modifies this
      ensures State() == Quiz.ClearTimer(old(State()))
    {
      if currentTimer.Some? {
        currentTimer := None;
      }
    }

    method ShowQuestion(cfg: Config, draw: Draw)
      requires ValidDraw(cfg, draw)
      modifies this
      ensures State() == Quiz.ShowQuestion(old(State()), cfg, draw)
    {
      var clef := PickClef(cfg.clefMode, draw.coin);
      current := Some(GetRandomNote(clef, draw.stepNumber));
      answerText := BlankAnswer;
      showingAnswer := false;
    }

    method ShowAnswer(cfg: Config)
      modifies this
      ensures State() == Quiz.ShowAnswer(old(State()), cfg)
    {
      if current.None? {
        return;
      }
      answerText := NoteName(cfg.naming, current.value);
      showingAnswer := true;
    }

    method Schedule(cfg: Config, draw: Draw)
      requires ValidDraw(cfg, draw)
      modifies this
      ensures State() == Quiz.Schedule(old(State()), cfg, draw)
    {
      ClearTimer();
      if !running {
        return;
      }
      var d := MsFromInputs(cfg.questionSeconds, cfg.answerSeconds);
      ShowQuestion(cfg, draw);
      currentTimer := Some(QuestionTimer(d.questionMs, d.answerMs));
    }

    method Start(cfg: Config, draw: Draw)
      requires Valid() && ValidDraw(cfg, draw)
      modifies this
      ensures Valid() && State() == Quiz.Start(old(State()), cfg, draw)
    {
      if running {
        return;
      }
      running := true;
      Schedule(cfg, draw);
    }

    method Stop()
      requires Valid()
      modifies this
      ensures Valid() && State() == Quiz.Stop(old(State()))
    {
      running := false;
      ClearTimer();
    }

    method Skip(cfg: Config, draw: Draw)
      requires Valid() && ValidDraw(cfg, draw)
      modifies this
      ensures Valid() && State() == Quiz.Skip(old(State()), cfg, draw)
    {
      if !running {
        return;
      }
      if !showingAnswer {
        ClearTimer();
        ShowAnswer(cfg);
      } else {
        Schedule(cfg, draw);
      }
    }

    method ControlChange(cfg: Config, draw: Draw)
      requires Valid() && ValidDraw(cfg, draw)
      modifies this
      ensures Valid() && State() == Quiz.ControlChange(old(State()), cfg, draw)
    {
      if !running {
        return;
      }
      Schedule(cfg, draw);
    }

    /** The pending question timer expires. */
    method FireQuestionTimer(cfg: Config)
      requires Valid() && currentTimer.Some? && currentTimer.value.QuestionTimer?
      modifies this
      ensures Valid() && State() == QuestionTimerFires(old(State()), cfg)
    {
      if !running {
        return;
      }
      var a := currentTimer.value.answerMs;
      ShowAnswer(cfg);
      currentTimer := Some(AnswerTimer(a));
    }

    /** The pending answer timer expires. */
    method FireAnswerTimer(cfg: Config, draw: Draw)
      requires Valid() && currentTimer.Some? && currentTimer.value.AnswerTimer?
      requires ValidDraw(cfg, draw)
      modifies this
      ensures Valid() && State() == AnswerTimerFires(old(State()), cfg, draw)
    {
      if !running {
        return;
      }
      Schedule(cfg, draw);
    }
  }

  /** A session as a user drives it: start, let the question time out, skip the answer, stop. */
  method Session(cfg: Config, first: Draw, second: Draw)
    requires ValidDraw(cfg, first) && ValidDraw(cfg, second)
  {
    var t := new Trainer();
    t.Start(cfg, first);
    assert t.currentTimer.Some? && t.currentTimer.value.QuestionTimer?;
    t.FireQuestionTimer(cfg);
    assert t.showingAnswer && t.currentTimer.Some? && t.currentTimer.value.AnswerTimer?;
    t.Skip(cfg, second);
    assert !t.showingAnswer && t.current == Some(GetRandomNote(PickClef(cfg.clefMode, second.coin), second.stepNumber));
    t.Stop();
    assert !t.running && t.currentTimer.None? && t.current.Some?;
  }
}
