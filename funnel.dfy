/** The funnel's session: the state the page component keeps in its state
    hooks, and one method per handler or button action that changes it.

    Every visitor action returns `accepted`: false when the control that
    fires it is not on screen or is disabled, in which case nothing changes.
    The asynchronous completions (a file read finishing, the analysis timer
    firing, the dispatch request settling) are events that exist only while
    they are pending, so they state that as a precondition instead. The
    pending reads and timers are counted in two fields: they are callbacks
    held by the browser, not state of the component, and they fire wherever
    the visitor has moved to in the meantime. */
module Funnel {
  import opened Answers
  import opened Diagnosis

  /** The screens. The source's own union type leaves out
      QuizDificuldades although the component sets it and renders it. */
  datatype Step = Home | Quiz | QuizDificuldades | Photo | Result | Email | Success

  /** The three single-choice questions, indices 0 to 2. */
  const QuestionCount: nat := 3

  /** The body of the dispatch request: the e-mail, the answers, the photo. */
  datatype Payload = Payload(email: string, quizAnswers: QuizAnswers, photo: Option<string>)

  /** All of a session's state as one value, with the callbacks pending. */
  datatype State = State(
    step: Step,
    quizAnswers: QuizAnswers,
    currentQuestion: nat,
    photo: Option<string>,
    email: string,
    isAnalyzing: bool,
    isSending: bool,
    readsPending: nat,
    timersPending: nat)

  /** The state a session starts in. */
  function InitialState(): (s: State)
  {
    State(Home, EmptyAnswers(), 0, None, "", false, false, 0, 0)
  }

  class Session {
    var step: Step
    var quizAnswers: QuizAnswers
    var currentQuestion: nat
    var photo: Option<string>       // the reader's result: a data URI, or null after a failed read
    var email: string
    var isAnalyzing: bool
    var isSending: bool             // also: the one dispatch request is outstanding
    var readsPending: nat           // file reads started whose completion has not fired
    var timersPending: nat          // analysis timers scheduled that have not fired

    function Snapshot(): (s: State)
      reads this
    {
      State(step, quizAnswers, currentQuestion, photo, email, isAnalyzing, isSending,
            readsPending, timersPending)
    }

    /** What holds in every state the component can reach, including those
        where a read or a timer completes after the visitor has left the
        photo screen. */
    ghost predicate Valid()
      reads this
    {
      // the question index stays within the three questions
      currentQuestion < QuestionCount
      // difficulties are a set
      && NoDuplicates(quizAnswers.dificuldades)
      // on a question, every earlier question has been answered
      && (step == Quiz ==> forall i :: 0 <= i < currentQuestion ==> Answered(quizAnswers, i))
      && (step == Home ==> currentQuestion == 0)
      // on the difficulties and photo screens, all three questions are answered
      && (step in {QuizDificuldades, Photo} ==>
            currentQuestion == QuestionCount - 1
            && forall i :: 0 <= i < QuestionCount ==> Answered(quizAnswers, i))
      && (step == Photo ==> |quizAnswers.dificuldades| > 0)
      // an analysis in progress has its timer pending
      && (isAnalyzing ==> timersPending > 0)
      // a stray timer can move an outstanding request's screen to the result
      && (isSending ==> step == Email || step == Result)
    }

    /** The funnel as its screens intend it: besides Valid(), every
        asynchronous operation completes on the screen that started it, so
        past the photo all answers and at least one difficulty are set, and
        nothing is pending off the photo screen. This holds as long as the
        visitor neither leaves the photo screen nor chooses another file
        while a read is pending (see ChooseFile and BackToDificuldades). */
    ghost predicate Orderly()
      reads this
    {
      Valid()
      && (step in {Result, Email, Success} ==>
            currentQuestion == QuestionCount - 1
            && (forall i :: 0 <= i < QuestionCount ==> Answered(quizAnswers, i))
            && |quizAnswers.dificuldades| > 0)
      && (step != Photo ==> readsPending == 0 && timersPending == 0 && !isAnalyzing)
      && (step in {Home, Quiz, QuizDificuldades} ==> photo == None)
      && (step == Photo ==>
            readsPending + timersPending <= 1
            && (isAnalyzing <==> timersPending == 1)
            && (!isAnalyzing ==> photo == None))
      && (isSending ==> step == Email)
    }

    constructor ()
      ensures Valid() && Orderly()
      ensures Snapshot() == InitialState()
    {
      step := Home;
      quizAnswers := EmptyAnswers();
      currentQuestion := 0;
      photo := None;
      email := "";
      isAnalyzing := false;
      isSending := false;
      readsPending := 0;
      timersPending := 0;
    }

    /** "Iniciar Diagnóstico" on the home screen. */
    method Start() returns (accepted: bool)
      requires Valid()
      modifies this
      ensures Valid()
      ensures old(Orderly()) ==> Orderly()
      ensures accepted == (old(step) == Home)
      ensures Snapshot() == if accepted then old(Snapshot()).(step := Quiz) else old(Snapshot())
    {
      accepted := step == Home;
      if accepted {
        step := Quiz;
      }
    }

    /** Picking an option of the current question's radio group. */
    method AnswerQuestion(c: Choice) returns (accepted: bool)
      requires Valid()
      modifies this
      ensures Valid()
      ensures old(Orderly()) ==> Orderly()
      ensures accepted == (old(step) == Quiz && QuestionOf(c) == old(currentQuestion))
      ensures Snapshot() ==
        if accepted then old(Snapshot()).(quizAnswers := SetAnswer(old(quizAnswers), c))
        else old(Snapshot())
    {
      accepted := step == Quiz && QuestionOf(c) == currentQuestion;
      if accepted {
        quizAnswers := SetAnswer(quizAnswers, c);
      }
    }

    /** "Continuar" on a question: enabled only once it is answered; moves to
        the next question, or on from the last one to the difficulties. */
    method NextQuestion() returns (accepted: bool)
      requires Valid()
      modifies this
      ensures Valid()
      ensures old(Orderly()) ==> Orderly()
      ensures accepted == (old(step) == Quiz && Answered(old(quizAnswers), old(currentQuestion)))
      ensures Snapshot() ==
        if !accepted then old(Snapshot())
        else if old(currentQuestion) < QuestionCount - 1
        then old(Snapshot()).(currentQuestion := old(currentQuestion) + 1)
        else old(Snapshot()).(step := QuizDificuldades)
    {
      accepted := step == Quiz && Answered(quizAnswers, currentQuestion);
      if accepted {
        if currentQuestion < QuestionCount - 1 {
          currentQuestion := currentQuestion + 1;
        } else {
          step := QuizDificuldades;
        }
      }
    }

    /** "Voltar" on a question: never disabled; moves to the previous
        question, or from the first one back home. */
    method PrevQuestion() returns (accepted: bool)
      requires Valid()
      modifies this
      ensures Valid()
      ensures old(Orderly()) ==> Orderly()
      ensures accepted == (old(step) == Quiz)
      ensures Snapshot() ==
        if !accepted then old(Snapshot())
        else if old(currentQuestion) > 0
        then old(Snapshot()).(currentQuestion := old(currentQuestion) - 1)
        else old(Snapshot()).(step := Home)
    {
      accepted := step == Quiz;
      if accepted {
        if currentQuestion > 0 {
          currentQuestion := currentQuestion - 1;
        } else {
          step := Home;
        }
      }
    }

    /** Clicking a difficulty: deselects it if selected, selects it otherwise. */
    method ToggleDificuldade(d: Dificuldade) returns (accepted: bool)
      requires Valid()
      modifies this
      ensures Valid()
      ensures old(Orderly()) ==> Orderly()
      ensures accepted == (old(step) == QuizDificuldades)
      ensures Snapshot() ==
        if accepted
        then old(Snapshot()).(quizAnswers :=
               old(quizAnswers).(dificuldades := Toggle(old(quizAnswers.dificuldades), d)))
        else old(Snapshot())
    {
      accepted := step == QuizDificuldades;
      if accepted {
        ToggleKeepsNoDuplicates(quizAnswers.dificuldades, d);
        ghost var before := quizAnswers;
        quizAnswers := quizAnswers.(dificuldades := Toggle(quizAnswers.dificuldades, d));
        assert forall i :: 0 <= i < QuestionCount ==> (Answered(quizAnswers, i) <==> Answered(before, i));
      }
    }

    /** "Voltar" on the difficulties: back to the last question. */
    method BackToQuestions() returns (accepted: bool)
      requires Valid()
      modifies this
      ensures Valid()
      ensures old(Orderly()) ==> Orderly()
      ensures accepted == (old(step) == QuizDificuldades)
      ensures Snapshot() ==
        if accepted then old(Snapshot()).(currentQuestion := QuestionCount - 1, step := Quiz)
        else old(Snapshot())
    {
      accepted := step == QuizDificuldades;
      if accepted {
        currentQuestion := QuestionCount - 1;
        step := Quiz;
      }
    }

    /** "Continuar para análise": enabled only with a difficulty selected. */
    method ContinueToPhoto() returns (accepted: bool)
      requires Valid()
      modifies this
      ensures Valid()
      ensures old(Orderly()) ==> Orderly()
      ensures accepted == (old(step) == QuizDificuldades && |old(quizAnswers.dificuldades)| > 0)
      ensures Snapshot() == if accepted then old(Snapshot()).(step := Photo) else old(Snapshot())
    {
      accepted := step == QuizDificuldades && |quizAnswers.dificuldades| > 0;
      if accepted {
        step := Photo;
      }
    }

    /** Whether the photo screen shows its file input and "Voltar": only
        before a photo is set and while no analysis runs. */
    predicate CaptureControlsShown()
      reads this
    {
      step == Photo && photo == None && !isAnalyzing
    }

    /** The file input's change event: with no file chosen nothing happens;
        otherwise a read of the file starts. The input stays on screen
        while the read is pending, so a second file can be chosen; only a
        first read keeps the session Orderly. */
    method ChooseFile(chosen: bool) returns (accepted: bool)
      requires Valid()
      modifies this
      ensures Valid()
      ensures old(Orderly()) && old(readsPending) == 0 ==> Orderly()
      ensures accepted == (old(CaptureControlsShown()) && chosen)
      ensures Snapshot() ==
        if accepted then old(Snapshot()).(readsPending := old(readsPending) + 1)
        else old(Snapshot())
    {
      accepted := CaptureControlsShown() && chosen;
      if accepted {
        readsPending := readsPending + 1;
      }
    }

    /** A read completes (its load-end callback), on whatever screen is
        shown: the result becomes the photo (None when the read failed or
        was aborted), the analysis starts and its timer is scheduled. */
    method PhotoLoaded(result: Option<string>)
      requires Valid()
      requires readsPending > 0
      modifies this
      ensures Valid()
      ensures old(Orderly()) ==> Orderly()
      ensures Snapshot() ==
        old(Snapshot()).(photo := result, isAnalyzing := true,
                         readsPending := old(readsPending) - 1,
                         timersPending := old(timersPending) + 1)
    {
      photo := result;
      isAnalyzing := true;
      readsPending := readsPending - 1;
      timersPending := timersPending + 1;
    }

    /** "Voltar" on the photo screen. Leaving with a read pending lets its
        completion and timer land on another screen, so only leaving with
        no read pending keeps the session Orderly. */
    method BackToDificuldades() returns (accepted: bool)
      requires Valid()
      modifies this
      ensures Valid()
      ensures old(Orderly()) && old(readsPending) == 0 ==> Orderly()
      ensures accepted == old(CaptureControlsShown())
      ensures Snapshot() ==
        if accepted then old(Snapshot()).(step := QuizDificuldades) else old(Snapshot())
    {
      accepted := CaptureControlsShown();
      if accepted {
        step := QuizDificuldades;
      }
    }

    /** An analysis timer fires, on whatever screen is shown: the analysis
        ends and the result screen is shown. */
    method AnalysisDone()
      requires Valid()
      requires timersPending > 0
      modifies this
      ensures Valid()
      ensures old(Orderly()) ==> Orderly() && old(step) == Photo
      ensures Snapshot() ==
        old(Snapshot()).(isAnalyzing := false, step := Result,
                         timersPending := old(timersPending) - 1)
    {
      isAnalyzing := false;
      step := Result;
      timersPending := timersPending - 1;
    }

    /** "Receber meu cronograma" on the result screen. */
    method RequestSchedule() returns (accepted: bool)
      requires Valid()
      modifies this
      ensures Valid()
      ensures old(Orderly()) ==> Orderly()
      ensures accepted == (old(step) == Result)
      ensures Snapshot() == if accepted then old(Snapshot()).(step := Email) else old(Snapshot())
    {
      accepted := step == Result;
      if accepted {
        step := Email;
      }
    }

    /** Typing in the e-mail field, which stays editable while sending. */
    method TypeEmail(text: string) returns (accepted: bool)
      requires Valid()
      modifies this
      ensures Valid()
      ensures old(Orderly()) ==> Orderly()
      ensures accepted == (old(step) == Email)
      ensures Snapshot() == if accepted then old(Snapshot()).(email := text) else old(Snapshot())
    {
      accepted := step == Email;
      if accepted {
        email := text;
      }
    }

    /** "Voltar" on the e-mail screen, disabled while sending. */
    method BackToResult() returns (accepted: bool)
      requires Valid()
      modifies this
      ensures Valid()
      ensures old(Orderly()) ==> Orderly()
      ensures accepted == (old(step) == Email && !old(isSending))
      ensures Snapshot() == if accepted then old(Snapshot()).(step := Result) else old(Snapshot())
    {
      accepted := step == Email && !isSending;
      if accepted {
        step := Result;
      }
    }

    /** The submit handler up to its request: refused with an empty e-mail or
        while a request is outstanding; otherwise it marks the session as
        sending and returns the request body. */
    method BeginSubmit() returns (request: Option<Payload>)
      requires Valid()
      modifies this
      ensures Valid()
      ensures old(Orderly()) ==> Orderly()
      ensures request.Some? == (old(step) == Email && old(email) != "" && !old(isSending))
      ensures request.Some? ==> request.value == Payload(old(email), old(quizAnswers), old(photo))
      ensures Snapshot() ==
        if request.Some? then old(Snapshot()).(isSending := true) else old(Snapshot())
    {
      if step == Email && email != "" && !isSending {
        request := Some(Payload(email, quizAnswers, photo));
        isSending := true;
      } else {
        request := None;
      }
    }

    /** The submit handler after its request settles: success shows the
        success screen; failure (an error status or a network error) only
        alerts, so the screen stays as it is; either way sending ends. */
    method FinishSubmit(ok: bool)
      requires Valid()
      requires isSending
      modifies this
      ensures Valid()
      ensures old(Orderly()) ==> Orderly()
      ensures Snapshot() ==
        old(Snapshot()).(isSending := false, step := if ok then Success else old(step))
    {
      if ok {
        step := Success;
      }
      isSending := false;
    }

    /** The whole submit handler with the request's outcome `ok` as input:
        nothing changes when it is refused; otherwise only the step moves,
        to Success or staying on Email, while answers, e-mail and photo are
        kept and sending has ended. */
    method SubmitEmail(ok: bool) returns (request: Option<Payload>)
      requires Valid()
      modifies this
      ensures Valid()
      ensures old(Orderly()) ==> Orderly()
      ensures request.Some? == (old(step) == Email && old(email) != "" && !old(isSending))
      ensures request.Some? ==> request.value == Payload(old(email), old(quizAnswers), old(photo))
      ensures Snapshot() ==
        if request.Some? then old(Snapshot()).(step := if ok then Success else Email)
        else old(Snapshot())
    {
      request := BeginSubmit();
      if request.Some? {
        FinishSubmit(ok);
      }
    }

    /** "Fazer novo diagnóstico" on the success screen: back home with every
        answer, the question index, the photo and the e-mail cleared; from
        an Orderly session that is the initial state. */
    method Restart() returns (accepted: bool)
      requires Valid()
      modifies this
      ensures Valid()
      ensures old(Orderly()) ==> Orderly()
      ensures accepted == (old(step) == Success)
      ensures Snapshot() ==
        if accepted
        then old(Snapshot()).(step := Home, quizAnswers := EmptyAnswers(),
                              currentQuestion := 0, photo := None, email := "")
        else old(Snapshot())
      ensures accepted && old(Orderly()) ==> Snapshot() == InitialState()
    {
      accepted := step == Success;
      if accepted {
        step := Home;
        quizAnswers := EmptyAnswers();
        currentQuestion := 0;
        photo := None;
        email := "";
      }
    }
  }
}
