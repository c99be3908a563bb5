/** Whole visits through the funnel, driven only through the session's
    methods, so that each result follows from their contracts. */
module Scenarios {
  import opened Answers
  import opened Diagnosis
  import opened Funnel

  /** The answers of the dehydration visit: normal scalp, rare chemistry,
      dry strands, dryness as the only difficulty. */
  function DryAnswers(): (a: QuizAnswers)
  {
    QuizAnswers(Some(Normal), Some(Raro), Some(Ressecados), [Ressecamento])
  }

  /** A visit from a fresh session, answering as DryAnswers, up to the photo
      screen. */
  method VisitToPhoto() returns (s: Session)
    ensures fresh(s) && s.Valid() && s.Orderly()
    ensures s.Snapshot() == State(Photo, DryAnswers(), 2, None, "", false, false, 0, 0)
  {
    s := new Session();
    var accepted := s.Start();
    accepted := s.AnswerQuestion(Oil(Normal));
    accepted := s.NextQuestion();
    accepted := s.AnswerQuestion(Chemistry(Raro));
    accepted := s.NextQuestion();
    accepted := s.AnswerQuestion(Strands(Ressecados));
    accepted := s.NextQuestion();
    accepted := s.ToggleDificuldade(Ressecamento);
    accepted := s.ContinueToPhoto();
  }

  /** From there a file is chosen and read with result `picture` (None for
      a failed read), the analysis ends, and `address` is typed in. */
  method VisitToEmail(picture: Option<string>, address: string) returns (s: Session, d: Diagnostico)
    ensures fresh(s) && s.Valid() && s.Orderly()
    ensures s.Snapshot() == State(Email, DryAnswers(), 2, picture, address, false, false, 0, 0)
    ensures d == Hidratacao
  {
    s := VisitToPhoto();
    var accepted := s.ChooseFile(true);
    s.PhotoLoaded(picture);
    s.AnalysisDone();
    assert s.quizAnswers == DryAnswers();
    d := GetDiagnostico(s.quizAnswers);
    accepted := s.RequestSchedule();
    accepted := s.TypeEmail(address);
  }

  /** Dry strands lead to the hydration diagnosis; submitting sends exactly
      the collected answers with the photo and, on success, ends on the
      success screen. */
  method DehydrationVisit(picture: string) returns (d: Diagnostico, request: Option<Payload>, last: Step)
    ensures d == Hidratacao
    ensures request == Some(Payload("user@example.com", DryAnswers(), Some(picture)))
    ensures last == Success
  {
    var s;
    s, d := VisitToEmail(Some(picture), "user@example.com");
    request := s.SubmitEmail(true);
    last := s.step;
  }

  /** A file that cannot be read still starts the analysis, and the request
      then carries no photo. */
  method UnreadableFileSendsNoPhoto() returns (request: Option<Payload>, last: Step)
    ensures request == Some(Payload("user@example.com", DryAnswers(), None))
    ensures last == Success
  {
    var s, d := VisitToEmail(None, "user@example.com");
    request := s.SubmitEmail(true);
    last := s.step;
  }

  /** A failed dispatch returns to the e-mail screen with nothing lost, and
      the retry sends the same request without answering again. */
  method FailedDispatchAndRetry(picture: string)
    returns (first: Option<Payload>, afterFailure: State, retry: Option<Payload>, last: Step)
    ensures first == Some(Payload("user@example.com", DryAnswers(), Some(picture)))
    ensures afterFailure ==
      State(Email, DryAnswers(), 2, Some(picture), "user@example.com", false, false, 0, 0)
    ensures retry == first
    ensures last == Success
  {
    var s, d := VisitToEmail(Some(picture), "user@example.com");
    first := s.SubmitEmail(false);
    afterFailure := s.Snapshot();
    retry := s.SubmitEmail(true);
    last := s.step;
  }

  /** An empty e-mail is never sent. */
  method EmptyEmailRefused(picture: string) returns (request: Option<Payload>, after: State)
    ensures request == None
    ensures after == State(Email, DryAnswers(), 2, Some(picture), "", false, false, 0, 0)
  {
    var s, d := VisitToEmail(Some(picture), "");
    request := s.SubmitEmail(true);
    after := s.Snapshot();
  }

  /** Restarting from the success screen clears every answer and returns home. */
  method RestartAfterSuccess(picture: string) returns (restarted: bool, after: State)
    ensures restarted
    ensures after == InitialState()
    ensures after.quizAnswers == QuizAnswers(None, None, None, [])
  {
    var s, d := VisitToEmail(Some(picture), "user@example.com");
    var request := s.SubmitEmail(true);
    restarted := s.Restart();
    after := s.Snapshot();
  }

  /** "Continuar" on an unanswered question is refused and changes nothing. */
  method UnansweredQuestionBlocks() returns (accepted: bool, after: State)
    ensures !accepted
    ensures after == InitialState().(step := Quiz)
  {
    var s := new Session();
    accepted := s.Start();
    accepted := s.NextQuestion();
    after := s.Snapshot();
  }

  /** Leaving the photo screen while the read is pending: the visitor goes
      back and deselects the only difficulty; the read and its timer then
      complete and the result screen is shown with no difficulty selected,
      a state "Continuar para análise" never lets through. */
  method StaleTimerSkipsGuard(picture: string) returns (after: State)
    ensures after.step == Result
    ensures after.quizAnswers.dificuldades == []
    ensures after.photo == Some(picture)
  {
    var s := VisitToPhoto();
    var accepted := s.ChooseFile(true);
    accepted := s.BackToDificuldades();
    accepted := s.ToggleDificuldade(Ressecamento);
    s.PhotoLoaded(Some(picture));
    s.AnalysisDone();
    after := s.Snapshot();
  }

  /** Choosing a second file while the first read is pending schedules two
      timers; the second can fire while the request is outstanding and move
      the screen from the e-mail form back to the result. */
  method SecondTimerInterruptsSending(first: string, second: string)
    returns (request: Option<Payload>, during: State)
    ensures request == Some(Payload("user@example.com", DryAnswers(), Some(second)))
    ensures during.step == Result && during.isSending
  {
    var s := VisitToPhoto();
    var accepted := s.ChooseFile(true);
    accepted := s.ChooseFile(true);
    s.PhotoLoaded(Some(first));
    s.PhotoLoaded(Some(second));
    s.AnalysisDone();
    accepted := s.RequestSchedule();
    accepted := s.TypeEmail("user@example.com");
    request := s.BeginSubmit();
    s.AnalysisDone();
    during := s.Snapshot();
  }
}
