# CapilizeIA funnel: a Dafny model

CapilizeIA is a one-page lead-generation funnel. A visitor answers three
single-choice questions about their hair: scalp oiliness, chemical treatments
and the state of the strands. They then pick one or more difficulties, take a
photo, and wait through a simulated three-second "analysis". A canned
diagnosis is then shown, and the visitor can have the answers e-mailed to the
sales inbox. This project models the page component's state machine and its
diagnosis rule cascade, and proves properties of both.

- `answers.dfy` (module `Answers`): the option values of the four questions
  as enumerations, the answers record, and the list rebuild behind the
  difficulties toggle (`Remove` is the `filter`, `Toggle` the whole
  handler body), with its set semantics proved.
- `diagnosis.dfy` (module `Diagnosis`): `GetDiagnostico`, the ordered
  first-match-wins rule list, and lemmas that pin down when each of the four
  diagnoses is chosen. The lemmas also show that the result depends on the
  strand state and the set of difficulties only.
- `funnel.dfy` (module `Funnel`): class `Session` with the component's state
  hooks as fields and one method per handler, button action or callback.
  Two more fields count the callbacks held by the browser: file reads
  started and not yet finished, and analysis timers scheduled and not yet
  fired. Each method states the whole new state through `Snapshot()`, and
  each one preserves two invariants:
  - `Valid()` holds in every state the component can reach, including
    callbacks that fire late. It says the question index stays in 0..2 and
    the difficulties hold no duplicates. The difficulties and photo screens
    are reached only with all three questions answered. A running analysis
    has its timer pending.
  - `Orderly()` is the funnel as its screens intend it. Every callback
    completes on the screen that started it. Past the photo screen, all
    answers and at least one difficulty are set. At most one asynchronous
    operation is outstanding. Every method keeps it except two cases:
    leaving the photo screen while a read is pending, and choosing a second
    file while a read is pending.
- `scenarios.dfy` (module `Scenarios`): whole visits, driven only through the
  session's methods. They cover the dehydration visit, a file that cannot be
  read, a failed dispatch with its retry, an empty e-mail, a restart and a
  blocked "Continuar". Two more show what late callbacks do.

Guards. Each visitor action returns `accepted`. It is false, and nothing
changes, when the control that fires the action is not on screen for the
current step or is disabled (`disabled=` at lines 299, 378, 572 and 592 of
`src/app/page.tsx`). The callbacks work differently. There are three: a read
finishing (`PhotoLoaded`), an analysis timer firing (`AnalysisDone`) and the
dispatch request settling (`FinishSubmit`). They exist only while pending,
so each requires a pending read, a pending timer or `isSending`. Like the
source, they apply wherever the visitor is at that moment.

Asynchrony. The file input's change event (`ChooseFile`) starts a read.
Its load-end callback (`PhotoLoaded(result)`) stores the result, which is
None after a failed or aborted read. It also starts the analysis and
schedules its timer. The three-second delay itself is not modelled: the
timer is the `AnalysisDone` event. The submit handler is split at its
`await`. `BeginSubmit` runs up to the request and returns the request body.
`FinishSubmit(ok)` is the part after it, with the outcome as input.
`SubmitEmail(ok)` composes the two. The outcome `ok` is false both for an
error status and for a network error, because the component treats them
alike.

Points worth knowing about the code as written:
- "Analysing" and "sending" are not steps of their own. They are the flags
  `isAnalyzing` (on the photo step) and `isSending` (on the e-mail step).
- The photo can be missing. A file that cannot be read still starts the
  analysis with no photo. The request then carries `photo: null`
  (`Scenarios.UnreadableFileSendsNoPhoto`).
- Pending callbacks are never discarded. While a read is pending, the photo
  screen still shows "Voltar" and the file input: line 404 tests only the
  photo and the analysis flag.
  - A visitor who goes back and deselects every difficulty still reaches
    the result when the timer fires (`Scenarios.StaleTimerSkipsGuard`).
  - A second file chosen during the read schedules a second timer. That
    timer can later move the screen away from a request being sent
    (`Scenarios.SecondTimerInterruptsSending`).
- A failed dispatch only raises an alert. The step is left as it is, which
  is the e-mail step whenever the session is `Orderly()`.
- The e-mail field stays editable while sending. A request therefore carries
  the e-mail as it was when submitted, even if the field changes before the
  response arrives.
- The source's `Step` union type (line 10) omits `"quiz-dificuldades"`. The
  component sets and renders that step anyway, so `Step` here includes it.

## Model

| member | source | states |
|---|---|---|
| Answers.SetAnswer | src/app/page.tsx:76-79 | the chosen question now holds the choice; the other two answers and the difficulties are unchanged |
| Answers.Remove | src/app/page.tsx:102 | the result is the input with every occurrence of the value dropped: its multiset is the input's with that value's count set to 0 |
| Answers.Toggle | src/app/page.tsx:97-110 | membership after a toggle is the symmetric difference with the value; a present value is removed; an absent one is appended at the end, with the prefix kept |
| Answers.ToggleKeepsNoDuplicates | src/app/page.tsx:97-110 | toggling preserves "no duplicates" |
| Answers.ToggleTwice | src/app/page.tsx:97-110 | toggling the same value twice restores the selection; it restores the exact list when the value was absent, and the same multiset (the value moved to the end) when it was present |
| Answers.RemoveKeepsNoDuplicates | src/app/page.tsx:102 | filtering a duplicate-free list leaves it duplicate-free |
| Answers.RemoveAppended | src/app/page.tsx:102-107 | appending an absent value and then filtering it out gives the original list |
| Diagnosis.GetDiagnostico | src/app/page.tsx:157-181 | the diagnosis chosen is one whose rule fires, and no rule before it fires |
| Diagnosis.FirstMatchWins | src/app/page.tsx:157-181 | the result is `d` iff the rule for `d` fires and no earlier rule fires (an independent reading of the rule list) |
| Diagnosis.DrynessWins | src/app/page.tsx:160-164 | dry strands or dryness selected give the hydration diagnosis, whatever the other answers |
| Diagnosis.HydrationExactly | src/app/page.tsx:160-164 | the hydration diagnosis is chosen iff rule 1 fires |
| Diagnosis.BreakageExactly | src/app/page.tsx:165-169 | the reconstruction diagnosis is chosen iff rule 1 fails and the strands are brittle or split ends are selected |
| Diagnosis.FrizzExactly | src/app/page.tsx:170-174 | the alignment diagnosis is chosen iff frizz is selected and rules 1 and 2 fail |
| Diagnosis.MaintenanceExactly | src/app/page.tsx:175-179 | the maintenance diagnosis is chosen iff none of dry strands, brittle strands, dryness, split ends and frizz applies |
| Diagnosis.BreakageBeforeFrizz | src/app/page.tsx:165-174 | mixed strands with split ends and frizz (and no dryness) give reconstruction, never alignment |
| Diagnosis.IgnoresOilinessAndChemistry | src/app/page.tsx:158 | changing the oiliness and chemistry answers never changes the diagnosis |
| Diagnosis.IgnoresSelectionOrder | src/app/page.tsx:158-170 | two answer records with the same strand state and the same set of difficulties get the same diagnosis |
| Diagnosis.HealthyAndNoDifficulty | src/app/page.tsx:175-179 | healthy strands and no difficulty give the maintenance diagnosis |
| Funnel.Session.constructor | src/app/page.tsx:20-31 | a session starts home, with empty answers, question 0, no photo, an empty e-mail and no pending work |
| Funnel.Session.Start | src/app/page.tsx:205 | accepted only on the home screen; it moves to the first question and changes nothing else |
| Funnel.Session.AnswerQuestion | src/app/page.tsx:76-79 | accepted only on a question screen for a value of the current question; it changes only that question's answer |
| Funnel.Session.NextQuestion | src/app/page.tsx:81-87 | accepted only while the current question is answered (the guard on line 299); from index 0 or 1 it moves to the next index, and from 2 to the difficulties step; a refused call changes nothing |
| Funnel.Session.PrevQuestion | src/app/page.tsx:89-95 | always accepted on a question; from index i > 0 it moves to i-1, and from 0 to home |
| Funnel.Session.ToggleDificuldade | src/app/page.tsx:97-110 | accepted on the difficulties screen; only the difficulties change, to their toggle; `Valid()` keeps them free of duplicates |
| Funnel.Session.BackToQuestions | src/app/page.tsx:366-369 | from the difficulties it sets the question index to 2 and the step to the questions |
| Funnel.Session.ContinueToPhoto | src/app/page.tsx:376-378 | accepted only with at least one difficulty selected; it moves to the photo step |
| Funnel.Session.ChooseFile | src/app/page.tsx:112-127 | with no file, nothing changes; with a file, while the input is on screen (photo step, no photo, no analysis), one more read is pending; it keeps `Orderly()` only when no read was pending before |
| Funnel.Session.PhotoLoaded | src/app/page.tsx:116-123 | a pending read completes on whatever screen is shown: the photo becomes the read's result (None after a failure), the analysis starts and one more timer is pending |
| Funnel.Session.BackToDificuldades | src/app/page.tsx:435-436 | shown under the condition on line 404; it returns to the difficulties and clears nothing; it keeps `Orderly()` only with no read pending |
| Funnel.Session.AnalysisDone | src/app/page.tsx:120-123 | a pending timer fires on whatever screen is shown: the analysis ends and the result is shown; in an `Orderly()` session it fires only on the photo screen |
| Funnel.Session.RequestSchedule | src/app/page.tsx:517-518 | from the result it moves to the e-mail step |
| Funnel.Session.TypeEmail | src/app/page.tsx:563-564 | on the e-mail screen it replaces the e-mail; nothing else changes |
| Funnel.Session.BackToResult | src/app/page.tsx:588-592 | from the e-mail screen, only while not sending, it returns to the result |
| Funnel.Session.BeginSubmit | src/app/page.tsx:129-143 | refused with an empty e-mail or while sending; otherwise it marks the session as sending and returns exactly {email, answers, photo} as the request |
| Funnel.Session.FinishSubmit | src/app/page.tsx:145-154 | sending ends; success moves to the success step, and failure leaves the step as it is |
| Funnel.Session.SubmitEmail | src/app/page.tsx:129-155 | an empty e-mail changes nothing; otherwise the step becomes success or stays e-mail by outcome, sending has ended, and answers, e-mail and photo are unchanged |
| Funnel.Session.Restart | src/app/page.tsx:638-650 | from success it returns home with all answers empty, question 0, no photo and no e-mail; from an `Orderly()` session this equals the initial state |
| Scenarios.DehydrationVisit | src/app/page.tsx:129-181 | normal/rare/dry with dryness gives the hydration diagnosis; submitting sends exactly those answers and the photo, and success ends on the success step |
| Scenarios.FailedDispatchAndRetry | src/app/page.tsx:145-154 | after a failed dispatch the session is on the e-mail step, not sending, with answers, e-mail and photo intact; the retry sends the same request and succeeds |
| Scenarios.EmptyEmailRefused | src/app/page.tsx:130 | with an empty e-mail no request is made and the state is unchanged |
| Scenarios.RestartAfterSuccess | src/app/page.tsx:638-650 | restarting after a successful dispatch gives back the initial state, with every answer unset |
| Scenarios.UnansweredQuestionBlocks | src/app/page.tsx:297-299 | "Continuar" on an unanswered first question is refused and leaves the state unchanged |
| Scenarios.UnreadableFileSendsNoPhoto | src/app/page.tsx:116-142 | a read that fails still leads to the result, and the request sent carries no photo |
| Scenarios.StaleTimerSkipsGuard | src/app/page.tsx:404-436 | going back during a pending read and deselecting the only difficulty still ends on the result screen, with no difficulty selected |
| Scenarios.SecondTimerInterruptsSending | src/app/page.tsx:112-123 | two files chosen during one read give two timers; the second fires while the request is outstanding and moves the screen to the result |

## Left out

- `src/app/api/send-diagnosis/route.ts` is not part of this model. It parses
  the HTTP request, templates the HTML message and calls the e-mail
  provider: I/O and a foreign library. Its only outcome here is the
  `ok` input of `FinishSubmit` and `SubmitEmail`.
- `fetch`, `FileReader`, `alert` and `setTimeout` are not modelled as calls.
  Their completions are the events `FinishSubmit(ok)`, `PhotoLoaded(result)`
  and `AnalysisDone`. The model takes these callbacks one at a time, in
  any order the caller picks. It says nothing about which order the timers'
  delays make likely. The error alerts are not modelled. A failure is
  visible only as the step not changing.
- Funnel.Session.ChooseFile: the file itself is not modelled, only whether
  one was chosen. The reader's result is the input of `PhotoLoaded`.
- The three-second duration of the simulated analysis is not modelled.
- The rendering, styling and copy are not modelled, and neither are the
  diagnosis headline and recommendation texts. The four diagnoses are tags.
  The "Enviamos para" line of the success screen is not modelled either.
- The progress-bar percentage (line 233) is floating-point display
  arithmetic and is not modelled.
- The final `return null` for an unknown step (line 663) cannot be reached
  with `Step` as a datatype.
- The hidden file input's click through `fileInputRef` (line 428) only opens
  the picker, so it has no state effect.
