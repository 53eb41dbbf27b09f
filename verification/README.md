# Multiagent support demo: the agent pipeline

The demo page takes a customer question and passes it through three
simulated agents. The Intake Agent echoes the question. The Analysis Agent
classifies it as Billing, Technical or General by keyword. The Response Agent
picks a fixed reply for that classification. The page shows a step counter
(0 idle, 1 intake, 2 analysis, 3 response), one `{input, output, done}` record
per agent, a log with one line per agent, and a `processing` flag that
disables new submissions while a run is in flight.

This project models that logic in Dafny and proves properties of the model.
The logic lives in `src/App.tsx`. The project has three modules:

- `Text` (`text.dfy`): the three string primitives the page uses, restricted
  to ASCII. These are lower-casing (`ToLower`), substring search (`Includes`,
  with `Contains` as its specification) and trimming (`Trim`, specified by
  `IsTrimOf`).
- `Classifier` (`classifier.dfy`): `classifyQuestion` as `Classify` and
  `generateResponse` as `Respond`.
- `Pipeline` (`pipeline.dfy`): the page state (`RunState`) and `reset` as
  `Reset`. Each stage of `runAgents` is a pure transition (`IntakeStage`,
  `AnalysisStage`, `ResponseStage`). A whole run is the sequence of four states
  it passes through (`Run`). The submit handler is `Submit`, and a submission
  followed by its run is `Session`. `Expected`, `Slot` and `ExpectedLog` are a
  reference description of what each agent should hold and log for a question.
  `Progress(s, q)` says that `s` is a state of a run of `q` that has finished
  `s.step` stages.

Points where the code is followed literally:

- The intake stage replaces the log with a one-line log. It does not append.
  The log reads as append-only only because `reset` emptied it first, so
  `IntakeAdvances` requires a state with no progress.
- Each stage rewrites all three agent records, not just its own.
  `RunFillsInOrder` shows that the earlier records come out unchanged anyway.
- The analysis stage does not touch `processing`. The intake stage sets it
  and the response stage clears it.
- `generateResponse` takes a string, so `Respond` is defined on every string.
  Any string other than `"Billing"` and `"Technical"` gets the generic reply.
- The busy flag does not ensure that at most one run is active at a time.
  The submit guard checks `processing` only at the moment of submission.
  `reset` clears the flag, and the run sets it again only when its 100 ms
  timer fires. `SubmitDoesNotLatch` states this gap. `SubmitIgnoredMidRun`
  states the guarantee that does hold: submitting between the first and last
  stage does nothing.

## Model

| member | source | states |
|---|---|---|
| `Text.LowerChar` | src/App.tsx:23 | the lowered character is never an upper-case ASCII letter; non-letters are unchanged and `A`..`Z` map to the letter at the same alphabet position |
| `Text.ToLower` | src/App.tsx:23 | lower-casing keeps the length and lowers every character in place |
| `Text.ToLowerIdempotent` | src/App.tsx:23 | lower-casing an already lowered string changes nothing |
| `Text.Includes` | src/App.tsx:24-25 | the search answers true exactly when the keyword occurs as a contiguous piece of the text at some offset (the empty keyword always does) |
| `Text.Trim` | src/App.tsx:104 | the trimmed question sits inside the original with only whitespace before and after it, and it neither starts nor ends with whitespace; it is empty exactly when the question is all whitespace |
| `Text.TrimOfUnique` | src/App.tsx:104 | at most one string meets that description, so it determines the trim completely |
| `Text.TrimIdempotent` | src/App.tsx:104-106 | the trim applied to the question is idempotent: trimming its result again changes nothing |
| `Classifier.Label` | src/App.tsx:22-27 | the display names `"Billing"`, `"Technical"` and `"General"` of the three results; its contract is `Classifier.LabelInjective` |
| `Classifier.LabelInjective` | src/App.tsx:22 | the three classification names are distinct |
| `Classifier.Classify` | src/App.tsx:22-27 | Billing exactly when the lowered question contains "bill"; Technical exactly when it lacks "bill" and contains "tech" or "error"; General exactly when it contains none of the three |
| `Classifier.ClassifyIgnoresCase` | src/App.tsx:23 | a question and its lower-cased form classify alike |
| `Classifier.BillingKeywordWins` | src/App.tsx:24 | "bill" in any letter case, anywhere in the question, gives Billing whatever else the question contains |
| `Classifier.TechnicalKeywordWins` | src/App.tsx:25 | "tech" or "error" in any letter case, anywhere in a question with no "bill", gives Technical |
| `Classifier.ClassifyLowerCase` | src/App.tsx:22-27 | for a question with no upper-case letters the rules apply to the question text directly |
| `Classifier.ClassifyBillingIssue` | src/App.tsx:24 | "billing issue" is Billing |
| `Classifier.ClassifyBillAndTech` | src/App.tsx:24 | "bill and tech" is Billing: the Billing rule is checked before the Technical rule |
| `Classifier.ClassifyTechSupport` | src/App.tsx:25 | "tech support needed" is Technical |
| `Classifier.ClassifyErrorOnPage` | src/App.tsx:25 | "error on page" is Technical |
| `Classifier.ClassifyHelloThere` | src/App.tsx:26 | "hello there" is General |
| `Classifier.Respond` | src/App.tsx:29-38 | defined on every string: "Billing" and only "Billing" gets the billing reply, "Technical" and only "Technical" gets the technical reply, and every other string gets "Thank you for reaching out!" |
| `Classifier.RespondDistinguishes` | src/App.tsx:30-37 | two classifications get the same reply only if they are the same classification |
| `Classifier.RespondDefaultsToGeneral` | src/App.tsx:35-36 | any string that is not one of the two specific names is answered exactly as General is |
| `Pipeline.Reset` | src/App.tsx:55-60 | after a reset the step is 0, the log is empty, the page is not busy and all three records are `{'', '', false}` |
| `Pipeline.ResetStartsEveryRun` | src/App.tsx:16-20 | the reset state is a state of any question's run at step 0 (no stage completed) |
| `Pipeline.Run` | src/App.tsx:62-100 | a run passes through four states: it starts at the given state and the stages leave the step at 1, 2 and 3 in turn |
| `Pipeline.IntakeStage` | src/App.tsx:63-70 | the intake stage as one transition; its contract is `Pipeline.IntakeAdvances` |
| `Pipeline.AnalysisStage` | src/App.tsx:74-84 | the analysis stage as one transition; its contract is `Pipeline.AnalysisAdvances` |
| `Pipeline.ResponseStage` | src/App.tsx:88-99 | the response stage as one transition; its contract is `Pipeline.ResponseAdvances` |
| `Pipeline.IntakeAdvances` | src/App.tsx:63-71 | from a state at step 0, intake reaches step 1 with the intake record filled, the page busy, and the log extended by the one "Received question" line |
| `Pipeline.AnalysisAdvances` | src/App.tsx:73-85 | from step 1, analysis reaches step 2 with the second record filled and the log extended by exactly the "Classified as" line |
| `Pipeline.ResponseAdvances` | src/App.tsx:87-99 | from step 2, response reaches step 3 with all records filled, the page no longer busy, and the log extended by exactly the "Generated reply" line |
| `Pipeline.RunProgresses` | src/App.tsx:62-100 | every state of a run from the reset state is at its expected point; each stage extends the previous log by one entry stamped with the new step, leaving earlier entries unchanged |
| `Pipeline.RunFillsInOrder` | src/App.tsx:66-98 | after k stages, exactly records 0..k-1 are done and the later ones are still blank |
| `Pipeline.RunCompletes` | src/App.tsx:88-99 | at the end, step is 3, the page is not busy, and the log is the three expected lines; record 0 is {q, q}, record 1 is {q, classification}, record 2 is {classification, reply to it}; the messages are `Received question: "q"`, `Classified as: c` and `Generated reply: "r"` |
| `Pipeline.RunEndsIdle` | src/App.tsx:88-99 | a run from the reset state ends at step 3, not busy, with all three records done and the three expected log lines |
| `Pipeline.Submit` | src/App.tsx:102-107 | the submission is ignored exactly when the question is all whitespace or the page is busy, and then nothing changes; otherwise the state is reset and a run of the non-empty trimmed question is scheduled |
| `Pipeline.Session` | src/App.tsx:102-107 | a submission produces a single state exactly when the question is all whitespace or the page is busy, and that state is the unchanged one; otherwise it produces the four states of the run of the trimmed question from the reset state |
| `Pipeline.SubmitIgnoredMidRun` | src/App.tsx:104 | between the first and the last stage of a run, every submission leaves the state unchanged and schedules nothing |
| `Pipeline.SubmitDoesNotLatch` | src/App.tsx:104-106 | a non-blank question submitted while idle is accepted, and because reset leaves the busy flag clear, a second non-blank submission made right after it is accepted too |
| `Pipeline.SessionRunsTrimmed` | src/App.tsx:104-106 | when a non-blank question is submitted while idle, the run that follows is the run of the trimmed question from the reset state |
| `Pipeline.SessionCompletes` | src/App.tsx:102-107 | when a non-blank question is submitted while idle, the run ends at step 3, not busy, with all three records done and the three expected log lines for the trimmed question |
| `Pipeline.BillingQuestionFacts` | src/App.tsx:22-24 | "I have a billing problem" needs no trimming and is classified Billing |
| `Pipeline.BillingSession` | src/App.tsx:62-99 | submitting "I have a billing problem" while idle ends with the log lines `Received question: "I have a billing problem"`, `Classified as: Billing` and `Generated reply: "Please contact our billing department."` |

## Left out

- Timing: the 800 ms pause between stages (`src/App.tsx:6`), the 100 ms
  deferred start, `await`/`setTimeout`, and React's batching of state updates.
  Each stage is one atomic transition, and a run is the sequence of states
  between them.
- Interleavings of overlapping runs. Two submissions less than 100 ms apart
  each schedule a run, and the two runs' stages can interleave. The model
  covers one run after one submission (`Session`). For overlapping
  submissions it states only that the guard lets the second one through
  (`SubmitDoesNotLatch`).
- `Text.ToLower`: handles ASCII `A`..`Z` only. The browser's `toLowerCase`
  follows Unicode case mapping, which is not modelled.
- `Text.Trim`: treats only the space and U+0009..U+000D as whitespace. The
  browser's `trim` also strips the other Unicode space characters and line
  terminators.
- The form's DOM guards: `disabled`, `maxLength={200}` and `required` on the
  input, and `disabled` on the button (`src/App.tsx:120-128`). These are
  browser behaviour. The handler's own guard is modelled in `Submit`.
- Rendering: the agent cards, flow arrows and log list, the `active`
  highlighting derived from the step, and the agent descriptions. These
  components only display the state.
- `src/lib/data.ts`: random metrics and time series built from `Math.random`,
  `Date.now`, locale formatting and floating point, plus static notification
  and quick-action fixtures. None of it feeds the pipeline.
- `tailwind.config.js`: styling only.
