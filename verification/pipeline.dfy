/**
  The three-agent run of the support demo as an explicit state machine.

  The page keeps a step counter (0 idle, 1 intake, 2 analysis, 3 response),
  one `{input, output, done}` record per agent, a log of agent messages and a
  `processing` flag. Submitting a question resets that state and schedules a
  run; the run then passes through three stages, each of which sets the step,
  rewrites the three records and adds one log entry. The delays between
  stages only pace the display, so each stage is one atomic transition here.
 */
module Pipeline {
  import opened Text
  import opened Classifier

  /** What one agent received and produced, and whether it has finished. */
  datatype AgentState = AgentState(input: string, output: string, done: bool)

  /** The record of an agent that has not run yet. */
  const Blank: AgentState := AgentState("", "", false)

  /** The page keeps exactly three agent records: intake, analysis, response. */
  type Agents = a: seq<AgentState> | |a| == 3 witness [Blank, Blank, Blank]

  /** 0 is idle, 1 intake, 2 analysis, 3 response. */
  type AgentStep = n: nat | n <= 3

  /** One line of the agent log. */
  datatype LogEntry = LogEntry(agent: string, message: string, step: nat)

  datatype RunState = RunState(agents: Agents, step: AgentStep, log: seq<LogEntry>, processing: bool)

  const AgentNames: seq<string> := ["Intake Agent", "Analysis Agent", "Response Agent"]

  /** The state the page starts in, and the one a reset returns to. */
  const Initial: RunState := RunState([Blank, Blank, Blank], 0, [], false)

  function ReceivedMessage(q: string): string {
    "Received question: \"" + q + "\""
  }

  function ClassifiedMessage(classification: string): string {
    "Classified as: " + classification
  }

  function RepliedMessage(reply: string): string {
    "Generated reply: \"" + reply + "\""
  }

  /** Clears the records, the step, the log and the busy flag. */
  function Reset(s: RunState): (r: RunState)
    ensures r.step == 0 && r.log == [] && !r.processing
    ensures forall i :: 0 <= i < 3 ==> r.agents[i] == Blank
  {
    Initial
  }

  /** The Intake Agent echoes the question. It starts the log afresh rather than appending to it. */
  function IntakeStage(s: RunState, q: string): RunState {
    s.(processing := true,
       step := 1,
       log := [LogEntry(AgentNames[0], ReceivedMessage(q), 1)],
       agents := [AgentState(q, q, true), Blank, Blank])
  }

  /** The Analysis Agent classifies the question; the busy flag is left as it is. */
  function AnalysisStage(s: RunState, q: string): RunState {
    var classification := Label(Classify(q));
    s.(step := 2,
       log := s.log + [LogEntry(AgentNames[1], ClassifiedMessage(classification), 2)],
       agents := [AgentState(q, q, true), AgentState(q, classification, true), Blank])
  }

  /**
    The Response Agent answers the classification that the Analysis Agent
    computed for the same run, and the run ends.
   */
  function ResponseStage(s: RunState, q: string, classification: string): RunState {
    var reply := Respond(classification);
    s.(step := 3,
       log := s.log + [LogEntry(AgentNames[2], RepliedMessage(reply), 3)],
       agents := [AgentState(q, q, true), AgentState(q, classification, true), AgentState(classification, reply, true)],
       processing := false)
  }

  /**
    A whole run of question `q` from state `s`, as the sequence of the four
    states it passes through: before the first stage and after each stage.
   */
  function Run(s: RunState, q: string): (t: seq<RunState>)
    ensures |t| == 4 && t[0] == s
    ensures forall k :: 1 <= k < 4 ==> t[k].step == k
  {
    var s1 := IntakeStage(s, q);
    var s2 := AnalysisStage(s1, q);
    var s3 := ResponseStage(s2, q, Label(Classify(q)));
    [s, s1, s2, s3]
  }

  // ---------------------------------------------------------------------------
  // What a run of question q is meant to produce, stage by stage.

  /** The record agent `i` holds once it has handled question `q`. */
  function Expected(q: string, i: nat): AgentState
    requires i < 3
  {
    var c := Label(Classify(q));
    if i == 0 then AgentState(q, q, true)
    else if i == 1 then AgentState(q, c, true)
    else AgentState(c, Respond(c), true)
  }

  /** The record agent `i` holds after `k` stages of a run of `q`. */
  function Slot(q: string, k: nat, i: nat): AgentState
    requires i < 3
  {
    if i < k then Expected(q, i) else Blank
  }

  /** The complete log of a run of `q`: one line per agent, stamped with its step. */
  function ExpectedLog(q: string): seq<LogEntry> {
    var c := Label(Classify(q));
    [LogEntry("Intake Agent", "Received question: \"" + q + "\"", 1),
     LogEntry("Analysis Agent", "Classified as: " + c, 2),
     LogEntry("Response Agent", "Generated reply: \"" + Respond(c) + "\"", 3)]
  }

  /**
    `s` is the state of a run of `q` that has completed `s.step` stages: the
    first `step` agents hold their results and the rest are blank, the log is
    the first `step` lines of the complete log, and the page is busy exactly
    while the run is between its first and last stage.
   */
  ghost predicate Progress(s: RunState, q: string) {
    && s.agents == [Slot(q, s.step, 0), Slot(q, s.step, 1), Slot(q, s.step, 2)]
    && s.log == ExpectedLog(q)[..s.step]
    && s.processing == (s.step == 1 || s.step == 2)
  }

  /** Every run starts from the reset state, which has made no progress on any question. */
  lemma ResetStartsEveryRun(s: RunState, q: string)
    ensures Progress(Reset(s), q) && Reset(s).step == 0
  {
  }

  /** Intake, started from a state with no progress, completes the first stage and opens the log. */
  lemma IntakeAdvances(s: RunState, q: string)
    requires Progress(s, q) && s.step == 0
    ensures Progress(IntakeStage(s, q), q)
    ensures IntakeStage(s, q).step == 1
    ensures IntakeStage(s, q).log == s.log + [ExpectedLog(q)[0]]
  {
  }

  /** Analysis, after Intake, completes the second stage and appends one entry. */
  lemma AnalysisAdvances(s: RunState, q: string)
    requires Progress(s, q) && s.step == 1
    ensures Progress(AnalysisStage(s, q), q)
    ensures AnalysisStage(s, q).step == 2
    ensures AnalysisStage(s, q).log == s.log + [ExpectedLog(q)[1]]
  {
    assert ExpectedLog(q)[..2] == ExpectedLog(q)[..1] + [ExpectedLog(q)[1]];
  }

  /** Response, after Analysis, completes the run, appends one entry and clears the busy flag. */
  lemma ResponseAdvances(s: RunState, q: string)
    requires Progress(s, q) && s.step == 2
    ensures Progress(ResponseStage(s, q, Label(Classify(q))), q)
    ensures ResponseStage(s, q, Label(Classify(q))).step == 3
    ensures ResponseStage(s, q, Label(Classify(q))).log == s.log + [ExpectedLog(q)[2]]
  {
    assert ExpectedLog(q)[..3] == ExpectedLog(q)[..2] + [ExpectedLog(q)[2]];
  }

  /**
    Every state of a run from the reset state has made exactly as much
    progress as its step says, and each stage extends the previous log by one
    entry, stamped with the new step, leaving earlier entries untouched.
   */
  lemma RunProgresses(s: RunState, q: string)
    requires Progress(s, q) && s.step == 0
    ensures forall k :: 0 <= k < 4 ==> Progress(Run(s, q)[k], q) && Run(s, q)[k].step == k
    ensures forall k :: 0 <= k < 3 ==>
              && Run(s, q)[k + 1].log == Run(s, q)[k].log + [Run(s, q)[k + 1].log[k]]
              && Run(s, q)[k + 1].log[k].step == k + 1
  {
    var t := Run(s, q);
    IntakeAdvances(t[0], q);
    AnalysisAdvances(t[1], q);
    ResponseAdvances(t[2], q);
  }

  /**
    The records fill in order: after `k` stages exactly the first `k` agents
    are done and the others are still blank.
   */
  lemma RunFillsInOrder(s: RunState, q: string)
    requires Progress(s, q) && s.step == 0
    ensures forall k, i :: 0 <= k < 4 && 0 <= i < 3 ==> (Run(s, q)[k].agents[i].done <==> i < k)
    ensures forall k, i :: 0 <= k < 4 && k <= i < 3 ==> Run(s, q)[k].agents[i] == Blank
  {
    var t := Run(s, q);
    RunProgresses(s, q);
    forall k, i | 0 <= k < 4 && 0 <= i < 3
      ensures (t[k].agents[i].done <==> i < k)
      ensures k <= i ==> t[k].agents[i] == Blank
    {
      assert Progress(t[k], q) && t[k].step == k;
      assert t[k].agents[i] == Slot(q, k, i);
    }
  }

  /**
    After the last stage the run is over: step 3, every agent done, three log
    entries, the busy flag clear, and the data handed from agent to agent.
   */
  lemma RunCompletes(s: RunState, q: string)
    requires Progress(s, q) && s.step == 0
    ensures var f := Run(s, q)[3];
      && f.step == 3 && !f.processing && f.log == ExpectedLog(q)
      && f.agents[0] == AgentState(q, q, true)
      && f.agents[1] == AgentState(q, Label(Classify(q)), true)
      && f.agents[2] == AgentState(f.agents[1].output, Respond(f.agents[1].output), true)
      && f.log[0].message == "Received question: \"" + q + "\""
      && f.log[1].message == "Classified as: " + f.agents[1].output
      && f.log[2].message == "Generated reply: \"" + f.agents[2].output + "\""
  {
    RunProgresses(s, q);
  }

  /** The last state of a run is idle at step 3, with every agent done and the full log. */
  lemma RunEndsIdle(s: RunState, q: string)
    requires Progress(s, q) && s.step == 0
    ensures Run(s, q)[3].step == 3 && !Run(s, q)[3].processing
    ensures forall i :: 0 <= i < 3 ==> Run(s, q)[3].agents[i].done
    ensures Run(s, q)[3].log == ExpectedLog(q)
  {
    RunProgresses(s, q);
    assert Progress(Run(s, q)[3], q);
  }

  // ---------------------------------------------------------------------------
  // Submitting the question form.

  /** What a submission leaves behind besides the new state: nothing, or a run waiting on its timer. */
  datatype Pending = NoRun | RunScheduled(question: string)

  /**
    The submit handler. A blank question, or one submitted while the page is
    busy, is ignored. Otherwise the state is reset and a run of the trimmed
    question is scheduled.
   */
  function Submit(s: RunState, question: string): (r: (RunState, Pending))
    ensures r.1 == NoRun <==> AllSpace(question) || s.processing
    ensures r.1 == NoRun ==> r.0 == s
    ensures r.1.RunScheduled? ==>
              r.0 == Reset(s) && IsTrimOf(question, r.1.question) && r.1.question != []
  {
    var q := Trim(question);
    if q == [] || s.processing then (s, NoRun) else (Reset(s), RunScheduled(q))
  }

  /**
    Everything that follows one submission when nothing intervenes: the states
    of the scheduled run, or just the unchanged state when it is ignored.
   */
  function Session(s: RunState, question: string): (t: seq<RunState>)
    ensures |t| == 1 || |t| == 4
    ensures |t| == 1 <==> AllSpace(question) || s.processing
    ensures |t| == 1 ==> t == [s]
    ensures |t| == 4 ==> t == Run(Reset(s), Trim(question))
  {
    match Submit(s, question)
    case (s', NoRun) => [s']
    case (s', RunScheduled(q)) => Run(s', q)
  }

  /** While a run is between its first and last stage, submissions are ignored. */
  lemma SubmitIgnoredMidRun(s: RunState, q: string, question: string)
    requires Progress(s, q) && 1 <= s.step <= 2
    ensures Submit(s, question) == (s, NoRun)
  {
  }

  /**
    The guard is only the busy flag at the moment of submission: an accepted
    submission clears the flag, so a second one made before the scheduled run
    starts is accepted too and resets the page again.
   */
  lemma SubmitDoesNotLatch(s: RunState, question1: string, question2: string)
    requires !s.processing && !AllSpace(question1) && !AllSpace(question2)
    ensures Submit(s, question1).1.RunScheduled?
    ensures Submit(Submit(s, question1).0, question2).1.RunScheduled?
  {
  }

  /** An accepted submission is followed by the run of the trimmed question from the reset state. */
  lemma SessionRunsTrimmed(s: RunState, question: string)
    requires !s.processing && !AllSpace(question)
    ensures Session(s, question) == Run(Reset(s), Trim(question))
  {
    assert Submit(s, question) == (Reset(s), RunScheduled(Trim(question)));
  }

  /**
    A question that is not all whitespace, submitted while idle, runs to
    completion on its trimmed text and ends with the three log messages.
   */
  lemma SessionCompletes(s: RunState, question: string)
    requires !s.processing && !AllSpace(question)
    ensures |Session(s, question)| == 4
    ensures Session(s, question)[3].step == 3 && !Session(s, question)[3].processing
    ensures forall i :: 0 <= i < 3 ==> Session(s, question)[3].agents[i].done
    ensures Session(s, question)[3].log == ExpectedLog(Trim(question))
  {
    var q := Trim(question);
    SessionRunsTrimmed(s, question);
    ResetStartsEveryRun(s, q);
    RunEndsIdle(Reset(s), q);
  }

  /** A sample billing question needs no trimming and is classified Billing. */
  lemma BillingQuestionFacts(question: string)
    requires question == "I have a billing problem"
    ensures Trim(question) == question
    ensures Classify(question) == Billing
  {
    assert !IsSpace(question[0]) && !IsSpace(question[|question| - 1]);
    TrimOfTrimmed(question);
    assert question == question[..9] + question[9..13] + question[13..];
    assert ToLower(question[9..13]) == "bill" by {
      ToLowerOfLower(question[9..13]);
    }
    BillingKeywordWins(question[..9], question[9..13], question[13..]);
  }

  // The three log messages of the sample, one per lemma to keep each string comparison small.

  lemma SampleReceivedMessage(question: string)
    requires question == "I have a billing problem"
    ensures "Received question: \"" + question + "\"" == "Received question: \"I have a billing problem\""
  {
  }

  lemma SampleClassifiedMessage(c: string)
    requires c == "Billing"
    ensures "Classified as: " + c == "Classified as: Billing"
  {
  }

  lemma SampleRepliedMessage(reply: string)
    requires reply == "Please contact our billing department."
    ensures "Generated reply: \"" + reply + "\"" == "Generated reply: \"Please contact our billing department.\""
  {
  }

  /** A sample billing question, submitted while idle, from submission to the final log. */
  lemma BillingSession(s: RunState, question: string)
    requires !s.processing
    requires question == "I have a billing problem"
    ensures Session(s, question)[3].log ==
      [LogEntry("Intake Agent", "Received question: \"I have a billing problem\"", 1),
       LogEntry("Analysis Agent", "Classified as: Billing", 2),
       LogEntry("Response Agent", "Generated reply: \"Please contact our billing department.\"", 3)]
  {
    BillingQuestionFacts(question);
    assert !AllSpace(question) by { assert !IsSpace(question[0]); }
    SessionCompletes(s, question);
    var c := Label(Classify(question));
    SampleReceivedMessage(question);
    SampleClassifiedMessage(c);
    SampleRepliedMessage(Respond(c));
  }
}
