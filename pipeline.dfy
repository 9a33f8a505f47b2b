/** `run_research_process` of src/visualizer.py: one run of the three-stage
    research pipeline, the messages and steps it publishes on the bus, and
    the four views it hands back to the interface.

    `Crew(...).kickoff()` for a one-task crew is an oracle `crew`: given the
    task, it says which events the agents' tools published while running
    and whether the run produced an output or raised. Wall-clock readings
    are inputs too: `clock(k)` is the `%H:%M:%S` stamp the handlers take for
    the k-th event of the run, and the start and end of the run are given
    in microseconds. */
module Pipeline {
  import opened Wrappers
  import opened EventSystem
  import opened Tasks
  import opened Visualizer

  /** What `kickoff()` did: the events published during it, then its
      output or the message of the exception it raised. */
  datatype Kickoff = Kickoff(published: seq<Event>, outcome: Result<string, string>)

  /** The four values returned to the interface: chat, steps, citations,
      summary. */
  datatype Display = Display(chat: seq<ChatPair>, steps: string, citations: string, summary: string)

  const StartMessage: string := "\U{1F50D} Starting research process..."

  function FindingsMessage(research: string): string {
    "\U{1F4DD} Research Findings:\n\n" + research
  }

  function AnalysisMessage(analysis: string): string {
    "\U{1F50D} Analysis Results:\n\n" + analysis
  }

  function ErrorMessage(error: string): string {
    "\U{274C} An error occurred: " + error
  }

  const SummaryOpening: string := Lines(["", "\U{1F3AF} Final Research Results:", "", "1\U{FE0F}\U{20E3} Initial Research:", ""])
  const SummaryAnalysis: string := Lines(["", "", "2\U{FE0F}\U{20E3} Analysis:", ""])
  const SummaryFactCheck: string := Lines(["", "", "3\U{FE0F}\U{20E3} Fact Check:", ""])
  const SummaryClosing: string := Lines(["", ""])

  /** The closing message, embedding the outputs of all three stages. */
  function FinalSummary(research: string, analysis: string, factCheck: string): string {
    SummaryOpening + research + SummaryAnalysis + analysis + SummaryFactCheck + factCheck + SummaryClosing
  }

  function Say(content: string): Event {
    Message("assistant", content)
  }

  /** What part of the `try` block did: the events it published and the
      message of the exception that left it, if one did. */
  datatype Attempt = Attempt(published: seq<Event>, raised: Option<string>)

  /** The fact-check stage: its task, the crew run, and on success the
      closing summary. */
  function FactCheckAttempt(research: string, analysis: string, crew: Task -> Kickoff): Attempt {
    var check := FactCheckTask(analysis);
    var head := [check.announced] + crew(check.task).published;
    match crew(check.task).outcome
    case Err(m) => Attempt(head, Some(m))
    case Ok(f) => Attempt(head + [Say(FinalSummary(research, analysis, f))], None)
  }

  /** The analysis stage and, on success, everything after it. */
  function AnalysisAttempt(research: string, crew: Task -> Kickoff): Attempt {
    var analysis := AnalysisTask(research);
    var head := [analysis.announced] + crew(analysis.task).published;
    match crew(analysis.task).outcome
    case Err(m) => Attempt(head, Some(m))
    case Ok(a) =>
      var rest := FactCheckAttempt(research, a, crew);
      Attempt(head + [Say(AnalysisMessage(a))] + rest.published, rest.raised)
  }

  /** The whole `try` block: the research stage and, on success, everything
      after it. */
  function ResearchAttempt(query: string, crew: Task -> Kickoff): Attempt {
    var research := ResearchTask(query);
    var head := [research.announced] + crew(research.task).published;
    match crew(research.task).outcome
    case Err(m) => Attempt(head, Some(m))
    case Ok(r) =>
      var rest := AnalysisAttempt(r, crew);
      Attempt(head + [Say(FindingsMessage(r))] + rest.published, rest.raised)
  }

  /** The fact-check stage opens with its task's step and the tools'
      events; it raises what `kickoff()` raised, and otherwise ends with
      the closing summary of all three outputs. */
  lemma FactCheckAttemptShape(research: string, analysis: string, crew: Task -> Kickoff)
    ensures var check := FactCheckTask(analysis); var k := crew(check.task); var r := FactCheckAttempt(research, analysis, crew);
      |r.published| > |k.published| && r.published[0] == check.announced &&
      r.published[1..|k.published| + 1] == k.published &&
      (k.outcome.Err? ==> r.raised == Some(k.outcome.error)) &&
      (k.outcome.Ok? ==> r.raised == None && r.published[|r.published| - 1] == Say(FinalSummary(research, analysis, k.outcome.value)))
  {
  }

  /** The analysis stage opens with its task's step and the tools' events;
      when `kickoff()` raises, nothing more is published, and otherwise the
      analysis message comes next. */
  lemma AnalysisAttemptShape(research: string, crew: Task -> Kickoff)
    ensures var analysis := AnalysisTask(research); var k := crew(analysis.task); var r := AnalysisAttempt(research, crew);
      |r.published| > |k.published| && r.published[0] == analysis.announced &&
      r.published[1..|k.published| + 1] == k.published &&
      (k.outcome.Err? ==> r == Attempt([analysis.announced] + k.published, Some(k.outcome.error))) &&
      (k.outcome.Ok? ==> |r.published| > |k.published| + 1 && r.published[|k.published| + 1] == Say(AnalysisMessage(k.outcome.value)))
  {
  }

  /** The research stage opens with its task's step and the tools' events;
      when `kickoff()` raises, nothing more is published, and otherwise the
      findings message comes next. */
  lemma ResearchAttemptShape(query: string, crew: Task -> Kickoff)
    ensures var research := ResearchTask(query); var k := crew(research.task); var r := ResearchAttempt(query, crew);
      |r.published| > |k.published| && r.published[0] == research.announced &&
      r.published[1..|k.published| + 1] == k.published &&
      (k.outcome.Err? ==> r == Attempt([research.announced] + k.published, Some(k.outcome.error))) &&
      (k.outcome.Ok? ==> |r.published| > |k.published| + 1 && r.published[|k.published| + 1] == Say(FindingsMessage(k.outcome.value)))
  {
  }

  /** The two messages a run with a non-empty query opens with. */
  function Opening(query: string): (r: seq<Event>)
    ensures MessagesOf(r) == [ChatMessage("user", query), ChatMessage("assistant", StartMessage)]
  {
    MessagesOfOne(Message("user", query));
    MessagesOfOne(Say(StartMessage));
    MessagesOfAppend([Message("user", query)], [Say(StartMessage)]);
    [Message("user", query)] + [Say(StartMessage)]
  }

  /** What the `except` clause publishes for what left the `try` block. */
  function Closing(raised: Option<string>): (r: seq<Event>)
    ensures MessagesOf(r) == if raised.Some? then [ChatMessage("assistant", ErrorMessage(raised.value))] else []
  {
    match raised
    case None => []
    case Some(m) =>
      MessagesOfOne(Say(ErrorMessage(m)));
      [Say(ErrorMessage(m))]
  }

  /** Every event a run with a non-empty query publishes, in order: the
      query and the start message, the `try` block, and the error message
      if an exception left it. */
  function RunEvents(query: string, crew: Task -> Kickoff): seq<Event> {
    var attempt := ResearchAttempt(query, crew);
    Opening(query) + attempt.published + Closing(attempt.raised)
  }

  /** What the run returns: the views of the logs of its own visualizer,
      which took in exactly the events of the run. */
  function Report(events: seq<Event>, clock: nat -> string, elapsed: int): Display {
    ViewsOf(AbsorbAll(NoLogs, events, clock), elapsed)
  }

  /** The four views of a visualizer's logs, `elapsed` microseconds after
      the run started. */
  function ViewsOf(l: Logs, elapsed: int): Display {
    Display(ChatPairs(l.chat), StepsText(l.steps), CitationsText(l.citations),
            SummaryText(|l.steps|, |l.citations|, elapsed))
  }

  /** A run opens with the query, the start message and the research
      task's step, and when an exception left the `try` block it ends with
      the error message. */
  lemma RunOpensAndCloses(query: string, crew: Task -> Kickoff)
    ensures var r := RunEvents(query, crew);
      |r| >= 3 && r[0] == Message("user", query) && r[1] == Say(StartMessage) &&
      r[2] == ResearchTask(query).announced
    ensures var r, raised := RunEvents(query, crew), ResearchAttempt(query, crew).raised;
      raised.Some? ==> r[|r| - 1] == Say(ErrorMessage(raised.value))
  {
    var attempt := ResearchAttempt(query, crew);
    assert RunEvents(query, crew) == Opening(query) + attempt.published + Closing(attempt.raised);
  }

  /** The chat view pairs up the run's messages, whatever else the run
      published. */
  lemma ReportChat(events: seq<Event>, clock: nat -> string, elapsed: int)
    ensures Report(events, clock, elapsed).chat == ChatPairs(MessagesOf(events))
  {
    var l := AbsorbAll(NoLogs, events, clock);
    var m := MessagesOf(events);
    AbsorbAllChat(NoLogs, events, clock);
    assert [] + m == m;
    assert l.chat == m;
    assert Report(events, clock, elapsed).chat == ChatPairs(l.chat);
  }

  /** The summary view counts the run's steps and citations. */
  lemma ReportSummary(events: seq<Event>, clock: nat -> string, elapsed: int)
    ensures Report(events, clock, elapsed).summary == SummaryText(StepCount(events), CitationCount(events), elapsed)
  {
    AbsorbAllCounts(NoLogs, events, clock);
  }

  /** The agents' tools publish steps and citations, never messages. */
  ghost predicate ToolsPublishNoMessages(crew: Task -> Kickoff) {
    forall t :: MessagesOf(crew(t).published) == []
  }

  lemma {:induction false} MessagesOfAppend(a: seq<Event>, b: seq<Event>)
    ensures MessagesOf(a + b) == MessagesOf(a) + MessagesOf(b)
  {
    if b == [] {
      assert a + b == a;
    } else {
      MessagesOfAppend(a, b[..|b| - 1]);
      assert (a + b)[..|a + b| - 1] == a + b[..|b| - 1];
    }
  }

  // Proof scaffolding: the messages of a one-event list, stated once so
  // that the callers' proofs stay small; it models no line of the source.
  lemma MessagesOfOne(e: Event)
    ensures MessagesOf([e]) == if e.Message? then [ChatMessage(e.role, e.content)] else []
  {
    assert [e][..0] == [];
  }

  /** A stage opens with its task's step and the tools' events: no message. */
  lemma StageOpeningHasNoMessages(announced: Event, published: seq<Event>)
    requires announced.Step? && MessagesOf(published) == []
    ensures MessagesOf([announced] + published) == []
  {
    MessagesOfOne(announced);
    MessagesOfAppend([announced], published);
  }

  /** The fact-check stage publishes one message, the closing summary, and
      only when it succeeds. */
  lemma FactCheckMessages(research: string, analysis: string, crew: Task -> Kickoff)
    requires ToolsPublishNoMessages(crew)
    ensures var F := crew(FactCheckTask(analysis).task).outcome;
      MessagesOf(FactCheckAttempt(research, analysis, crew).published) ==
      if F.Ok? then [ChatMessage("assistant", FinalSummary(research, analysis, F.value))] else []
  {
    var check := FactCheckTask(analysis);
    var k := crew(check.task);
    StageOpeningHasNoMessages(check.announced, k.published);
    if k.outcome.Ok? {
      MessagesOfOne(Say(FinalSummary(research, analysis, k.outcome.value)));
      MessagesOfAppend([check.announced] + k.published, [Say(FinalSummary(research, analysis, k.outcome.value))]);
    }
  }

  /** The analysis stage publishes its results message when it succeeds,
      followed by what the fact-check stage publishes. */
  lemma AnalysisMessages(research: string, crew: Task -> Kickoff)
    requires ToolsPublishNoMessages(crew)
    ensures var A := crew(AnalysisTask(research).task).outcome;
      MessagesOf(AnalysisAttempt(research, crew).published) ==
      if A.Ok? then [ChatMessage("assistant", AnalysisMessage(A.value))] +
                    MessagesOf(FactCheckAttempt(research, A.value, crew).published)
      else []
  {
    var analysis := AnalysisTask(research);
    var k := crew(analysis.task);
    var head := [analysis.announced] + k.published;
    StageOpeningHasNoMessages(analysis.announced, k.published);
    if k.outcome.Ok? {
      var a := k.outcome.value;
      MessagesOfOne(Say(AnalysisMessage(a)));
      MessagesOfAppend(head, [Say(AnalysisMessage(a))]);
      MessagesOfAppend(head + [Say(AnalysisMessage(a))], FactCheckAttempt(research, a, crew).published);
    }
  }

  lemma ResearchMessages(query: string, crew: Task -> Kickoff)
    requires ToolsPublishNoMessages(crew)
    ensures var R := crew(ResearchTask(query).task).outcome;
      MessagesOf(ResearchAttempt(query, crew).published) ==
      if R.Ok? then [ChatMessage("assistant", FindingsMessage(R.value))] +
                    MessagesOf(AnalysisAttempt(R.value, crew).published)
      else []
  {
    var research := ResearchTask(query);
    var k := crew(research.task);
    var head := [research.announced] + k.published;
    StageOpeningHasNoMessages(research.announced, k.published);
    if k.outcome.Ok? {
      var r := k.outcome.value;
      MessagesOfOne(Say(FindingsMessage(r)));
      MessagesOfAppend(head, [Say(FindingsMessage(r))]);
      MessagesOfAppend(head + [Say(FindingsMessage(r))], AnalysisAttempt(r, crew).published);
    }
  }

  /** The chat messages of a run: the two opening messages, those of the
      `try` block, then the error message if an exception left it. */
  lemma RunMessagesSplit(query: string, crew: Task -> Kickoff)
    ensures var attempt := ResearchAttempt(query, crew);
      MessagesOf(RunEvents(query, crew)) ==
      [ChatMessage("user", query), ChatMessage("assistant", StartMessage)] + MessagesOf(attempt.published) +
      (if attempt.raised.Some? then [ChatMessage("assistant", ErrorMessage(attempt.raised.value))] else [])
  {
    var attempt := ResearchAttempt(query, crew);
    MessagesOfAppend(Opening(query), attempt.published);
    MessagesOfAppend(Opening(query) + attempt.published, Closing(attempt.raised));
  }

  /** When research raises, the chat is the query, the start message and
      the error message. */
  lemma ResearchFailureMessages(query: string, crew: Task -> Kickoff, error: string)
    requires ToolsPublishNoMessages(crew)
    requires crew(ResearchTask(query).task).outcome == Err(error)
    ensures MessagesOf(RunEvents(query, crew)) ==
      [ChatMessage("user", query), ChatMessage("assistant", StartMessage),
       ChatMessage("assistant", ErrorMessage(error))]
  {
    ResearchMessages(query, crew);
    assert ResearchAttempt(query, crew).raised == Some(error);
    RunMessagesSplit(query, crew);
    Listed3(ChatMessage("user", query), ChatMessage("assistant", StartMessage),
            ChatMessage("assistant", ErrorMessage(error)));
  }

  /** When analysis raises, the findings are the last message before the
      error message. */
  lemma AnalysisFailureMessages(query: string, crew: Task -> Kickoff, research: string, error: string)
    requires ToolsPublishNoMessages(crew)
    requires crew(ResearchTask(query).task).outcome == Ok(research)
    requires crew(AnalysisTask(research).task).outcome == Err(error)
    ensures MessagesOf(RunEvents(query, crew)) ==
      [ChatMessage("user", query), ChatMessage("assistant", StartMessage),
       ChatMessage("assistant", FindingsMessage(research)), ChatMessage("assistant", ErrorMessage(error))]
  {
    var m2 := ChatMessage("assistant", FindingsMessage(research));
    AnalysisMessages(research, crew);
    assert MessagesOf(AnalysisAttempt(research, crew).published) == [];
    assert AnalysisAttempt(research, crew).raised == Some(error);
    ResearchMessages(query, crew);
    assert MessagesOf(ResearchAttempt(query, crew).published) == [m2] + [];
    assert ResearchAttempt(query, crew).raised == Some(error);
    RunMessagesSplit(query, crew);
    Listed4(ChatMessage("user", query), ChatMessage("assistant", StartMessage), m2, ChatMessage("assistant", ErrorMessage(error)));
  }

  /** When fact-checking raises, no message of its own precedes the error
      message: the analysis results are the last message before it. */
  lemma FactCheckFailureMessages(query: string, crew: Task -> Kickoff, research: string, analysis: string,
                                 error: string)
    requires ToolsPublishNoMessages(crew)
    requires crew(ResearchTask(query).task).outcome == Ok(research)
    requires crew(AnalysisTask(research).task).outcome == Ok(analysis)
    requires crew(FactCheckTask(analysis).task).outcome == Err(error)
    ensures MessagesOf(RunEvents(query, crew)) ==
      [ChatMessage("user", query), ChatMessage("assistant", StartMessage),
       ChatMessage("assistant", FindingsMessage(research)), ChatMessage("assistant", AnalysisMessage(analysis)),
       ChatMessage("assistant", ErrorMessage(error))]
  {
    var m2 := ChatMessage("assistant", FindingsMessage(research));
    var m3 := ChatMessage("assistant", AnalysisMessage(analysis));
    FactCheckMessages(research, analysis, crew);
    assert FactCheckAttempt(research, analysis, crew).raised == Some(error);
    AnalysisMessages(research, crew);
    assert MessagesOf(AnalysisAttempt(research, crew).published) == [m3] + [];
    assert AnalysisAttempt(research, crew).raised == Some(error);
    ResearchMessages(query, crew);
    assert MessagesOf(ResearchAttempt(query, crew).published) == [m2] + ([m3] + []);
    assert ResearchAttempt(query, crew).raised == Some(error);
    RunMessagesSplit(query, crew);
    Listed5Failed(ChatMessage("user", query), ChatMessage("assistant", StartMessage), m2, m3, ChatMessage("assistant", ErrorMessage(error)));
  }

  /** A run in which every stage succeeds publishes exactly five messages:
      the query, the start message, the findings, the analysis results and
      the closing summary, and no error message. */
  lemma SuccessfulRunMessages(query: string, crew: Task -> Kickoff, research: string, analysis: string,
                              factCheck: string)
    requires ToolsPublishNoMessages(crew)
    requires crew(ResearchTask(query).task).outcome == Ok(research)
    requires crew(AnalysisTask(research).task).outcome == Ok(analysis)
    requires crew(FactCheckTask(analysis).task).outcome == Ok(factCheck)
    ensures MessagesOf(RunEvents(query, crew)) ==
      [ChatMessage("user", query), ChatMessage("assistant", StartMessage),
       ChatMessage("assistant", FindingsMessage(research)), ChatMessage("assistant", AnalysisMessage(analysis)),
       ChatMessage("assistant", FinalSummary(research, analysis, factCheck))]
  {
    var m2 := ChatMessage("assistant", FindingsMessage(research));
    var m3 := ChatMessage("assistant", AnalysisMessage(analysis));
    var m4 := ChatMessage("assistant", FinalSummary(research, analysis, factCheck));
    FactCheckMessages(research, analysis, crew);
    assert FactCheckAttempt(research, analysis, crew).raised == None;
    AnalysisMessages(research, crew);
    assert MessagesOf(AnalysisAttempt(research, crew).published) == [m3] + [m4];
    assert AnalysisAttempt(research, crew).raised == None;
    ResearchMessages(query, crew);
    assert MessagesOf(ResearchAttempt(query, crew).published) == [m2] + ([m3] + [m4]);
    assert ResearchAttempt(query, crew).raised == None;
    RunMessagesSplit(query, crew);
    Listed5(ChatMessage("user", query), ChatMessage("assistant", StartMessage), m2, m3, m4);
  }

  // Proof scaffolding: the shapes in which the lemmas above find the
  // messages of a run, stated once so that their proofs stay small; they
  // model no line of the source.
  lemma Listed3<T>(a: T, b: T, c: T)
    ensures [a, b] + [] + [c] == [a, b, c]
  {
  }

  lemma Listed4<T>(a: T, b: T, c: T, d: T)
    ensures [a, b] + ([c] + []) + [d] == [a, b, c, d]
  {
  }

  lemma Listed5Failed<T>(a: T, b: T, c: T, d: T, e: T)
    ensures [a, b] + ([c] + ([d] + [])) + [e] == [a, b, c, d, e]
  {
  }

  lemma Listed5<T>(a: T, b: T, c: T, d: T, e: T)
    ensures [a, b] + ([c] + ([d] + [e])) + [] == [a, b, c, d, e]
  {
  }

  /** The chat a successful run returns: the query answered by the start
      message, then the findings, the analysis and the closing summary each
      on a row of their own with an empty user side. */
  lemma SuccessfulRunChat(query: string, crew: Task -> Kickoff, clock: nat -> string, elapsed: int,
                          research: string, analysis: string, factCheck: string)
    requires ToolsPublishNoMessages(crew)
    requires crew(ResearchTask(query).task).outcome == Ok(research)
    requires crew(AnalysisTask(research).task).outcome == Ok(analysis)
    requires crew(FactCheckTask(analysis).task).outcome == Ok(factCheck)
    ensures Report(RunEvents(query, crew), clock, elapsed).chat ==
      [ChatPair(Some(query), Some(StartMessage)), ChatPair(None, Some(FindingsMessage(research))),
       ChatPair(None, Some(AnalysisMessage(analysis))),
       ChatPair(None, Some(FinalSummary(research, analysis, factCheck)))]
  {
    SuccessfulRunMessages(query, crew, research, analysis, factCheck);
    AbsorbAllChat(NoLogs, RunEvents(query, crew), clock);
    var m0 := ChatMessage("user", query);
    var m1 := ChatMessage("assistant", StartMessage);
    var m2 := ChatMessage("assistant", FindingsMessage(research));
    var m3 := ChatMessage("assistant", AnalysisMessage(analysis));
    var m4 := ChatMessage("assistant", FinalSummary(research, analysis, factCheck));
    var events := RunEvents(query, crew);
    assert AbsorbAll(NoLogs, events, clock).chat == [] + [m0, m1, m2, m3, m4];
    assert [] + [m0, m1, m2, m3, m4] == [m0, m1, m2, m3, m4];
    FiveMessagesPair(m0, m1, m2, m3, m4);
  }

  /** How a user message and four replies pair up. */
  lemma FiveMessagesPair(m0: ChatMessage, m1: ChatMessage, m2: ChatMessage, m3: ChatMessage, m4: ChatMessage)
    requires m0.role == "user" && m1.role != "user" && m2.role != "user" && m3.role != "user" && m4.role != "user"
    ensures ChatPairs([m0, m1, m2, m3, m4]) ==
      [ChatPair(Some(m0.content), Some(m1.content)), ChatPair(None, Some(m2.content)),
       ChatPair(None, Some(m3.content)), ChatPair(None, Some(m4.content))]
  {
    var p0 := ChatPair(Some(m0.content), Some(m1.content));
    var p2 := ChatPair(None, Some(m2.content));
    var p3 := ChatPair(None, Some(m3.content));
    var p4 := ChatPair(None, Some(m4.content));
    QuestionAnswered(m0, m1);
    ReplyOpensRow([m0, m1], m2);
    ReplyOpensRow([m0, m1] + [m2], m3);
    ReplyOpensRow([m0, m1] + [m2] + [m3], m4);
    assert [m0, m1] + [m2] + [m3] + [m4] == [m0, m1, m2, m3, m4];
    assert [p0] + [p2] + [p3] + [p4] == [p0, p2, p3, p4];
  }

  /** A user message answered by a reply makes one full row. */
  lemma QuestionAnswered(m0: ChatMessage, m1: ChatMessage)
    requires m0.role == "user" && m1.role != "user"
    ensures ChatPairs([m0, m1]) == [ChatPair(Some(m0.content), Some(m1.content))]
  {
    ChatPairsSnoc([], m0);
    assert [] + [m0] == [m0];
    ChatPairsSnoc([m0], m1);
    assert [m0] + [m1] == [m0, m1];
  }

  /** A reply after a row that already has its reply opens a row of its
      own, with an empty user side. */
  lemma ReplyOpensRow(msgs: seq<ChatMessage>, m: ChatMessage)
    requires m.role != "user"
    requires ChatPairs(msgs) != [] && ChatPairs(msgs)[|ChatPairs(msgs)| - 1].assistant.Some?
    ensures ChatPairs(msgs + [m]) == ChatPairs(msgs) + [ChatPair(None, Some(m.content))]
  {
    ChatPairsSnoc(msgs, m);
  }

  /** A stage that raises ends the run: what the later stages would have
      done makes no difference to what is published. */
  lemma ResearchFailureEndsRun(query: string, crew: Task -> Kickoff, crew': Task -> Kickoff)
    requires crew'(ResearchTask(query).task) == crew(ResearchTask(query).task)
    requires crew(ResearchTask(query).task).outcome.Err?
    ensures RunEvents(query, crew') == RunEvents(query, crew)
  {
  }

  lemma AnalysisFailureEndsRun(research: string, crew: Task -> Kickoff, crew': Task -> Kickoff)
    requires crew'(AnalysisTask(research).task) == crew(AnalysisTask(research).task)
    requires crew(AnalysisTask(research).task).outcome.Err?
    ensures AnalysisAttempt(research, crew') == AnalysisAttempt(research, crew)
  {
  }

  /** What the run asks of the analysis crew is the same whatever the
      research found: the analysis crew is given nothing of the findings. */
  lemma AnalysisIgnoresFindings(r1: string, r2: string, crew: Task -> Kickoff)
    requires crew(AnalysisTask(r1).task).outcome.Err?
    ensures AnalysisAttempt(r1, crew) == AnalysisAttempt(r2, crew)
  {
    DownstreamTasksIgnoreInput(r1, r2);
  }

  // ---------------------------------------------------------------------
  // The run itself

  /** The start times of the visualizers of `hs`, in order. */
  ghost function StartTimes(hs: seq<ResearchVisualizer>): (r: seq<Option<int>>)
    reads set v | v in hs
    ensures |r| == |hs|
  {
    if hs == [] then [] else StartTimes(hs[..|hs| - 1]) + [hs[|hs| - 1].startTime]
  }

  lemma {:induction false} StartTimesIndex(hs: seq<ResearchVisualizer>)
    ensures forall j :: 0 <= j < |hs| ==> StartTimes(hs)[j] == hs[j].startTime
  {
    if hs != [] {
      StartTimesIndex(hs[..|hs| - 1]);
    }
  }

  /** The logs `base` after each has taken in the events `sent`. */
  ghost function AbsorbEach(base: seq<Logs>, sent: seq<Event>, clock: nat -> string): (r: seq<Logs>)
    ensures |r| == |base|
  {
    seq(|base|, j requires 0 <= j < |base| => AbsorbAll(base[j], sent, clock))
  }

  /** Each visualizer of the bus has taken in the events `sent` so far on
      top of the logs `base` it had when the run began, and its start time
      is still `starts`. */
  ghost predicate Reached(bus: Bus<ResearchVisualizer>, base: seq<Logs>, starts: seq<Option<int>>,
                          sent: seq<Event>, clock: nat -> string)
    reads bus, set v | v in bus.stepHandlers
  {
    States(bus.stepHandlers) == AbsorbEach(base, sent, clock) && StartTimes(bus.stepHandlers) == starts
  }

  /** One `event_system.notify_*` of the run: `sent` is what the run has
      published so far, and its length is the position that picks the
      clock reading. */
  method Emit(bus: Bus<ResearchVisualizer>, e: Event, clock: nat -> string,
              ghost base: seq<Logs>, ghost starts: seq<Option<int>>, sent: seq<Event>)
    returns (sent': seq<Event>)
    requires Wired(bus) && Reached(bus, base, starts, sent, clock)
    modifies bus.stepHandlers
    ensures Wired(bus)
    ensures sent' == sent + [e] && Reached(bus, base, starts, sent', clock)
  {
    StatesIndex(bus.stepHandlers);
    StartTimesIndex(bus.stepHandlers);
    Publish(bus, e, clock(|sent|));
    sent' := sent + [e];
    forall j | 0 <= j < |base|
      ensures bus.stepHandlers[j].State() == AbsorbAll(base[j], sent', clock)
    {
      assert old(bus.stepHandlers[j].State()) == AbsorbAll(base[j], sent, clock);
      AbsorbAllSnoc(base[j], sent, e, clock);
    }
    StatesIndex(bus.stepHandlers);
    StartTimesIndex(bus.stepHandlers);
    assert States(bus.stepHandlers) == AbsorbEach(base, sent', clock);
    assert StartTimes(bus.stepHandlers) == starts;
  }

  /** The events the tools publish during a `kickoff()`, one after another. */
  method EmitAll(bus: Bus<ResearchVisualizer>, events: seq<Event>, clock: nat -> string,
                 ghost base: seq<Logs>, ghost starts: seq<Option<int>>, sent: seq<Event>)
    returns (sent': seq<Event>)
    requires Wired(bus) && Reached(bus, base, starts, sent, clock)
    modifies bus.stepHandlers
    ensures Wired(bus)
    ensures sent' == sent + events && Reached(bus, base, starts, sent', clock)
  {
    sent' := sent;
    var i := 0;
    while i < |events|
      invariant 0 <= i <= |events|
      invariant sent' == sent + events[..i]
      invariant Reached(bus, base, starts, sent', clock)
    {
      sent' := Emit(bus, events[i], clock, base, starts, sent');
      TakeOneMore(events, i);
      Regroup3(sent, events[..i], [events[i]]);
      i := i + 1;
    }
    TakeAll(events);
  }

  // Proof scaffolding: regrouping the events published so far, stated
  // once so that the methods below need no reasoning about concatenation;
  // these lemmas model no line of the source.
  lemma Regroup3<T>(a: seq<T>, b: seq<T>, c: seq<T>)
    ensures a + b + c == a + (b + c)
  {
  }

  lemma TakeOneMore<T>(s: seq<T>, i: nat)
    requires i < |s|
    ensures s[..i + 1] == s[..i] + [s[i]]
  {
  }

  lemma TakeAll<T>(s: seq<T>)
    ensures s[..|s|] == s
  {
  }

  lemma Regroup4<T>(a: seq<T>, b: seq<T>, c: seq<T>, d: seq<T>)
    ensures a + b + c + d == a + (b + c + d)
  {
  }

  lemma Regroup5<T>(a: seq<T>, b: seq<T>, c: seq<T>, d: seq<T>, e: seq<T>)
    ensures a + b + c + d + e == a + (b + c + d + e)
  {
  }

  /** The fact-check part of the `try` block. */
  method TryFactCheck(bus: Bus<ResearchVisualizer>, researchOutput: string, analysisOutput: string,
                      crew: Task -> Kickoff, clock: nat -> string,
                      ghost base: seq<Logs>, ghost starts: seq<Option<int>>, sent: seq<Event>)
    returns (sent': seq<Event>, raised: Option<string>)
    requires Wired(bus) && Reached(bus, base, starts, sent, clock)
    modifies bus.stepHandlers
    ensures Wired(bus)
    ensures var attempt := FactCheckAttempt(researchOutput, analysisOutput, crew);
      sent' == sent + attempt.published && raised == attempt.raised && Reached(bus, base, starts, sent', clock)
  {
    var check := FactCheckTask(analysisOutput);
    sent' := Emit(bus, check.announced, clock, base, starts, sent);
    var checkCrew := crew(check.task);
    sent' := EmitAll(bus, checkCrew.published, clock, base, starts, sent');
    match checkCrew.outcome {
      case Err(m) =>
        Regroup3(sent, [check.announced], checkCrew.published);
        raised := Some(m);
      case Ok(finalOutput) =>
        var summary := Say(FinalSummary(researchOutput, analysisOutput, finalOutput));
        sent' := Emit(bus, summary, clock, base, starts, sent');
        Regroup4(sent, [check.announced], checkCrew.published, [summary]);
        raised := None;
    }
  }

  /** The analysis part of the `try` block and what follows it. */
  method TryAnalysis(bus: Bus<ResearchVisualizer>, researchOutput: string,
                     crew: Task -> Kickoff, clock: nat -> string,
                     ghost base: seq<Logs>, ghost starts: seq<Option<int>>, sent: seq<Event>)
    returns (sent': seq<Event>, raised: Option<string>)
    requires Wired(bus) && Reached(bus, base, starts, sent, clock)
    modifies bus.stepHandlers
    ensures Wired(bus)
    ensures var attempt := AnalysisAttempt(researchOutput, crew);
      sent' == sent + attempt.published && raised == attempt.raised && Reached(bus, base, starts, sent', clock)
  {
    var analysis := AnalysisTask(researchOutput);
    sent' := Emit(bus, analysis.announced, clock, base, starts, sent);
    var analysisCrew := crew(analysis.task);
    sent' := EmitAll(bus, analysisCrew.published, clock, base, starts, sent');
    match analysisCrew.outcome {
      case Err(m) =>
        Regroup3(sent, [analysis.announced], analysisCrew.published);
        raised := Some(m);
      case Ok(analysisOutput) =>
        var message := Say(AnalysisMessage(analysisOutput));
        sent' := Emit(bus, message, clock, base, starts, sent');
        sent', raised := TryFactCheck(bus, researchOutput, analysisOutput, crew, clock, base, starts, sent');
        Regroup5(sent, [analysis.announced], analysisCrew.published, [message],
                 FactCheckAttempt(researchOutput, analysisOutput, crew).published);
    }
  }

  /** The whole `try` block: the research stage and what follows it. */
  method TryResearch(bus: Bus<ResearchVisualizer>, query: string,
                     crew: Task -> Kickoff, clock: nat -> string,
                     ghost base: seq<Logs>, ghost starts: seq<Option<int>>, sent: seq<Event>)
    returns (sent': seq<Event>, raised: Option<string>)
    requires Wired(bus) && Reached(bus, base, starts, sent, clock)
    modifies bus.stepHandlers
    ensures Wired(bus)
    ensures var attempt := ResearchAttempt(query, crew);
      sent' == sent + attempt.published && raised == attempt.raised && Reached(bus, base, starts, sent', clock)
  {
    var research := ResearchTask(query);
    sent' := Emit(bus, research.announced, clock, base, starts, sent);
    var researchCrew := crew(research.task);
    sent' := EmitAll(bus, researchCrew.published, clock, base, starts, sent');
    match researchCrew.outcome {
      case Err(m) =>
        Regroup3(sent, [research.announced], researchCrew.published);
        raised := Some(m);
      case Ok(researchOutput) =>
        var message := Say(FindingsMessage(researchOutput));
        sent' := Emit(bus, message, clock, base, starts, sent');
        sent', raised := TryAnalysis(bus, researchOutput, crew, clock, base, starts, sent');
        Regroup5(sent, [research.announced], researchCrew.published, [message],
                 AnalysisAttempt(researchOutput, crew).published);
    }
  }

  /** Everything `run_research_process` publishes for a non-empty query:
      the query, the start message, the `try` block and, when an exception
      left it, the error message of the `except` clause. */
  method Converse(bus: Bus<ResearchVisualizer>, query: string, crew: Task -> Kickoff, clock: nat -> string,
                  ghost base: seq<Logs>, ghost starts: seq<Option<int>>)
    returns (sent: seq<Event>)
    requires Wired(bus) && Reached(bus, base, starts, [], clock)
    modifies bus.stepHandlers
    ensures Wired(bus)
    ensures sent == RunEvents(query, crew) && Reached(bus, base, starts, sent, clock)
  {
    sent := Emit(bus, Message("user", query), clock, base, starts, []);
    sent := Emit(bus, Say(StartMessage), clock, base, starts, sent);
    assert sent == Opening(query);
    var raised: Option<string>;
    sent, raised := TryResearch(bus, query, crew, clock, base, starts, sent);
    ghost var attempt := ResearchAttempt(query, crew);
    // except Exception as e:
    if raised.Some? {
      sent := Emit(bus, Say(ErrorMessage(raised.value)), clock, base, starts, sent);
      Regroup3(Opening(query), attempt.published, Closing(attempt.raised));
    } else {
      assert Opening(query) + attempt.published + Closing(attempt.raised) == sent;
    }
  }

  /** The first two lines of a run with a non-empty query: a new
      visualizer subscribes to the bus, and its start time is set. `base`
      and `starts` record what every visualizer holds at that point. */
  method Join(bus: Bus<ResearchVisualizer>, startTime: int, ghost clock: nat -> string)
    returns (visualizer: ResearchVisualizer, ghost base: seq<Logs>, ghost starts: seq<Option<int>>)
    requires Wired(bus)
    modifies bus
    ensures Wired(bus) && Reached(bus, base, starts, [], clock)
    ensures fresh(visualizer) && bus.stepHandlers == old(bus.stepHandlers) + [visualizer]
    ensures var n := |old(bus.stepHandlers)|;
      |base| == |starts| == n + 1 && base[n] == NoLogs && starts[n] == Some(startTime) &&
      forall j :: 0 <= j < n ==>
        base[j] == old(bus.stepHandlers[j].State()) && starts[j] == old(bus.stepHandlers[j].startTime)
  {
    visualizer := new ResearchVisualizer(bus);
    visualizer.startTime := Some(startTime);
    base := States(bus.stepHandlers);
    starts := StartTimes(bus.stepHandlers);
    StatesIndex(bus.stepHandlers);
    StartTimesIndex(bus.stepHandlers);
    assert AbsorbEach(base, [], clock) == base;
  }

  /** What `Reached` says about each visualizer. */
  lemma ReachedIndex(bus: Bus<ResearchVisualizer>, base: seq<Logs>, starts: seq<Option<int>>,
                     sent: seq<Event>, clock: nat -> string)
    requires Reached(bus, base, starts, sent, clock)
    ensures |bus.stepHandlers| == |base| == |starts|
    ensures forall j :: 0 <= j < |base| ==>
      bus.stepHandlers[j].State() == AbsorbAll(base[j], sent, clock) &&
      bus.stepHandlers[j].startTime == starts[j]
  {
    StatesIndex(bus.stepHandlers);
    StartTimesIndex(bus.stepHandlers);
    forall j | 0 <= j < |base|
      ensures bus.stepHandlers[j].State() == AbsorbAll(base[j], sent, clock)
    {
      assert AbsorbEach(base, sent, clock)[j] == AbsorbAll(base[j], sent, clock);
    }
  }

  /** The `return` of a run: the four views of the run's own visualizer,
      with the summary read at `endTime`. */
  method Views(visualizer: ResearchVisualizer, endTime: int, ghost startTime: int)
    returns (d: Display)
    requires visualizer.startTime == Some(startTime)
    ensures d == ViewsOf(visualizer.State(), endTime - startTime)
  {
    var chat := visualizer.FormatChatHistory();
    var stepsText := visualizer.FormatResearchSteps();
    var citationsText := visualizer.FormatCitations();
    var summaryText := visualizer.GetResearchSummary(endTime);
    d := Display(chat, stepsText, citationsText, summaryText);
  }

  /** `run_research_process` up to its views, for a non-empty query: a new
      visualizer joins the bus and the run's events reach it and every
      visualizer already there. */
  method Enrol(bus: Bus<ResearchVisualizer>, query: string,
               crew: Task -> Kickoff, clock: nat -> string, startTime: int)
    returns (visualizer: ResearchVisualizer)
    requires Wired(bus) && query != ""
    modifies bus, bus.stepHandlers
    ensures Wired(bus)
    ensures var n, events := |old(bus.stepHandlers)|, RunEvents(query, crew);
      |bus.stepHandlers| == n + 1 && bus.stepHandlers[..n] == old(bus.stepHandlers) &&
      bus.stepHandlers[n] == visualizer && fresh(visualizer) &&
      visualizer.State() == AbsorbAll(NoLogs, events, clock) &&
      visualizer.startTime == Some(startTime) &&
      (forall j :: 0 <= j < n ==>
        bus.stepHandlers[j].State() == AbsorbAll(old(bus.stepHandlers[j].State()), events, clock) &&
        bus.stepHandlers[j].startTime == old(bus.stepHandlers[j].startTime))
  {
    ghost var base: seq<Logs>, starts: seq<Option<int>>;
    visualizer, base, starts := Join(bus, startTime, clock);
    var sent := Converse(bus, query, crew, clock, base, starts);
    ReachedIndex(bus, base, starts, sent, clock);
  }

  /** `run_research_process` past its first check, for a non-empty query. */
  method RunQuery(bus: Bus<ResearchVisualizer>, query: string,
                  crew: Task -> Kickoff, clock: nat -> string, startTime: int, endTime: int)
    returns (d: Display)
    requires Wired(bus) && query != ""
    modifies bus, bus.stepHandlers
    ensures Wired(bus)
    ensures var n, events := |old(bus.stepHandlers)|, RunEvents(query, crew);
      |bus.stepHandlers| == n + 1 && bus.stepHandlers[..n] == old(bus.stepHandlers) &&
      fresh(bus.stepHandlers[n]) &&
      bus.stepHandlers[n].State() == AbsorbAll(NoLogs, events, clock) &&
      bus.stepHandlers[n].startTime == Some(startTime) &&
      (forall j :: 0 <= j < n ==>
        bus.stepHandlers[j].State() == AbsorbAll(old(bus.stepHandlers[j].State()), events, clock) &&
        bus.stepHandlers[j].startTime == old(bus.stepHandlers[j].startTime)) &&
      d == Report(events, clock, endTime - startTime)
  {
    var visualizer := Enrol(bus, query, crew, clock, startTime);
    d := Views(visualizer, endTime, startTime);
  }

  /** `run_research_process(query, history)`. An empty query returns the
      history and three empty views and touches nothing. Otherwise a new
      visualizer joins the bus for good; every visualizer already there
      takes in the run's events as well; and the views returned are those
      of the new visualizer alone, whatever `history` held. */
  method RunResearchProcess(bus: Bus<ResearchVisualizer>, query: string, history: seq<ChatPair>,
                            crew: Task -> Kickoff, clock: nat -> string, startTime: int, endTime: int)
    returns (d: Display)
    requires Wired(bus)
    modifies bus, bus.stepHandlers
    ensures Wired(bus)
    ensures query == "" ==>
      d == Display(history, "", "", "") && unchanged(bus) &&
      forall j :: 0 <= j < |bus.stepHandlers| ==> unchanged(bus.stepHandlers[j])
    ensures query != "" ==>
      var n, events := |old(bus.stepHandlers)|, RunEvents(query, crew);
      |bus.stepHandlers| == n + 1 && bus.stepHandlers[..n] == old(bus.stepHandlers) &&
      fresh(bus.stepHandlers[n]) &&
      bus.stepHandlers[n].State() == AbsorbAll(NoLogs, events, clock) &&
      bus.stepHandlers[n].startTime == Some(startTime) &&
      (forall j :: 0 <= j < n ==>
        bus.stepHandlers[j].State() == AbsorbAll(old(bus.stepHandlers[j].State()), events, clock) &&
        bus.stepHandlers[j].startTime == old(bus.stepHandlers[j].startTime)) &&
      d == Report(events, clock, endTime - startTime)
  {
    if query == "" {
      return Display(history, "", "", "");
    }
    d := RunQuery(bus, query, crew, clock, startTime, endTime);
  }
}
