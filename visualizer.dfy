/** `ResearchVisualizer` of src/visualizer.py: three logs that grow as the
    bus delivers steps, citations and messages, the text views rendered
    from them, and the delivery of one published event to every visualizer
    subscribed to the bus. */
module Visualizer {
  import opened Wrappers
  import opened EventSystem
  import Decimal

  datatype StepRecord = StepRecord(timestamp: string, thought: string, action: string, inputData: string, observation: string)

  datatype CitationRecord = CitationRecord(timestamp: string, title: string, url: string, content: string)

  /** One `(role, content)` entry of `chat_history`. */
  datatype ChatMessage = ChatMessage(role: string, content: string)

  /** One `[user, assistant]` row of the chat display; `None` is an empty side. */
  datatype ChatPair = ChatPair(user: Option<string>, assistant: Option<string>)

  /** The part of a visualizer that the handlers change. */
  datatype Logs = Logs(chat: seq<ChatMessage>, steps: seq<StepRecord>, citations: seq<CitationRecord>,
                       thought: string, action: string, observation: string)

  const NoLogs: Logs := Logs([], [], [], "", "", "")

  /** What the handler for `e`'s kind does to the logs, `timestamp` being
      the `%H:%M:%S` clock reading it takes. */
  function Absorb(l: Logs, e: Event, timestamp: string): Logs {
    match e
    case Step(t, a, i, o) =>
      l.(steps := l.steps + [StepRecord(timestamp, t, a, i, o)], thought := t, action := a, observation := o)
    case Citation(t, u, c) => l.(citations := l.citations + [CitationRecord(timestamp, t, u, c)])
    case Message(r, c) => l.(chat := l.chat + [ChatMessage(r, c)])
  }

  /** The logs after the events, in order, the k-th stamped `clock(k)`. */
  function AbsorbAll(l: Logs, events: seq<Event>, clock: nat -> string): Logs {
    if events == [] then l
    else Absorb(AbsorbAll(l, events[..|events| - 1], clock), events[|events| - 1], clock(|events| - 1))
  }

  lemma AbsorbAllSnoc(l: Logs, events: seq<Event>, e: Event, clock: nat -> string)
    ensures AbsorbAll(l, events + [e], clock) == Absorb(AbsorbAll(l, events, clock), e, clock(|events|))
  {
    assert (events + [e])[..|events|] == events;
  }

  /** Taking in events only appends to the logs, one record per event:
      nothing already logged is lost or changed. */
  lemma {:induction false} AbsorbAllGrows(l: Logs, events: seq<Event>, clock: nat -> string)
    ensures var r := AbsorbAll(l, events, clock);
      l.chat <= r.chat && l.steps <= r.steps && l.citations <= r.citations &&
      |r.chat| + |r.steps| + |r.citations| == |l.chat| + |l.steps| + |l.citations| + |events|
  {
    if events != [] {
      AbsorbAllGrows(l, events[..|events| - 1], clock);
    }
  }

  /** The message events among `events`, as chat entries, in order. */
  function MessagesOf(events: seq<Event>): seq<ChatMessage> {
    if events == [] then []
    else
      MessagesOf(events[..|events| - 1]) +
      match events[|events| - 1]
      case Message(r, c) => [ChatMessage(r, c)]
      case _ => []
  }

  /** Each log receives exactly the events of its own kind, in order, and
      nothing else: the chat log gains the messages and only them. */
  lemma {:induction false} AbsorbAllChat(l: Logs, events: seq<Event>, clock: nat -> string)
    ensures AbsorbAll(l, events, clock).chat == l.chat + MessagesOf(events)
  {
    if events != [] {
      AbsorbAllChat(l, events[..|events| - 1], clock);
    }
  }

  /** The number of step events among `events`. */
  function StepCount(events: seq<Event>): nat {
    if events == [] then 0 else StepCount(events[..|events| - 1]) + if events[|events| - 1].Step? then 1 else 0
  }

  function CitationCount(events: seq<Event>): nat {
    if events == [] then 0 else CitationCount(events[..|events| - 1]) + if events[|events| - 1].Citation? then 1 else 0
  }

  /** One record per step event and one per citation event. */
  lemma {:induction false} AbsorbAllCounts(l: Logs, events: seq<Event>, clock: nat -> string)
    ensures |AbsorbAll(l, events, clock).steps| == |l.steps| + StepCount(events)
    ensures |AbsorbAll(l, events, clock).citations| == |l.citations| + CitationCount(events)
  {
    if events != [] {
      AbsorbAllCounts(l, events[..|events| - 1], clock);
    }
  }

  // ---------------------------------------------------------------------
  // format_chat_history

  /** One turn of the loop of `format_chat_history`: a user message opens a
      pair; any other message fills the open assistant side of the last
      pair, or else opens a pair with no user side. */
  function Pair(pairs: seq<ChatPair>, m: ChatMessage): seq<ChatPair> {
    if m.role == "user" then pairs + [ChatPair(Some(m.content), None)]
    else if pairs != [] && pairs[|pairs| - 1].assistant == None then
      pairs[..|pairs| - 1] + [pairs[|pairs| - 1].(assistant := Some(m.content))]
    else pairs + [ChatPair(None, Some(m.content))]
  }

  /** `format_chat_history` over the whole log. No pair is empty on both
      sides, and a pair without a user side always has an assistant side. */
  function ChatPairs(msgs: seq<ChatMessage>): (pairs: seq<ChatPair>)
    ensures forall p :: p in pairs ==> p.assistant.Some? || p.user.Some?
    ensures forall p :: p in pairs && p.user.None? ==> p.assistant.Some?
  {
    if msgs == [] then [] else Pair(ChatPairs(msgs[..|msgs| - 1]), msgs[|msgs| - 1])
  }

  /** One message more is one more turn of the pairing loop. */
  lemma ChatPairsSnoc(msgs: seq<ChatMessage>, m: ChatMessage)
    ensures ChatPairs(msgs + [m]) == Pair(ChatPairs(msgs), m)
  {
    assert (msgs + [m])[..|msgs|] == msgs;
  }

  /** How the display shows a message: user messages on the left, every
      other role on the right. */
  function Shown(m: ChatMessage): ChatMessage {
    if m.role == "user" then m else ChatMessage("assistant", m.content)
  }

  function ShownAll(msgs: seq<ChatMessage>): (r: seq<ChatMessage>)
    ensures |r| == |msgs| && forall i :: 0 <= i < |msgs| ==> r[i] == Shown(msgs[i])
  {
    seq(|msgs|, i requires 0 <= i < |msgs| => Shown(msgs[i]))
  }

  /** Reading the pairs back, left side before right side. */
  function Unpair(pairs: seq<ChatPair>): seq<ChatMessage> {
    if pairs == [] then []
    else
      var p := pairs[|pairs| - 1];
      Unpair(pairs[..|pairs| - 1]) +
      (if p.user.Some? then [ChatMessage("user", p.user.value)] else []) +
      (if p.assistant.Some? then [ChatMessage("assistant", p.assistant.value)] else [])
  }

  /** The pairing loses, duplicates and reorders nothing: reading the pairs
      back gives every message, in order, with its display role. */
  lemma {:induction false} ChatPairsLoseNothing(msgs: seq<ChatMessage>)
    ensures Unpair(ChatPairs(msgs)) == ShownAll(msgs)
  {
    if msgs != [] {
      var init := msgs[..|msgs| - 1];
      var m := msgs[|msgs| - 1];
      var ps := ChatPairs(init);
      ChatPairsLoseNothing(init);
      assert ShownAll(msgs) == ShownAll(init) + [Shown(m)];
      if m.role != "user" && ps != [] && ps[|ps| - 1].assistant == None {
        var last := ps[|ps| - 1];
        assert last in ps;
        var ps' := ps[..|ps| - 1] + [last.(assistant := Some(m.content))];
        assert ps'[..|ps'| - 1] == ps[..|ps| - 1];
      } else {
        var ps' := Pair(ps, m);
        assert ps'[..|ps'| - 1] == ps;
      }
    }
  }

  /** The contents on the left, in order. */
  function UserSides(pairs: seq<ChatPair>): seq<string> {
    if pairs == [] then []
    else UserSides(pairs[..|pairs| - 1]) + match pairs[|pairs| - 1].user case Some(u) => [u] case None => []
  }

  function AssistantSides(pairs: seq<ChatPair>): seq<string> {
    if pairs == [] then []
    else AssistantSides(pairs[..|pairs| - 1]) + match pairs[|pairs| - 1].assistant case Some(a) => [a] case None => []
  }

  function UserContents(msgs: seq<ChatMessage>): seq<string> {
    if msgs == [] then []
    else UserContents(msgs[..|msgs| - 1]) + if msgs[|msgs| - 1].role == "user" then [msgs[|msgs| - 1].content] else []
  }

  function OtherContents(msgs: seq<ChatMessage>): seq<string> {
    if msgs == [] then []
    else OtherContents(msgs[..|msgs| - 1]) + if msgs[|msgs| - 1].role != "user" then [msgs[|msgs| - 1].content] else []
  }

  /** Read in order, the left sides are the user contents and the right
      sides the contents of all other messages. */
  lemma {:induction false} ChatPairSides(msgs: seq<ChatMessage>)
    ensures UserSides(ChatPairs(msgs)) == UserContents(msgs)
    ensures AssistantSides(ChatPairs(msgs)) == OtherContents(msgs)
  {
    if msgs != [] {
      var init := msgs[..|msgs| - 1];
      var m := msgs[|msgs| - 1];
      var ps := ChatPairs(init);
      ChatPairSides(init);
      if m.role != "user" && ps != [] && ps[|ps| - 1].assistant == None {
        var last := ps[|ps| - 1];
        var ps' := ps[..|ps| - 1] + [last.(assistant := Some(m.content))];
        assert ps'[..|ps'| - 1] == ps[..|ps| - 1];
        assert UserSides(ps) == UserSides(ps[..|ps| - 1]) + match last.user case Some(u) => [u] case None => [];
        assert AssistantSides(ps) == AssistantSides(ps[..|ps| - 1]);
      } else {
        var ps' := Pair(ps, m);
        assert ps'[..|ps'| - 1] == ps;
      }
    }
  }

  // ---------------------------------------------------------------------
  // format_research_steps and format_citations

  const NoStepsText: string := "No research steps yet."
  const StepsHeader: string := "\U{1F50D} Research Process:\n\n"
  const NoCitationsText: string := "No citations yet."
  const CitationsHeader: string := "\U{1F4DA} Citations:\n\n"

  /** The blocks of `xs`, one per element, in order. */
  function Concat<T>(xs: seq<T>, block: T -> string): string {
    if xs == [] then "" else Concat(xs[..|xs| - 1], block) + block(xs[|xs| - 1])
  }

  /** One more record adds its block at the end. */
  lemma ConcatTakeOneMore<T>(xs: seq<T>, i: nat, block: T -> string)
    requires i < |xs|
    ensures Concat(xs[..i + 1], block) == Concat(xs[..i], block) + block(xs[i])
  {
    assert xs[..i + 1][..i] == xs[..i];
  }

  // Proof scaffolding: associativity stated once so that the loop proofs
  // below stay small; it models no line of the source.
  lemma AppendAssoc(a: string, b: string, c: string)
    ensures a + b + c == a + (b + c)
  {
  }

  /** Rendering two runs of records gives the blocks of each, one after
      the other: the view grows by exactly the blocks of the new records. */
  lemma {:induction false} ConcatAppend<T>(a: seq<T>, b: seq<T>, block: T -> string)
    ensures Concat(a + b, block) == Concat(a, block) + Concat(b, block)
  {
    if b == [] {
      assert a + b == a;
    } else {
      var ab := a + b;
      ConcatAppend(a, b[..|b| - 1], block);
      assert ab[..|ab| - 1] == a + b[..|b| - 1];
      assert ab[|ab| - 1] == b[|b| - 1];
    }
  }

  /** The block of one step; the input line only for a non-empty input. */
  function StepBlock(s: StepRecord): string {
    var head := "[" + s.timestamp + "] \U{1F916} " + s.action + "\n" + "\U{1F4AD} Thought: " + s.thought + "\n";
    var withInput := if s.inputData != "" then head + "\U{1F4E5} Input: " + s.inputData + "\n" else head;
    withInput + "\U{1F4DD} Observation: " + s.observation + "\n\n"
  }

  /** `format_research_steps`: the placeholder exactly when there is no
      step, otherwise the header followed by one block per step. */
  function StepsText(steps: seq<StepRecord>): (r: string)
    ensures r == NoStepsText <==> steps == []
    ensures steps != [] ==> r == StepsHeader + Concat(steps, StepBlock)
  {
    if steps == [] then NoStepsText
    else
      var r := StepsHeader + Concat(steps, StepBlock);
      assert r[0] != NoStepsText[0];
      r
  }

  function CitationBlock(c: CitationRecord): string {
    "[" + c.timestamp + "] \U{1F4C4} " + c.title + "\n" + "\U{1F517} URL: " + c.url + "\n" +
    "\U{1F4DD} Content: " + c.content + "\n\n"
  }

  /** `format_citations`: the placeholder exactly when there is no
      citation, otherwise the header followed by one block per citation. */
  function CitationsText(citations: seq<CitationRecord>): (r: string)
    ensures r == NoCitationsText <==> citations == []
    ensures citations != [] ==> r == CitationsHeader + Concat(citations, CitationBlock)
  {
    if citations == [] then NoCitationsText
    else
      var r := CitationsHeader + Concat(citations, CitationBlock);
      assert r[0] != NoCitationsText[0];
      r
  }

  // ---------------------------------------------------------------------
  // get_research_summary

  const NotStartedText: string := "Research not started yet."

  /** `timedelta.seconds` of a duration of `micros` microseconds: whole
      seconds, wrapped to within one day (Python normalises a negative
      duration to negative days and a non-negative seconds part). */
  function ClockSeconds(micros: int): (s: nat)
    ensures s < 86400
  {
    (micros / 1000000) % 86400
  }

  /** The clock seconds are `timedelta.seconds`: the whole seconds of the
      duration (rounded down, also below zero) are a whole number of days
      plus the clock seconds, and a duration under a day shows all of its
      whole seconds. */
  lemma ClockSecondsOfDuration(micros: int)
    ensures var seconds := micros / 1000000;
      seconds == (seconds / 86400) * 86400 + ClockSeconds(micros) &&
      (0 <= micros < 86400 * 1000000 ==> ClockSeconds(micros) == seconds)
  {
  }

  /** `seconds // 60` and `seconds % 60`: minutes and a remainder under a
      minute that add back up to the seconds part. */
  function MinutesAndSeconds(micros: int): (r: (nat, nat))
    ensures r.1 < 60 && r.0 < 1440
    ensures r.0 * 60 + r.1 == ClockSeconds(micros)
  {
    (ClockSeconds(micros) / 60, ClockSeconds(micros) % 60)
  }

  const SummaryStepsLabel: string := "\n        \U{1F4CA} Research Summary:\n        - Total Steps: "
  const SummaryCitationsLabel: string := "\n        - Citations Collected: "

  function ElapsedLine(micros: int): (r: string)
    ensures r != [] && r[0] == '\n'
  {
    var (m, s) := MinutesAndSeconds(micros);
    "\n        - Time Elapsed: " + Decimal.NatToString(m) + "m " + Decimal.NatToString(s) + "s\n        "
  }

  function CitationsLine(citations: nat, micros: int): (r: string)
    ensures r != [] && r[0] == '\n'
  {
    SummaryCitationsLabel + (Decimal.NatToString(citations) + ElapsedLine(micros))
  }

  /** The text of `get_research_summary` once the run has started. */
  function SummaryText(steps: nat, citations: nat, micros: int): string {
    SummaryStepsLabel + (Decimal.NatToString(steps) + CitationsLine(citations, micros))
  }

  /** The length of the run of digits that `s` starts with. */
  function DigitRun(s: string): (n: nat)
    ensures n <= |s|
  {
    if s == [] || !Decimal.IsDigit(s[0]) then 0 else 1 + DigitRun(s[1..])
  }

  /** Digits followed by a non-digit: the run is exactly the digits. */
  lemma {:induction false} DigitRunOfDigits(x: string, y: string)
    requires forall i :: 0 <= i < |x| ==> Decimal.IsDigit(x[i])
    requires y != [] && !Decimal.IsDigit(y[0])
    ensures DigitRun(x + y) == |x|
  {
    if x == [] {
      assert x + y == y;
    } else {
      DigitRunOfDigits(x[1..], y);
      assert (x + y)[1..] == x[1..] + y;
    }
  }

  /** Two digit strings each followed by a non-digit: if the results agree,
      so do the digit strings. */
  lemma DigitsThenNonDigit(x: string, y: string, x': string, y': string)
    requires forall i :: 0 <= i < |x| ==> Decimal.IsDigit(x[i])
    requires forall i :: 0 <= i < |x'| ==> Decimal.IsDigit(x'[i])
    requires y != [] && !Decimal.IsDigit(y[0]) && y' != [] && !Decimal.IsDigit(y'[0])
    requires x + y == x' + y'
    ensures x == x' && y == y'
  {
    DigitRunOfDigits(x, y);
    DigitRunOfDigits(x', y');
    assert x == (x + y)[..|x|];
    assert x' == (x' + y')[..|x'|];
    assert y == (x + y)[|x|..];
    assert y' == (x' + y')[|x'|..];
  }

  /** The summary reports the step count and the citation count: summaries
      that read the same were made from the same counts. */
  lemma SummaryReportsCounts(steps: nat, citations: nat, micros: int, steps': nat, citations': nat, micros': int)
    requires SummaryText(steps, citations, micros) == SummaryText(steps', citations', micros')
    ensures steps == steps' && citations == citations'
  {
    var t := SummaryText(steps, citations, micros);
    var afterLabel := Decimal.NatToString(steps) + CitationsLine(citations, micros);
    var afterLabel' := Decimal.NatToString(steps') + CitationsLine(citations', micros');
    assert afterLabel == t[|SummaryStepsLabel|..] == afterLabel';
    DigitsThenNonDigit(Decimal.NatToString(steps), CitationsLine(citations, micros),
                       Decimal.NatToString(steps'), CitationsLine(citations', micros'));
    Decimal.NatToStringInjective(steps, steps');
    var c := CitationsLine(citations, micros);
    var afterCitationsLabel := Decimal.NatToString(citations) + ElapsedLine(micros);
    var afterCitationsLabel' := Decimal.NatToString(citations') + ElapsedLine(micros');
    assert afterCitationsLabel == c[|SummaryCitationsLabel|..] == afterCitationsLabel';
    DigitsThenNonDigit(Decimal.NatToString(citations), ElapsedLine(micros),
                       Decimal.NatToString(citations'), ElapsedLine(micros'));
    Decimal.NatToStringInjective(citations, citations');
  }

  // ---------------------------------------------------------------------
  // The visualizer object

  class ResearchVisualizer {
    var chatHistory: seq<ChatMessage>
    var researchSteps: seq<StepRecord>
    var citations: seq<CitationRecord>
    /** Microseconds on the wall clock when the run started; `None` until set. */
    var startTime: Option<int>
    var currentThought: string
    var currentAction: string
    var currentObservation: string

    function State(): Logs
      reads this
    {
      Logs(chatHistory, researchSteps, citations, currentThought, currentAction, currentObservation)
    }

    /** `__init__`: empty logs, then its three update methods are appended
        to the bus's three handler lists. */
    constructor (bus: Bus<ResearchVisualizer>)
      modifies bus
      ensures State() == NoLogs && startTime == None
      ensures bus.stepHandlers == old(bus.stepHandlers) + [this]
      ensures bus.citationHandlers == old(bus.citationHandlers) + [this]
      ensures bus.messageHandlers == old(bus.messageHandlers) + [this]
    {
      chatHistory, researchSteps, citations := [], [], [];
      startTime := None;
      currentThought, currentAction, currentObservation := "", "", "";
      new;
      bus.SubscribeToStep(this);
      bus.SubscribeToCitation(this);
      bus.SubscribeToMessage(this);
    }

    /** `update_step`: one record more in the step log, the other logs as
        they were, and the current thought, action and observation are the
        latest ones. */
    method UpdateStep(thought: string, action: string, inputData: string, observation: string, timestamp: string)
      modifies this
      ensures researchSteps == old(researchSteps) + [StepRecord(timestamp, thought, action, inputData, observation)]
      ensures citations == old(citations) && chatHistory == old(chatHistory) && startTime == old(startTime)
      ensures currentThought == thought && currentAction == action && currentObservation == observation
    {
      currentThought := thought;
      currentAction := action;
      currentObservation := observation;
      researchSteps := researchSteps + [StepRecord(timestamp, thought, action, inputData, observation)];
    }

    /** `update_citation`: one record more in the citation log only. */
    method UpdateCitation(title: string, url: string, content: string, timestamp: string)
      modifies this
      ensures citations == old(citations) + [CitationRecord(timestamp, title, url, content)]
      ensures researchSteps == old(researchSteps) && chatHistory == old(chatHistory) && startTime == old(startTime)
      ensures currentThought == old(currentThought) && currentAction == old(currentAction)
      ensures currentObservation == old(currentObservation)
    {
      citations := citations + [CitationRecord(timestamp, title, url, content)];
    }

    /** `update_message`: one entry more in the chat log only. */
    method UpdateMessage(role: string, content: string)
      modifies this
      ensures chatHistory == old(chatHistory) + [ChatMessage(role, content)]
      ensures researchSteps == old(researchSteps) && citations == old(citations) && startTime == old(startTime)
      ensures currentThought == old(currentThought) && currentAction == old(currentAction)
      ensures currentObservation == old(currentObservation)
    {
      chatHistory := chatHistory + [ChatMessage(role, content)];
    }

    /** The bound method the bus holds in the handler list of `e`'s kind,
        called with the event's fields. */
    method Handle(e: Event, timestamp: string)
      modifies this
      ensures State() == Absorb(old(State()), e, timestamp) && startTime == old(startTime)
    {
      match e {
        case Step(t, a, i, o) => UpdateStep(t, a, i, o, timestamp);
        case Citation(t, u, c) => UpdateCitation(t, u, c, timestamp);
        case Message(r, c) => UpdateMessage(r, c);
      }
    }

    /** `format_chat_history`, with its in-place update of the last pair. */
    method FormatChatHistory() returns (pairs: seq<ChatPair>)
      ensures pairs == ChatPairs(chatHistory)
    {
      pairs := [];
      var i := 0;
      while i < |chatHistory|
        invariant 0 <= i <= |chatHistory|
        invariant pairs == ChatPairs(chatHistory[..i])
      {
        var m := chatHistory[i];
        assert chatHistory[..i + 1][..i] == chatHistory[..i];
        if m.role == "user" {
          pairs := pairs + [ChatPair(Some(m.content), None)];
        } else if |pairs| > 0 && pairs[|pairs| - 1].assistant == None {
          ghost var before := pairs;
          pairs := pairs[|pairs| - 1 := pairs[|pairs| - 1].(assistant := Some(m.content))];
          assert pairs == before[..|before| - 1] + [before[|before| - 1].(assistant := Some(m.content))];
        } else {
          pairs := pairs + [ChatPair(None, Some(m.content))];
        }
        i := i + 1;
      }
      assert chatHistory[..i] == chatHistory;
    }

    /** `format_research_steps`. */
    method FormatResearchSteps() returns (text: string)
      ensures text == StepsText(researchSteps)
    {
      if |researchSteps| == 0 {
        return NoStepsText;
      }
      text := StepsHeader;
      var i := 0;
      while i < |researchSteps|
        invariant 0 <= i <= |researchSteps|
        invariant text == StepsHeader + Concat(researchSteps[..i], StepBlock)
      {
        var step := researchSteps[i];
        var block := "[" + step.timestamp + "] \U{1F916} " + step.action + "\n";
        block := block + "\U{1F4AD} Thought: " + step.thought + "\n";
        if step.inputData != "" {
          block := block + "\U{1F4E5} Input: " + step.inputData + "\n";
        }
        block := block + "\U{1F4DD} Observation: " + step.observation + "\n\n";
        assert block == StepBlock(step);
        ConcatTakeOneMore(researchSteps, i, StepBlock);
        AppendAssoc(StepsHeader, Concat(researchSteps[..i], StepBlock), block);
        text := text + block;
        i := i + 1;
      }
      assert researchSteps[..i] == researchSteps;
    }

    /** `format_citations`. */
    method FormatCitations() returns (text: string)
      ensures text == CitationsText(citations)
    {
      if |citations| == 0 {
        return NoCitationsText;
      }
      text := CitationsHeader;
      var i := 0;
      while i < |citations|
        invariant 0 <= i <= |citations|
        invariant text == CitationsHeader + Concat(citations[..i], CitationBlock)
      {
        var citation := citations[i];
        var block := "[" + citation.timestamp + "] \U{1F4C4} " + citation.title + "\n";
        block := block + "\U{1F517} URL: " + citation.url + "\n";
        block := block + "\U{1F4DD} Content: " + citation.content + "\n\n";
        assert block == CitationBlock(citation);
        ConcatTakeOneMore(citations, i, CitationBlock);
        AppendAssoc(CitationsHeader, Concat(citations[..i], CitationBlock), block);
        text := text + block;
        i := i + 1;
      }
      assert citations[..i] == citations;
    }

    /** `get_research_summary`, read at wall-clock time `now` (microseconds):
        the placeholder before the run has started, otherwise the step and
        citation counts and the elapsed minutes and seconds. */
    method GetResearchSummary(now: int) returns (text: string)
      ensures startTime == None ==> text == NotStartedText
      ensures startTime.Some? ==> text == SummaryText(|researchSteps|, |citations|, now - startTime.value)
    {
      if startTime == None {
        return NotStartedText;
      }
      text := SummaryText(|researchSteps|, |citations|, now - startTime.value);
    }
  }

  // ---------------------------------------------------------------------
  // Delivery to the subscribed visualizers

  /** The bus as the program wires it: only visualizers subscribe, each
      once and to all three kinds, so the three lists are one list of
      distinct visualizers. */
  ghost predicate Wired(bus: Bus<ResearchVisualizer>)
    reads bus
  {
    bus.citationHandlers == bus.stepHandlers && bus.messageHandlers == bus.stepHandlers &&
    forall i, j :: 0 <= i < j < |bus.stepHandlers| ==> bus.stepHandlers[i] != bus.stepHandlers[j]
  }

  /** The logs of each visualizer of `hs`, in order. */
  ghost function States(hs: seq<ResearchVisualizer>): (r: seq<Logs>)
    reads set v | v in hs
    ensures |r| == |hs|
  {
    if hs == [] then [] else States(hs[..|hs| - 1]) + [hs[|hs| - 1].State()]
  }

  lemma {:induction false} StatesIndex(hs: seq<ResearchVisualizer>)
    ensures forall j :: 0 <= j < |hs| ==> States(hs)[j] == hs[j].State()
  {
    if hs != [] {
      StatesIndex(hs[..|hs| - 1]);
    }
  }

  /** The visualizers' update methods never raise. */
  function Quiet(v: ResearchVisualizer, e: Event): Reaction {
    Returned
  }

  /** `event_system.notify_*` for `e` on the wired bus: every subscribed
      visualizer takes the event into its logs once, and nothing else in
      the visualizers changes. The bus yields the calls in subscription
      order, and each call is then carried out. */
  method Publish(bus: Bus<ResearchVisualizer>, e: Event, timestamp: string)
    requires Wired(bus)
    modifies bus.stepHandlers
    ensures forall j :: 0 <= j < |bus.stepHandlers| ==>
      bus.stepHandlers[j].State() == Absorb(old(bus.stepHandlers[j].State()), e, timestamp) &&
      bus.stepHandlers[j].startTime == old(bus.stepHandlers[j].startTime)
  {
    var hs := bus.stepHandlers;
    var delivered: Notified<ResearchVisualizer>;
    match e {
      case Step(t, a, i, o) => delivered := bus.NotifyStep(t, a, i, o, Quiet);
      case Citation(t, u, c) => delivered := bus.NotifyCitation(t, u, c, Quiet);
      case Message(r, c) => delivered := bus.NotifyMessage(r, c, Quiet);
    }
    FanOutAllReturn(hs, e, Quiet);
    Perform(hs, delivered.invoked, e, timestamp);
  }

  /** Carrying out the calls of a notify, one visualizer after another. */
  method Perform(hs: seq<ResearchVisualizer>, calls: seq<Invocation<ResearchVisualizer>>, e: Event, timestamp: string)
    requires calls == Invocations(hs, e)
    requires forall i, j :: 0 <= i < j < |hs| ==> hs[i] != hs[j]
    modifies set v | v in hs
    ensures forall j :: 0 <= j < |hs| ==>
      hs[j].State() == Absorb(old(hs[j].State()), e, timestamp) && hs[j].startTime == old(hs[j].startTime)
  {
    var k := 0;
    while k < |calls|
      invariant 0 <= k <= |calls| == |hs|
      invariant forall j :: 0 <= j < k ==> hs[j].State() == Absorb(old(hs[j].State()), e, timestamp)
      invariant forall j :: k <= j < |hs| ==> hs[j].State() == old(hs[j].State())
      invariant forall j :: 0 <= j < |hs| ==> hs[j].startTime == old(hs[j].startTime)
    {
      calls[k].handler.Handle(calls[k].event, timestamp);
      k := k + 1;
    }
  }
}
