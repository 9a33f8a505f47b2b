# Deep Research Assistant, modelled in Dafny

This project models the core of a small research assistant. A user types a
query in a chat interface. Three one-agent crews then run in turn: web
research, content analysis and fact checking. While they run, an event bus
carries three kinds of events to whatever is subscribed:

- steps: thought, action, input and observation;
- citations: title, URL and content;
- chat messages: role and content.

A `ResearchVisualizer` subscribes to all three kinds. It keeps logs of what it
receives and renders four views from them: the chat as rows of
user/assistant pairs, the research steps, the citations, and a summary with
counts and elapsed time. A browser tool finds a URL in its task
description, loads the page, cleans the page text, and publishes a citation
and steps about it. All three agents carry this tool (src/agents.py:28, :40
and :58), so tool steps and citations can arrive during the analysis and
fact-check stages as well as during research.

Modules (one per source file, plus two helpers):

- `EventSystem` (`src/event_system.py`):
  - the bus as a class whose three handler lists the subscribe methods extend;
  - the singleton that creates it on first use;
  - the notify loop, which calls each handler in list order and stops at the
    first one that raises (`FanOut`, implemented by the loop `CallEach`).
- `Visualizer` (`src/visualizer.py`, class `ResearchVisualizer`):
  - the class itself, its update handlers and its four formatters (loops, as
    in the source), each proved against a pure specification function;
  - `Publish`, which delivers one event to every subscribed visualizer.
- `Pipeline` (`run_research_process` of `src/visualizer.py`):
  - the events a run publishes, as the function `RunEvents`;
  - the method that performs the run on a shared bus;
  - what the run returns and what it does to visualizers already subscribed.
- `Tasks` (`src/tasks.py`): the three task factories and the step each one
  announces.
- `BrowserText` (the pure parts of `src/tools/browser_tool.py`):
  - the URL regular expression, as a leftmost-match search;
  - the whitespace clean-up of page text;
  - the 500-character preview.
- `BrowserTool` (`BrowserTool._run`): the events published and the string
  returned, for every outcome of the browser.
- `Decimal`: `str()` of a natural number, as the f-strings use it.
- `Wrappers`: `Option` and `Result`.

The following are parameters of the model rather than parts of it:

- The language-model crews: `crew: Task -> Kickoff` gives, for a task, the
  events its tools published and either its output or the message of the
  exception it raised.
- The browser session: whether the launch fails, and for each URL whether
  the load fails or gives the page text and the result of `page.title()`.
- Clocks: `clock(k)` is the `%H:%M:%S` stamp the handlers take for the k-th
  event of a run; the start and end of a run are given in microseconds.

## Model

| member | source | states |
|---|---|---|
| `EventSystem.Bus.constructor` | src/event_system.py:13-17 | a new bus has three empty handler lists |
| `EventSystem.Singleton.Get` | src/event_system.py:7-11 | the first call creates and initializes the one bus, later calls return that same bus unchanged |
| `EventSystem.Bus.SubscribeToStep` | src/event_system.py:19-21 | appends the handler to the step list only (duplicates allowed); the registry value is `Subscribe(StepKind, h)` |
| `EventSystem.Bus.SubscribeToCitation` | src/event_system.py:23-25 | appends the handler to the citation list only |
| `EventSystem.Bus.SubscribeToMessage` | src/event_system.py:27-29 | appends the handler to the message list only |
| `EventSystem.Registry.Subscribe` | src/event_system.py:19-29 | subscribing to one kind extends that kind's list by the handler and leaves the other two kinds unchanged |
| `EventSystem.HandlersOnlyGrow` | src/event_system.py:19-44 | over any sequence of subscribe and notify calls, each handler list only grows: the old list is a prefix of the new one |
| `EventSystem.FanOut` | src/event_system.py:31-44 | the handlers called are a prefix of the list, in order, each called once with the event; every call but the last returned; the loop ends early exactly when a handler raises, and that handler is the last one called |
| `EventSystem.CallEach` | src/event_system.py:33-34 | the `for` loop over a handler list computes `FanOut` |
| `EventSystem.FanOutAllReturn` | src/event_system.py:33-34 | when no handler raises, every handler is called exactly once, in list order, and nothing propagates |
| `EventSystem.FanOutStopsAtRaise` | src/event_system.py:33-34 | when the first handler to raise is at index k, exactly handlers 0..k are called and handler k's exception propagates |
| `EventSystem.NoDeduplication` | src/event_system.py:21 | a handler subscribed n times is called n times per event |
| `EventSystem.NotifyWithoutSubscribers` | src/event_system.py:31-44 | a notify with no subscribers calls nothing and raises nothing |
| `EventSystem.Bus.NotifyStep` | src/event_system.py:31-34 | delivers a step event to the step list, as `FanOut` |
| `EventSystem.Bus.NotifyCitation` | src/event_system.py:36-39 | delivers a citation event to the citation list, as `FanOut` |
| `EventSystem.Bus.NotifyMessage` | src/event_system.py:41-44 | delivers a message event to the message list, as `FanOut` |
| `EventSystem.Invocations` | src/event_system.py:33-34 | one call per handler, in list order, each with the same event |
| `Visualizer.ResearchVisualizer.constructor` | src/visualizer.py:11-23 | a new visualizer has empty logs and no start time, and is appended once to each of the three handler lists |
| `Visualizer.ResearchVisualizer.UpdateStep` | src/visualizer.py:25-37 | appends one timestamped step record, sets the current thought, action and observation, and changes nothing else |
| `Visualizer.ResearchVisualizer.UpdateCitation` | src/visualizer.py:40-48 | appends one timestamped citation record and changes nothing else |
| `Visualizer.ResearchVisualizer.UpdateMessage` | src/visualizer.py:51-53 | appends one `(role, content)` entry to the chat history and changes nothing else |
| `Visualizer.ResearchVisualizer.Handle` | src/visualizer.py:25-54 | the handler for an event's kind changes the logs as `Absorb` says and leaves the start time alone |
| `Visualizer.Absorb` | src/visualizer.py:25-54 | specification function with no contract of its own: what the handler for one event's kind does to the logs; `ResearchVisualizer.Handle` is proved against it, and `AbsorbAllGrows`, `AbsorbAllChat` and `AbsorbAllCounts` state what a run of it does |
| `Visualizer.AbsorbAll` | src/visualizer.py:25-54 | specification function with no contract of its own: the handlers applied to a run of events in order, the k-th stamped `clock(k)`; see the three lemmas below and `AbsorbAllSnoc` |
| `Visualizer.AbsorbAllGrows` | src/visualizer.py:25-54 | taking in events only appends: the old chat, step and citation logs are prefixes of the new ones, and each event adds exactly one record |
| `Visualizer.AbsorbAllSnoc` | src/visualizer.py:25-54 | taking in one more event is one more handler call, stamped with the next clock reading |
| `Visualizer.AbsorbAllChat` | src/visualizer.py:51-53 | the chat log gains exactly the message events, in order, and nothing else |
| `Visualizer.AbsorbAllCounts` | src/visualizer.py:37 | there is one step record per step event and one citation record per citation event |
| `Visualizer.Pair` | src/visualizer.py:59-66 | specification function with no contract of its own: one turn of the pairing loop; `ChatPairsSnoc`, `ChatPairsLoseNothing`, `ChatPairSides`, `QuestionAnswered` and `ReplyOpensRow` state what it does |
| `Visualizer.ChatPairs` | src/visualizer.py:56-67 | no row is empty on both sides, and a row without a user side has an assistant side |
| `Visualizer.ChatPairsSnoc` | src/visualizer.py:59-66 | one message more is one more turn of the pairing loop |
| `Visualizer.ChatPairsLoseNothing` | src/visualizer.py:56-67 | reading the rows back, left side before right, gives every message in order, with every non-user role shown as assistant: pairing loses and reorders nothing |
| `Visualizer.ChatPairSides` | src/visualizer.py:56-67 | the left column holds exactly the user messages, and the right column exactly the other messages, in order |
| `Visualizer.ResearchVisualizer.FormatChatHistory` | src/visualizer.py:56-67 | the loop computes `ChatPairs` of the chat history |
| `Visualizer.StepBlock` | src/visualizer.py:76-80 | specification function with no contract of its own: the f-string block of one step, with the input line only for a non-empty input; `StepsText` places one block per step |
| `Visualizer.StepsText` | src/visualizer.py:69-81 | the "no steps" text exactly when there are no steps; otherwise the header followed by one block per step, in order |
| `Visualizer.ConcatAppend` | src/visualizer.py:75-80 | the text of two runs of records is the text of the first followed by the text of the second |
| `Visualizer.ResearchVisualizer.FormatResearchSteps` | src/visualizer.py:69-81 | the loop computes `StepsText` of the step log |
| `Visualizer.CitationBlock` | src/visualizer.py:90-92 | specification function with no contract of its own: the f-string block of one citation; `CitationsText` places one block per citation |
| `Visualizer.CitationsText` | src/visualizer.py:83-93 | the "no citations" text exactly when there are no citations; otherwise the header followed by one block per citation, in order |
| `Visualizer.ResearchVisualizer.FormatCitations` | src/visualizer.py:83-93 | the loop computes `CitationsText` of the citation log |
| `Visualizer.ClockSeconds` | src/visualizer.py:100-105 | `duration.seconds` is below 86400, also for a negative duration; `ClockSecondsOfDuration` states which value it is |
| `Visualizer.ClockSecondsOfDuration` | src/visualizer.py:100-105 | the clock seconds are `timedelta.seconds`: the whole seconds of the duration, rounded down, are a whole number of days plus the clock seconds, and a duration under a day shows all its whole seconds |
| `Visualizer.MinutesAndSeconds` | src/visualizer.py:105 | seconds below 60, minutes below 1440, and together they make up `timedelta.seconds` |
| `Visualizer.DigitsThenNonDigit` | src/visualizer.py:101-106 | a run of digits followed by a non-digit splits only one way |
| `Visualizer.DigitRunOfDigits` | src/visualizer.py:103-104 | the digit run at the head of a number followed by a non-digit is the number |
| `Visualizer.SummaryText` | src/visualizer.py:101-106 | specification function with no contract of its own: the f-string of `get_research_summary`; `SummaryReportsCounts` states that the counts can be read back from it |
| `Visualizer.SummaryReportsCounts` | src/visualizer.py:95-106 | two equal summaries report the same step count and the same citation count: the counts can be read back from the text |
| `Visualizer.ResearchVisualizer.GetResearchSummary` | src/visualizer.py:95-106 | the "not started" text when there is no start time; otherwise the summary of the step count, the citation count and the elapsed time |
| `Visualizer.StatesIndex` | src/visualizer.py:21-23 | proof helper, models no line by itself: the i-th entry of the logs of a handler list is the logs of the i-th handler |
| `Visualizer.Publish` | src/event_system.py:31-44 | a notify reaches every subscribed visualizer, each of which takes in the event exactly once; start times are unchanged |
| `Visualizer.Perform` | src/event_system.py:33-34 | performing the calls for distinct visualizers changes each one as its handler says |
| `Decimal.DigitChar` | src/visualizer.py:103 | a digit below 10 becomes the character with that value |
| `Decimal.NatToString` | src/visualizer.py:103-105 | `str(n)`: non-empty and all digits; "0" exactly for zero; no leading zero |
| `Decimal.ParseNatToString` | src/visualizer.py:103-105 | reading `str(n)` back gives n |
| `Decimal.NatToStringInjective` | src/tools/browser_tool.py:80 | distinct numbers print differently |
| `Tasks.ResearchTask` | src/tasks.py:7-30 | announces a "Task Creation" step whose input is the query; the description is the fixed prefix followed by the query; assigned to the web research specialist, with no context |
| `Tasks.AnalysisTask` | src/tasks.py:32-55 | announces its fixed "Task Creation" step; assigned to the content analyzer, with no context |
| `Tasks.FactCheckTask` | src/tasks.py:57-80 | announces its fixed "Task Creation" step; assigned to the fact checker, with no context |
| `Tasks.ResearchTaskKeepsQuery` | src/tasks.py:17 | two queries give the same research task only if they are equal: the query reaches the agent intact |
| `Tasks.DownstreamTasksIgnoreInput` | src/tasks.py:32-80 | the analysis and fact-check tasks do not depend on the results they are given |
| `Tasks.TasksGoToDistinctAgents` | src/tasks.py:28-78 | the three tasks go to three different agents |
| `BrowserText.PrefixAt` | src/tools/browser_tool.py:37 | the length of the URL prefix at a position is 0, 4, 7 or 8, and a prefix found is made of URL characters |
| `BrowserText.RunEnd` | src/tools/browser_tool.py:37 | the end of the greedy `[^\s<>"]+` run: every character up to it is a URL character, and the one at it is not |
| `BrowserText.RunEndIsMaximal` | src/tools/browser_tool.py:37 | the greedy run ends at the first non-URL character and nowhere else |
| `BrowserText.MatchAtIsUrlMatch` | src/tools/browser_tool.py:37 | the match found at a position is exactly the regex match starting there: one of the three prefixes, then the longest non-empty run of URL characters |
| `BrowserText.MatchAt` | src/tools/browser_tool.py:37 | a match starting at a position ends past its prefix, within the text, and covers only URL characters |
| `BrowserText.MatchedUrl` | src/tools/browser_tool.py:37-39 | the text of a match is longer than four characters, made of URL characters, and starts with "www.", "http://" or "https://" |
| `BrowserText.SearchFrom` | src/tools/browser_tool.py:37 | the first position at or after i where a match starts, and no match before it |
| `BrowserText.FindUrl` | src/tools/browser_tool.py:37-39 | a URL found is longer than its prefix, made of URL characters, and starts with "www.", "http://" or "https://" |
| `BrowserText.FindUrlIsLeftmostMatch` | src/tools/browser_tool.py:37-39 | nothing is found exactly when the text has no match; otherwise the result is the match that starts leftmost |
| `BrowserText.StripLeft` | src/tools/browser_tool.py:62-63 | a suffix of the text that does not start with whitespace; unchanged exactly when the text does not start with whitespace |
| `BrowserText.StripLeftCutsSpace` | src/tools/browser_tool.py:62-63 | every character `lstrip` cuts off is whitespace |
| `BrowserText.StripRight` | src/tools/browser_tool.py:62-63 | a prefix of the text that does not end with whitespace; unchanged exactly when the text does not end with whitespace |
| `BrowserText.StripRightCutsSpace` | src/tools/browser_tool.py:62-63 | every character `rstrip` cuts off is whitespace |
| `BrowserText.Strip` | src/tools/browser_tool.py:62-63 | a slice of the text, starting where `lstrip` starts, with no whitespace at either end |
| `BrowserText.StripCutsOnlySpace` | src/tools/browser_tool.py:62-63 | everything `strip` cuts off, before and after the slice it keeps, is whitespace |
| `BrowserText.StripKeepsText` | src/tools/browser_tool.py:62-63 | stripping keeps every non-whitespace character, in order |
| `BrowserText.StripKeepsClean` | src/tools/browser_tool.py:62-63 | stripping a text without line breaks or double spaces leaves none |
| `BrowserText.TrimmedStrips` | src/tools/browser_tool.py:62-63 | stripping a trimmed text changes nothing |
| `BrowserText.LineEnd` | src/tools/browser_tool.py:62 | the first line boundary of `splitlines`, or the end of the text |
| `BrowserText.SplitLines` | src/tools/browser_tool.py:62 | no line holds a line boundary; `SplitLinesAtBreak` and `SplitLinesAtCrLf` state where the lines end |
| `BrowserText.SplitLinesKeepText` | src/tools/browser_tool.py:62 | the lines run together are the text with its line boundaries taken out: `splitlines` drops the boundaries and nothing else |
| `BrowserText.SplitLinesAtBreak` | src/tools/browser_tool.py:62 | every boundary ends a line: a break-free text followed by a boundary (other than a `"\r"` followed by `"\n"`) is the first line, and the rest is split after the boundary |
| `BrowserText.SplitLinesAtCrLf` | src/tools/browser_tool.py:62 | `"\r\n"` ends one line, not two: the rest is split after both characters |
| `BrowserText.BreaksAreSpaces` | src/tools/browser_tool.py:62 | every line boundary is whitespace, so dropping the boundaries keeps the same non-whitespace characters |
| `BrowserText.CleanLineIsOneLine` | src/tools/browser_tool.py:62 | a non-empty text without line boundaries is one line |
| `BrowserText.DoubleSpaceAt` | src/tools/browser_tool.py:63 | the first double space, or the end of the text |
| `BrowserText.SplitDoubleSpace` | src/tools/browser_tool.py:63 | `split("  ")` gives at least one piece, the pieces joined again with "  " are the text, and no piece holds a double space, nor a line break the text did not hold |
| `BrowserText.SplitDoubleSpaceKeepsText` | src/tools/browser_tool.py:63 | the pieces run together keep every non-whitespace character of the text, in order |
| `BrowserText.LineChunks` | src/tools/browser_tool.py:63-64 | the stripped pieces of a stripped line; for a line without line breaks each one is trimmed and holds no line break or double space (a piece may be empty: the empty ones are dropped by `JoinNonEmpty`) |
| `BrowserText.StripEachKeepsText` | src/tools/browser_tool.py:63 | stripping every piece keeps every non-whitespace character of the pieces, in order |
| `BrowserText.LineChunksKeepText` | src/tools/browser_tool.py:62-63 | the chunks of a line run together keep every non-whitespace character of the line, in order |
| `BrowserText.CleanLineIsOneChunk` | src/tools/browser_tool.py:63-64 | a clean line is its own one chunk |
| `BrowserText.Chunks` | src/tools/browser_tool.py:62-64 | the chunks of all lines in order; when no line holds a line break every chunk is trimmed and holds no double space (empty chunks included) |
| `BrowserText.ChunksKeepText` | src/tools/browser_tool.py:62-63 | the chunks of all lines run together keep every non-whitespace character of the lines, in order |
| `BrowserText.JoinNonEmpty` | src/tools/browser_tool.py:64 | `" ".join(chunk for chunk in chunks if chunk)`: the non-empty chunks joined by single spaces; joining clean chunks gives a clean text |
| `BrowserText.FlattenNonEmpty` | src/tools/browser_tool.py:64 | dropping the empty chunks loses no character |
| `BrowserText.JoinWithKeepsText` | src/tools/browser_tool.py:63-64 | joining pieces with a separator made of whitespace keeps every non-whitespace character of the pieces, in order |
| `BrowserText.JoinNonEmptyKeepsText` | src/tools/browser_tool.py:64 | the joined text keeps every non-whitespace character of the chunks, in order |
| `BrowserText.JoinTwoClean` | src/tools/browser_tool.py:64 | two clean chunks joined by one space make a clean text |
| `BrowserText.CleanText` | src/tools/browser_tool.py:61-64 | the cleaned text holds exactly the non-whitespace characters of the page text, in the same order: the clean-up only drops or merges whitespace |
| `BrowserText.CleanTextSplitsAtBreak` | src/tools/browser_tool.py:62-64 | when a break-free line and the text after its boundary both hold a non-whitespace character, the boundary becomes exactly one space: cleaning the whole is cleaning each side, joined by " " |
| `BrowserText.CleanTextOfLine` | src/tools/browser_tool.py:62-64 | a text without line breaks is cleaned as a single line: its chunks, empty ones dropped, joined by single spaces |
| `BrowserText.CleanTextIsClean` | src/tools/browser_tool.py:61-64 | the cleaned text is clean: no line breaks, no double spaces, no whitespace at either end |
| `BrowserText.CleanTextFixesClean` | src/tools/browser_tool.py:61-64 | cleaning a clean text changes nothing |
| `BrowserText.CleanTextIdempotent` | src/tools/browser_tool.py:61-64 | cleaning twice is cleaning once |
| `BrowserText.Preview` | src/tools/browser_tool.py:73 | the first 500 characters (or all, if fewer), followed by "..." |
| `BrowserTool.CitationPathError` | src/tools/browser_tool.py:49-74 | the message of the exception that ends the path with a URL as written: the load error when the page fails to load, the title error when `page.title()` fails, and otherwise the keyword error of the `source=` call |
| `BrowserTool.Run` | src/tools/browser_tool.py:20-102 | `_run` as written: always the start step first; on a failed launch a failure step and the error string; with no URL the "URL Extraction" step and the no-URL string; with a URL the navigation step, then a failure step, and the error string (see Findings); only steps are published |
| `BrowserTool.RunAsIntended` | src/tools/browser_tool.py:20-102 | `_run` with the citation call fixed: the same launch and no-URL paths; with a URL the start and navigation steps, then what `VisitAsIntended` publishes and returns |
| `BrowserTool.VisitAsIntended` | src/tools/browser_tool.py:41-83 | a loaded page with a title yields a citation (title, URL, preview of the clean text), then the "Content Extraction" step with the character count, and the clean text as result; a failed load or title read yields a failure step and the error string |
| `BrowserTool.CitationLostOnLoadedPage` | src/tools/browser_tool.py:70-74 | for every description with a URL and every loaded page with a title, the code as written publishes no citation and returns the keyword error, while the intended code publishes the citation and returns the clean text |
| `BrowserTool.ExampleComUrl` | src/tools/browser_tool.py:37-39 | a URL exists in a concrete description, so the discrepancy above is reachable |
| `Pipeline.RunMessagesSplit` | src/visualizer.py:118-171 | a run's messages are the query, the start message, the messages of the `try` block, and the error message when an exception left the block |
| `Pipeline.FactCheckAttempt` | src/visualizer.py:145-167 | specification function with no contract of its own: the fact-check stage as events published and exception raised; `FactCheckAttemptShape` and `FactCheckMessages` state what it holds |
| `Pipeline.FactCheckAttemptShape` | src/visualizer.py:145-167 | the stage opens with its task's step followed by the crew's events; it raises what `kickoff()` raised, and otherwise raises nothing and ends with the summary of all three outputs |
| `Pipeline.AnalysisAttempt` | src/visualizer.py:134-167 | specification function with no contract of its own: the analysis stage and, on success, the fact-check stage; `AnalysisAttemptShape` and `AnalysisMessages` state what it holds |
| `Pipeline.AnalysisAttemptShape` | src/visualizer.py:134-167 | the stage opens with its task's step followed by the crew's events; when `kickoff()` raises, that is all it publishes and it raises the same error, and otherwise the analysis message comes next |
| `Pipeline.ResearchAttempt` | src/visualizer.py:121-167 | specification function with no contract of its own: the whole `try` block; `ResearchAttemptShape` and `ResearchMessages` state what it holds |
| `Pipeline.ResearchAttemptShape` | src/visualizer.py:121-131 | the stage opens with its task's step followed by the crew's events; when `kickoff()` raises, that is all it publishes and it raises the same error, and otherwise the findings message comes next |
| `Pipeline.Opening` | src/visualizer.py:118-119 | the run opens with two chat messages: the user's query and the assistant's start message |
| `Pipeline.Closing` | src/visualizer.py:169-172 | the `except` clause adds one assistant message with the error text exactly when an exception left the `try` block, and no message otherwise |
| `Pipeline.RunEvents` | src/visualizer.py:118-172 | specification function with no contract of its own: the opening, the `try` block and the `except` clause in order; `RunOpensAndCloses` and `RunMessagesSplit` state what it holds |
| `Pipeline.RunOpensAndCloses` | src/visualizer.py:118-172 | a run publishes at least three events, opening with the query, the start message and the research task's step, and ends with the error message when an exception left the `try` block |
| `Pipeline.ViewsOf` | src/visualizer.py:175-180 | specification function with no contract of its own: the four views (`format_chat_history`, `format_steps`, `format_citations`, `get_research_summary`) of one visualizer's logs |
| `Pipeline.Report` | src/visualizer.py:175-180 | specification function with no contract of its own: the views of a visualizer that took in exactly the given events from empty logs; `ReportChat` and `ReportSummary` state what it holds |
| `Pipeline.ReportChat` | src/visualizer.py:56-67 | the chat view is the pairing of the run's own messages, whatever steps and citations came between them |
| `Pipeline.ReportSummary` | src/visualizer.py:95-106 | the summary view counts exactly the run's steps and citations |
| `Pipeline.MessagesOfAppend` | src/visualizer.py:118-171 | the messages of two runs of events are the messages of the first followed by those of the second |
| `Pipeline.ResearchMessages` | src/visualizer.py:123-131 | the research stage adds the findings message and what follows on success, and no message on failure |
| `Pipeline.AnalysisMessages` | src/visualizer.py:134-142 | the analysis stage adds the analysis message and what follows on success, and no message on failure |
| `Pipeline.FactCheckMessages` | src/visualizer.py:145-167 | the fact-check stage adds the final summary on success, and no message on failure |
| `Pipeline.ResearchFailureMessages` | src/visualizer.py:118-171 | when research fails, the chat holds the query, the start message and the error message |
| `Pipeline.AnalysisFailureMessages` | src/visualizer.py:118-171 | when analysis fails, the chat holds the query, the start message, the findings and the error message |
| `Pipeline.FactCheckFailureMessages` | src/visualizer.py:118-171 | when fact checking fails, the chat holds the query, the start message, the findings, the analysis and the error message |
| `Pipeline.SuccessfulRunMessages` | src/visualizer.py:118-167 | a successful run's chat holds the query, the start message, the findings, the analysis and the final summary with all three outputs |
| `Pipeline.SuccessfulRunChat` | src/visualizer.py:118-175 | the chat returned by a successful run has four rows: the query with the start message, then the findings, the analysis and the final summary, each alone on the assistant side |
| `Pipeline.QuestionAnswered` | src/visualizer.py:59-64 | a user message followed by a reply makes one full row |
| `Pipeline.ReplyOpensRow` | src/visualizer.py:62-66 | a reply after a row that already has its assistant side opens a new row with no user side |
| `Pipeline.FiveMessagesPair` | src/visualizer.py:56-67 | a user message followed by four replies makes four rows: the first full, the other three with no user side |
| `Pipeline.ResearchFailureEndsRun` | src/visualizer.py:121-171 | when research raises, nothing the later stages would do is part of the run |
| `Pipeline.AnalysisFailureEndsRun` | src/visualizer.py:134-171 | when analysis raises, nothing the fact-check stage would do is part of the run |
| `Pipeline.AnalysisIgnoresFindings` | src/visualizer.py:134 | when the analysis crew raises, the findings handed to it make no difference to the run |
| `Pipeline.StartTimesIndex` | src/visualizer.py:115 | proof helper, models no line by itself: the i-th entry of the start times of a handler list is the start time of the i-th handler |
| `Pipeline.ReachedIndex` | src/visualizer.py:118-171 | proof helper, models no line by itself: once some events have been published, each visualizer holds its starting logs having taken in those events, and its start time is unchanged |
| `Pipeline.Emit` | src/visualizer.py:118-171 | publishing one more event keeps every visualizer in step with the events published so far |
| `Pipeline.EmitAll` | src/visualizer.py:121-167 | publishing a run of events keeps every visualizer in step with all of them |
| `Pipeline.TryFactCheck` | src/visualizer.py:145-167 | the fact-check stage publishes what `FactCheckAttempt` says and raises what it says |
| `Pipeline.TryAnalysis` | src/visualizer.py:134-167 | the analysis stage and what follows publish what `AnalysisAttempt` says and raise what it says |
| `Pipeline.TryResearch` | src/visualizer.py:121-167 | the whole `try` block publishes what `ResearchAttempt` says and raises what it says |
| `Pipeline.Converse` | src/visualizer.py:118-172 | the run publishes exactly `RunEvents`, and every visualizer takes in all of them |
| `Pipeline.Join` | src/visualizer.py:114-115 | the new visualizer joins the end of the handler lists with empty logs and the given start time; the visualizers already there are unchanged |
| `Pipeline.Views` | src/visualizer.py:175-180 | the four views returned are `ViewsOf` the visualizer's logs, with the time since its own start |
| `Pipeline.Enrol` | src/visualizer.py:113-172 | a new visualizer joins the bus for good and takes in exactly the run's events; every visualizer already subscribed takes them in too, and keeps its start time |
| `Pipeline.RunQuery` | src/visualizer.py:113-180 | `Enrol`, then the views of the new visualizer alone |
| `Pipeline.RunResearchProcess` | src/visualizer.py:108-180 | an empty query returns the history unchanged with three empty views and touches nothing; otherwise the effects of `RunQuery` and its views, whatever the history held |

## Left out

- The Gradio interface (`create_gradio_interface`, the page layout, the
  Clear button) and `load_dotenv` are outside the model.
- `src/agents.py` and the crewAI `Crew`/`Task` classes are not part of this
  model. A crew is the oracle `crew: Task -> Kickoff`. The model assumes a
  crew's tools publish steps and citations but no chat messages
  (`ToolsPublishNoMessages`), which holds for the browser tool.
- Playwright and BeautifulSoup: the browser is the input `BrowserSession`.
  Script and style removal and `get_text` are folded into the page text it
  yields.
- The regex and the clean-up work on Unicode code points. Whitespace is the
  character set of Python's `str.isspace`, and line boundaries are those of
  `str.splitlines`, both written out as fixed tables. The `re` engine itself
  is replaced by a direct leftmost, greedy search for the one pattern.
- `datetime.now()` is an input. `clock(k)` stamps the k-th event of a run.
  The same reading is given to every visualizer that handles that event;
  in the source each handler reads the clock itself. The run's start and
  end are microsecond inputs, and the duration of the summary is taken as
  `timedelta.seconds` of their difference.
- `print` of error details (src/visualizer.py:172) is output only.
- `update_step`, `update_citation` and `update_message` return a
  re-rendered view, which `notify_*` discards. The model's update methods
  return nothing.
- Exceptions raised by a handler: the generic bus (`FanOut`, `CallEach`)
  models them. The visualizer's own handlers never raise, so `Publish`
  assumes that none does.
- `BrowserTool.Run`: the exact text of the `TypeError` raised by the
  `source=` keyword is a constant, `SourceKeywordError`. Python's wording
  is not checked against a real interpreter.
- Concurrency: Gradio may serve several queries at once on the shared bus;
  the model runs one query at a time.

## Findings

| source | as written | input that shows it | evidently intended | confidence | as-written member | corrected member |
|---|---|---|---|---|---|---|
| src/tools/browser_tool.py:70-74 | `notify_citation` is called with the keyword `source=`, but its parameter is named `title` (src/event_system.py:36). The call raises `TypeError`, the `except` turns it into "Error during browser task: ...", and no citation or "Content Extraction" step is ever published. The title is also read after `browser.close()` (line 67), which can fail on its own. | any task description that contains a URL, e.g. "https://example.com", with a page that loads | publish the citation under `title=` and return the cleaned page text | not executed | `BrowserTool.Run`, `BrowserTool.CitationLostOnLoadedPage` | `BrowserTool.RunAsIntended`, `BrowserTool.VisitAsIntended` |
