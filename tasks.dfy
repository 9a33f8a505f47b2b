/** The task factories of src/tasks.py. Each announces itself with one step
    event on the bus and builds the task record a one-agent crew runs. A
    factory is modelled as the pair of the step it publishes and the task
    it returns. */
module Tasks {
  import opened Wrappers
  import opened EventSystem

  /** The three agents of src/agents.py, by role. */
  datatype Agent = WebResearchSpecialist | ContentAnalyzer | FactChecker

  /** A crew `Task`: what to do, what to hand back, who does it, and the
      tasks whose output it is given as context (always absent here). */
  datatype Task = Task(description: string, expectedOutput: string, agent: Agent, context: Option<seq<Task>>)

  /** What a factory call does: the step it publishes, then the task. */
  datatype Created = Created(announced: Event, task: Task)

  /** A triple-quoted block of the source: its lines, each after the
      first on a new line indented by eight spaces. */
  function Lines(ls: seq<string>): string {
    if ls == [] then "" else if |ls| == 1 then ls[0] else Lines(ls[..|ls| - 1]) + "\n        " + ls[|ls| - 1]
  }

  const ResearchPrefix: string := "Research the following topic thoroughly: "
  const ResearchSteps: string := Lines([
    "",
    "1. Search for recent and reliable information",
    "2. Gather key facts and insights",
    "3. Include relevant statistics and data",
    "4. Note any conflicting information",
    "5. Save important quotes and citations"])
  const ResearchExpected: string := Lines([
    "Detailed research findings including:",
    "- Key facts and insights",
    "- Statistics and data",
    "- Expert opinions",
    "- Source citations"])
  const AnalysisDescription: string := Lines([
    "Analyze the research findings and:",
    "1. Identify main themes and patterns",
    "2. Extract key insights",
    "3. Organize information logically",
    "4. Highlight significant findings",
    "5. Note areas needing further research"])
  const AnalysisExpected: string := Lines([
    "Comprehensive analysis including:",
    "- Main themes identified",
    "- Key insights extracted",
    "- Logical organization of findings",
    "- Areas for further research"])
  const FactCheckDescription: string := Lines([
    "Verify the analyzed information:",
    "1. Check accuracy of facts and statistics",
    "2. Verify source credibility",
    "3. Cross-reference key claims",
    "4. Identify potential biases",
    "5. Flag any questionable information"])
  const FactCheckExpected: string := Lines([
    "Verification report including:",
    "- Confirmed facts and statistics",
    "- Source credibility assessment",
    "- Cross-reference results",
    "- Identified biases or concerns"])
  const CreationAction: string := "Task Creation"
  const ResearchTitle: string := "Creating research task"
  const ResearchObservation: string := "Initializing web research task"
  const AnalysisTitle: string := "Creating analysis task"
  const AnalysisInput: string := "Processing research results"
  const AnalysisObservation: string := "Initializing content analysis task"
  const FactCheckTitle: string := "Creating fact checking task"
  const FactCheckInput: string := "Verifying analysis results"
  const FactCheckObservation: string := "Initializing fact checking task"

  /** `get_research_task(query)`: the query goes into the step's input and
      right after the fixed opening of the description. */
  function ResearchTask(query: string): (c: Created)
    ensures c.announced.Step? && c.announced.action == CreationAction && c.announced.inputData == query
    ensures |c.task.description| >= |ResearchPrefix| + |query|
    ensures c.task.description[..|ResearchPrefix|] == ResearchPrefix
    ensures c.task.description[|ResearchPrefix|..|ResearchPrefix| + |query|] == query
    ensures c.task.agent == WebResearchSpecialist && c.task.context == None
  {
    var description := ResearchPrefix + query + ResearchSteps;
    assert description[..|ResearchPrefix|] == ResearchPrefix;
    assert description[|ResearchPrefix|..|ResearchPrefix| + |query|] == query;
    Created(
      Step(ResearchTitle, CreationAction, query, ResearchObservation),
      Task(description, ResearchExpected, WebResearchSpecialist, None))
  }

  /** `get_analysis_task(research_results)`: the argument is not used. */
  function AnalysisTask(researchResults: string): (c: Created)
    ensures c.announced == Step(AnalysisTitle, CreationAction, AnalysisInput, AnalysisObservation)
    ensures c.task.agent == ContentAnalyzer && c.task.context == None
  {
    Created(
      Step(AnalysisTitle, CreationAction, AnalysisInput, AnalysisObservation),
      Task(AnalysisDescription, AnalysisExpected, ContentAnalyzer, None))
  }

  /** `get_fact_checking_task(analysis_results)`: the argument is not used. */
  function FactCheckTask(analysisResults: string): (c: Created)
    ensures c.announced == Step(FactCheckTitle, CreationAction, FactCheckInput, FactCheckObservation)
    ensures c.task.agent == FactChecker && c.task.context == None
  {
    Created(
      Step(FactCheckTitle, CreationAction, FactCheckInput, FactCheckObservation),
      Task(FactCheckDescription, FactCheckExpected, FactChecker, None))
  }

  /** Different queries give different research tasks: the query can be
      read back from the description. */
  lemma ResearchTaskKeepsQuery(q1: string, q2: string)
    requires ResearchTask(q1).task == ResearchTask(q2).task
    ensures q1 == q2
  {
    var d1, d2 := ResearchTask(q1).task.description, ResearchTask(q2).task.description;
    assert |d1| == |ResearchPrefix| + |q1| + |ResearchSteps|;
    assert |d2| == |ResearchPrefix| + |q2| + |ResearchSteps|;
  }

  /** The analysis and fact-check factories ignore their input: the stage
      after research is given no part of what research found. */
  lemma DownstreamTasksIgnoreInput(a: string, b: string)
    ensures AnalysisTask(a) == AnalysisTask(b)
    ensures FactCheckTask(a) == FactCheckTask(b)
  {
  }

  /** Each factory assigns its own fixed agent, so the three tasks go to
      three different agents. */
  lemma TasksGoToDistinctAgents(q: string, r: string, a: string)
    ensures ResearchTask(q).task.agent != AnalysisTask(r).task.agent
    ensures AnalysisTask(r).task.agent != FactCheckTask(a).task.agent
    ensures ResearchTask(q).task.agent != FactCheckTask(a).task.agent
  {
  }
}
