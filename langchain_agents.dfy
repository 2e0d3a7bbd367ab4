/** The deterministic part of the LangChain study agents (lib/langchain-agents.ts): the
    subject-to-agent factory, the system prompt, and how an agent run is turned into an
    answer (reasoning, suggested actions, confidence, sources) and a study session into
    action items. The language model, the agent executor and the vector store are
    parameters: an `invoke` or `ask` function stands for each call into them. */
module LangchainAgents {
  import opened Wrappers
  import opened Strings

  // ---------------------------------------------------------------------------
  // Agent factory

  /** The three agent classes the factory can build. */
  datatype Specialist = Math | Science | General

  /** `AgentFactory.createAgent`: chooses on the lower-cased subject. */
  function CreateAgent(subject: string): (agent: Specialist)
    ensures agent == Math <==> Lower(subject) in {"mathematics", "math"}
    ensures agent == Science <==> Lower(subject) in {"physics", "chemistry", "biology"}
    ensures agent == General <==> Lower(subject) !in {"mathematics", "math", "physics", "chemistry", "biology"}
  {
    match Lower(subject)
    case "mathematics" => Math
    case "math" => Math
    case "physics" => Science
    case "chemistry" => Science
    case "biology" => Science
    case _ => General
  }

  /** The factory does not care how the subject is capitalised. */
  lemma CreateAgentIgnoresCase(subject: string)
    ensures CreateAgent(Lower(subject)) == CreateAgent(subject)
  {
    LowerIdempotent(subject);
  }

  // ---------------------------------------------------------------------------
  // Study context and system prompt

  datatype Level = Beginner | Intermediate | Advanced

  function LevelName(level: Level): string
  {
    match level
    case Beginner => "beginner"
    case Intermediate => "intermediate"
    case Advanced => "advanced"
  }

  datatype StudyContext = StudyContext(
    subject: string,
    documents: seq<string>,
    userLevel: Level,
    learningGoals: seq<string>,
    previousQuestions: seq<string>)

  /** `slice(-n)`: the last `n` elements, or all of them when there are fewer. As `-0` is
      `0`, `slice(-0)` keeps all of them too. */
  function LastN<T>(s: seq<T>, n: nat): (r: seq<T>)
    ensures |r| == if n == 0 || |s| < n then |s| else n
    ensures r == s[|s| - |r|..]
  {
    if n == 0 || |s| <= n then s else s[|s| - n..]
  }

  /** The line of the prompt that shows the recent questions. */
  function QuestionsLine(context: StudyContext): string
  {
    "Previous Questions: " + Join(LastN(context.previousQuestions, 3), "; ") + "\n"
  }

  /** The lines of the prompt above the questions line. */
  function PromptHead(context: StudyContext): string
  {
    "\n      You are an advanced AI study assistant with expertise in " + context.subject + ".\n"
    + "      \n"
    + "      Student Level: " + LevelName(context.userLevel) + "\n"
    + "      Learning Goals: " + Join(context.learningGoals, ", ") + "\n"
    + "      Available Documents: " + NatToString(|context.documents|) + " documents loaded\n"
    + "      "
  }

  /** The lines of the prompt below the questions line. */
  const PromptTail := "      \n"
    + "      Use your tools to provide comprehensive, personalized assistance.\n"
    + "      Always explain your reasoning and suggest follow-up actions.\n"
    + "    "

  /** `buildSystemPrompt`: the template string, with its indentation. */
  function BuildSystemPrompt(context: StudyContext): string
  {
    PromptHead(context) + QuestionsLine(context) + PromptTail
  }

  /** The prompt shows the last three previous questions, joined by "; ". */
  lemma PromptShowsLastThreeQuestions(context: StudyContext)
    ensures Contains(BuildSystemPrompt(context), QuestionsLine(context))
  {
    ContainsMiddle(PromptHead(context), QuestionsLine(context), PromptTail);
  }

  /** Only the last three questions matter: one more, older question leaves the prompt
      as it was. */
  lemma {:induction false} OldestQuestionForgotten(context: StudyContext, older: string)
    requires |context.previousQuestions| >= 3
    ensures BuildSystemPrompt(context.(previousQuestions := [older] + context.previousQuestions))
         == BuildSystemPrompt(context)
  {
    var qs := context.previousQuestions;
    var more := [older] + qs;
    assert more[|more| - 3..] == qs[|qs| - 3..];
    assert LastN(more, 3) == LastN(qs, 3);
  }

  // ---------------------------------------------------------------------------
  // Agent runs

  /** One intermediate step of an agent run; a step may carry no action. */
  datatype Action = Action(tool: string, log: string)
  datatype Step = Step(action: Option<Action>)

  /** What the executor returns; both parts may be missing. */
  datatype RunResult = RunResult(output: Option<string>, intermediateSteps: Option<seq<Step>>)

  datatype AgentResponse = AgentResponse(
    response: Option<string>,
    reasoning: string,
    suggestedActions: seq<string>,
    confidence: nat,
    sources: seq<string>)

  const FixedReasoning := "Applied multi-step reasoning to provide comprehensive response"
  const NotInitialized := "Agent not initialized"
  const NoDocuments := "No documents available for search"
  const DocumentSearchTool := "document_search"
  const UploadedDocuments := "Uploaded documents"
  const KnowledgeBase := "AI knowledge base"
  const MaxIterations := 3
  /** How many matches the document search asks for. */
  const SearchResults := 3

  /** `step.action?.log || ""`. */
  function LogOf(step: Step): string
  {
    if step.action.Some? then step.action.value.log else ""
  }

  /** The logs of the steps, empty ones dropped (`filter(Boolean)`), in step order. */
  function Logs(steps: seq<Step>): (logs: seq<string>)
    ensures |logs| <= |steps|
    ensures forall i :: 0 <= i < |logs| ==> logs[i] != ""
  {
    if |steps| == 0 then []
    else
      var front := Logs(steps[..|steps| - 1]);
      var log := LogOf(steps[|steps| - 1]);
      if log == "" then front else front + [log]
  }

  /** One step keeps its log exactly when the log is not empty. */
  lemma LogsOfStep(step: Step)
    ensures Logs([step]) == if LogOf(step) == "" then [] else [LogOf(step)]
  {
    assert [step][..0] == [];
  }

  /** Collecting logs distributes over concatenation, so together with `LogsOfStep` the
      logs are exactly the non-empty logs of the steps, in step order. */
  lemma {:induction false} LogsAppend(a: seq<Step>, b: seq<Step>)
    ensures Logs(a + b) == Logs(a) + Logs(b)
  {
    if |b| > 0 {
      var front := b[..|b| - 1];
      assert (a + b)[..|a + b| - 1] == a + front;
      LogsAppend(a, front);
    } else {
      assert a + b == a;
    }
  }

  /** When every step has a log, the logs are exactly those of the steps, in order. */
  lemma {:induction false} LogsOfLoggedSteps(steps: seq<Step>)
    requires forall i :: 0 <= i < |steps| ==> LogOf(steps[i]) != ""
    ensures |Logs(steps)| == |steps|
    ensures forall i :: 0 <= i < |steps| ==> Logs(steps)[i] == LogOf(steps[i])
  {
    if |steps| > 0 {
      LogsOfLoggedSteps(steps[..|steps| - 1]);
    }
  }

  /** When no step has a log there is nothing to keep. */
  lemma {:induction false} LogsOfSilentSteps(steps: seq<Step>)
    requires forall i :: 0 <= i < |steps| ==> LogOf(steps[i]) == ""
    ensures Logs(steps) == []
  {
    if |steps| > 0 {
      LogsOfSilentSteps(steps[..|steps| - 1]);
    }
  }

  /** `extractReasoning`: the non-empty logs joined by " " when the run reports its steps
      (even none), and a fixed sentence when it does not. */
  function ExtractReasoning(result: RunResult): (reasoning: string)
    ensures result.intermediateSteps.None? ==> reasoning == FixedReasoning
    ensures result.intermediateSteps.Some? ==> reasoning == Join(Logs(result.intermediateSteps.value), " ")
  {
    if result.intermediateSteps.Some? then Join(Logs(result.intermediateSteps.value), " ")
    else FixedReasoning
  }

  /** A run that reports steps without logs has empty reasoning, not the fixed sentence. */
  lemma ReasoningOfSilentRun(result: RunResult)
    requires result.intermediateSteps.Some?
    requires forall i :: 0 <= i < |result.intermediateSteps.value| ==> LogOf(result.intermediateSteps.value[i]) == ""
    ensures ExtractReasoning(result) == ""
  {
    LogsOfSilentSteps(result.intermediateSteps.value);
  }

  /** The three actions every answer suggests. */
  const CommonActions := [
    "Review related concepts in your documents",
    "Practice with generated quiz questions",
    "Explore deeper explanations of key terms"]
  const BeginnerAction := "Start with fundamental concepts"
  const AdvancedAction := "Explore advanced applications and edge cases"

  /** The actions suggested at a level: the common three, then one per extreme level. */
  function SuggestedActions(level: Level): (actions: seq<string>)
    ensures |actions| >= 3 && actions[..3] == CommonActions
    ensures level == Beginner ==> actions == CommonActions + [BeginnerAction]
    ensures level == Advanced ==> actions == CommonActions + [AdvancedAction]
    ensures level == Intermediate ==> actions == CommonActions
  {
    match level
    case Beginner => CommonActions + [BeginnerAction]
    case Advanced => CommonActions + [AdvancedAction]
    case Intermediate => CommonActions
  }

  /** `generateSuggestedActions`: pushes onto the common three; the query plays no part. */
  method GenerateSuggestedActions(query: string, context: StudyContext) returns (actions: seq<string>)
    ensures actions == SuggestedActions(context.userLevel)
  {
    actions := CommonActions;
    if context.userLevel == Beginner {
      actions := actions + [BeginnerAction];
    } else if context.userLevel == Advanced {
      actions := actions + [AdvancedAction];
    }
  }

  /** `Math.min`. */
  function Min(a: nat, b: nat): nat
  {
    if a < b then a else b
  }

  /** `intermediateSteps?.length > 0`. */
  predicate UsedTools(result: RunResult)
  {
    result.intermediateSteps.Some? && |result.intermediateSteps.value| > 0
  }

  /** `output?.length > 100`. */
  predicate IsDetailed(result: RunResult)
  {
    result.output.Some? && |result.output.value| > 100
  }

  /** The confidence of a run, in hundredths: 70, plus 20 for any step, plus 10 for a
      detailed output, capped at 100. */
  function Confidence(result: RunResult): (c: nat)
    ensures c in {70, 80, 90, 100}
    ensures c == 100 <==> UsedTools(result) && IsDetailed(result)
    ensures c == 90 <==> UsedTools(result) && !IsDetailed(result)
    ensures c == 80 <==> !UsedTools(result) && IsDetailed(result)
    ensures c == 70 <==> !UsedTools(result) && !IsDetailed(result)
  {
    Min(70 + (if UsedTools(result) then 20 else 0) + (if IsDetailed(result) then 10 else 0), 100)
  }

  /** `calculateConfidence`: an accumulator and a cap. */
  method CalculateConfidence(result: RunResult) returns (confidence: nat)
    ensures confidence == Confidence(result)
  {
    confidence := 70;
    if UsedTools(result) {
      confidence := confidence + 20;
    }
    if IsDetailed(result) {
      confidence := confidence + 10;
    }
    confidence := Min(confidence, 100);
  }

  function StepsOf(result: RunResult): seq<Step>
  {
    if result.intermediateSteps.Some? then result.intermediateSteps.value else []
  }

  predicate IsDocumentSearch(step: Step)
  {
    step.action.Some? && step.action.value.tool == DocumentSearchTool
  }

  /** How many of the steps searched the documents. */
  function SearchCount(steps: seq<Step>): (n: nat)
    ensures n <= |steps|
  {
    if |steps| == 0 then 0
    else SearchCount(steps[..|steps| - 1]) + (if IsDocumentSearch(steps[|steps| - 1]) then 1 else 0)
  }

  /** `n` copies of "Uploaded documents". */
  function UploadedTimes(n: nat): (r: seq<string>)
    ensures |r| == n && forall i :: 0 <= i < n ==> r[i] == UploadedDocuments
  {
    seq(n, _ => UploadedDocuments)
  }

  /** The sources of a run: one "Uploaded documents" per document search, and otherwise
      the knowledge base alone. */
  function Sources(result: RunResult): (sources: seq<string>)
    ensures |sources| >= 1
    ensures SearchCount(StepsOf(result)) > 0 ==> sources == UploadedTimes(SearchCount(StepsOf(result)))
    ensures SearchCount(StepsOf(result)) == 0 ==> sources == [KnowledgeBase]
  {
    var n := SearchCount(StepsOf(result));
    if n > 0 then UploadedTimes(n) else [KnowledgeBase]
  }

  /** `extractSources`: pushes inside a `forEach` over the steps. */
  method ExtractSources(result: RunResult) returns (sources: seq<string>)
    ensures sources == Sources(result)
  {
    var found: seq<string> := [];
    if result.intermediateSteps.Some? {
      var steps := result.intermediateSteps.value;
      for i := 0 to |steps|
        invariant found == UploadedTimes(SearchCount(steps[..i]))
      {
        assert steps[..i + 1][..i] == steps[..i];
        if IsDocumentSearch(steps[i]) {
          found := found + [UploadedDocuments];
        }
      }
      assert steps[..|steps|] == steps;
    }
    sources := if |found| > 0 then found else [KnowledgeBase];
  }

  // ---------------------------------------------------------------------------
  // Action items

  /** A line of the analysis that reads as an action item (matched case-sensitively). */
  predicate IsActionLine(line: string)
  {
    Contains(line, "next step") || Contains(line, "action") || Contains(line, "recommend")
  }

  /** The action lines, in their original order. */
  function ActionLines(lines: seq<string>): (kept: seq<string>)
    ensures |kept| <= |lines|
    ensures forall i :: 0 <= i < |kept| ==> IsActionLine(kept[i])
  {
    if |lines| == 0 then []
    else
      var front := ActionLines(lines[..|lines| - 1]);
      if IsActionLine(lines[|lines| - 1]) then front + [lines[|lines| - 1]] else front
  }

  /** One line is kept exactly when it is an action line. */
  lemma ActionLinesOfLine(line: string)
    ensures ActionLines([line]) == if IsActionLine(line) then [line] else []
  {
    assert [line][..0] == [];
  }

  /** Filtering distributes over concatenation, so the kept lines stay in order. */
  lemma {:induction false} ActionLinesAppend(a: seq<string>, b: seq<string>)
    ensures ActionLines(a + b) == ActionLines(a) + ActionLines(b)
  {
    if |b| > 0 {
      var front := b[..|b| - 1];
      assert (a + b)[..|a + b| - 1] == a + front;
      ActionLinesAppend(a, front);
    } else {
      assert a + b == a;
    }
  }

  function TrimAll(lines: seq<string>): (r: seq<string>)
    ensures |r| == |lines| && forall i :: 0 <= i < |lines| ==> r[i] == Trim(lines[i])
  {
    seq(|lines|, i requires 0 <= i < |lines| => Trim(lines[i]))
  }

  /** Trimming an action line keeps its keyword. */
  lemma TrimKeepsActionLine(line: string)
    requires IsActionLine(line)
    ensures IsActionLine(Trim(line))
  {
    if Contains(line, "next step") {
      ContainsAfterTrim(line, "next step");
    } else if Contains(line, "action") {
      ContainsAfterTrim(line, "action");
    } else {
      ContainsAfterTrim(line, "recommend");
    }
  }

  /** Every trimmed action line is still an action line. */
  lemma TrimAllKeepsActionLines(lines: seq<string>)
    requires forall i :: 0 <= i < |lines| ==> IsActionLine(lines[i])
    ensures forall i :: 0 <= i < |lines| ==> IsActionLine(TrimAll(lines)[i])
  {
    forall i | 0 <= i < |lines| {
      TrimKeepsActionLine(lines[i]);
    }
  }

  /** `extractActionItems`: the first five action lines of the analysis, trimmed. */
  function ExtractActionItems(analysis: string): (items: seq<string>)
    ensures |items| <= 5 && |items| <= |ActionLines(Split(analysis, '\n'))|
    ensures forall i :: 0 <= i < |items| ==> IsActionLine(items[i])
    ensures items == TrimAll(ActionLines(Split(analysis, '\n')))[..|items|]
    ensures |items| < 5 ==> items == TrimAll(ActionLines(Split(analysis, '\n')))
  {
    var kept := ActionLines(Split(analysis, '\n'));
    TrimAllKeepsActionLines(kept);
    var all := TrimAll(kept);
    if |all| <= 5 then all else all[..5]
  }

  // ---------------------------------------------------------------------------
  // The study agent

  /** The configured agent executor. */
  datatype Executor = Executor(maxIterations: nat)

  /** The requests a collaborative session sends to the language models. */
  datatype Request =
    | Introduce(topic: string, level: string)
    | AskQuestions(topic: string, level: string, introduction: string)
    | Answer(topic: string, questions: string)
    | Analyze(topic: string, discussion: string)
    | Synthesize(topic: string, fullDiscussion: string)

  datatype Session = Session(discussion: seq<string>, synthesis: string, actionItems: seq<string>)

  /** `fullQuery`: the system prompt, a blank line and the user's query. */
  function FullQuery(context: StudyContext, query: string): string
  {
    BuildSystemPrompt(context) + "\n\nUser Query: " + query
  }

  /** The query the executor sees opens with the system prompt and ends with the user's query. */
  lemma FullQueryShape(context: StudyContext, query: string)
    ensures StartsWith(FullQuery(context, query), BuildSystemPrompt(context))
    ensures FullQuery(context, query)[|FullQuery(context, query)| - |query|..] == query
  {
    Framed(BuildSystemPrompt(context), "\n\nUser Query: ", query);
  }

  /** A concatenation starts with its first part and ends with its last. */
  lemma Framed(a: string, b: string, c: string)
    ensures StartsWith(a + b + c, a)
    ensures (a + b + c)[|a + b + c| - |c|..] == c
  {
    assert (a + b + c)[..|a|] == a;
  }

  class StudyAgent {
    /** Set once the hub prompt was fetched and the executor built. */
    var executor: Option<Executor>
    /** The loaded document texts, once `loadDocuments` has run. */
    var vectorStore: Option<seq<string>>

    /** The constructor starts `initializeAgent` without waiting for it. */
    constructor()
      ensures executor == None && vectorStore == None
    {
      executor := None;
      vectorStore := None;
    }

    /** `initializeAgent` completing: the executor exists only when fetching the hub
        prompt and building the agent succeeded; a failure is logged and leaves it unset. */
    method InitializeAgent(built: bool)
      modifies this`executor
      ensures executor == if built then Some(Executor(MaxIterations)) else old(executor)
    {
      if built {
        executor := Some(Executor(MaxIterations));
      }
    }

    /** `loadDocuments`: replaces the store with the given documents. */
    method LoadDocuments(contents: seq<string>)
      modifies this`vectorStore
      ensures vectorStore == Some(contents)
    {
      vectorStore := Some(contents);
    }

    /** The `document_search` tool: without a store it answers with a fixed text,
        otherwise it asks the similarity search for the best `SearchResults` matches and
        joins what comes back by blank lines. */
    method DocumentSearch(query: string, search: (seq<string>, string, nat) -> seq<string>) returns (text: string)
      ensures vectorStore.None? ==> text == NoDocuments
      ensures vectorStore.Some? ==> text == Join(search(vectorStore.value, query, SearchResults), "\n\n")
    {
      if vectorStore.None? {
        return NoDocuments;
      }
      text := Join(search(vectorStore.value, query, SearchResults), "\n\n");
    }

    /** `processQuery`: fails without an executor; otherwise runs the full query and
        assembles the answer, passing a failed run's error on. */
    method ProcessQuery(query: string, context: StudyContext, invoke: string -> Result<RunResult, string>)
      returns (r: Result<AgentResponse, string>)
      ensures executor.None? ==> r == Err(NotInitialized)
      ensures executor.Some? && invoke(FullQuery(context, query)).Err? ==>
        r == Err(invoke(FullQuery(context, query)).error)
      ensures executor.Some? && invoke(FullQuery(context, query)).Ok? ==>
        var run := invoke(FullQuery(context, query)).value;
        r == Ok(AgentResponse(run.output, ExtractReasoning(run), SuggestedActions(context.userLevel),
                              Confidence(run), Sources(run)))
    {
      if executor.None? {
        return Err(NotInitialized);
      }
      var fullQuery := FullQuery(context, query);
      var outcome := invoke(fullQuery);
      if outcome.Err? {
        return Err(outcome.error);
      }
      var run := outcome.value;
      var actions := GenerateSuggestedActions(query, context);
      var confidence := CalculateConfidence(run);
      var sources := ExtractSources(run);
      r := Ok(AgentResponse(run.output, ExtractReasoning(run), actions, confidence, sources));
    }

    /** `collaborativeStudySession`: teacher, student, teacher and analyst speak in turn,
        each seeing what came before; the synthesis sees all four entries and the action
        items come from the analyst. The participants are not consulted. */
    method CollaborativeStudySession(participants: seq<string>, topic: string, context: StudyContext,
                                     ask: Request -> string)
      returns (session: Session)
      ensures |session.discussion| == 4
      ensures StartsWith(session.discussion[0], "Teacher: ")
      ensures StartsWith(session.discussion[1], "Student: ")
      ensures StartsWith(session.discussion[2], "Teacher: ")
      ensures StartsWith(session.discussion[3], "Learning Analyst: ")
      ensures
        var level := LevelName(context.userLevel);
        var intro := ask(Introduce(topic, level));
        var questions := ask(AskQuestions(topic, level, intro));
        var answer := ask(Answer(topic, questions));
        var analysis := ask(Analyze(topic, Join(session.discussion[..3], "\n\n")));
        && session.discussion == ["Teacher: " + intro, "Student: " + questions,
                                  "Teacher: " + answer, "Learning Analyst: " + analysis]
        && session.synthesis == ask(Synthesize(topic, Join(session.discussion, "\n\n")))
        && session.actionItems == ExtractActionItems(analysis)
    {
      var level := LevelName(context.userLevel);
      var discussion: seq<string> := [];
      var teacherIntro := ask(Introduce(topic, level));
      discussion := discussion + ["Teacher: " + teacherIntro];
      var studentQuestions := ask(AskQuestions(topic, level, teacherIntro));
      discussion := discussion + ["Student: " + studentQuestions];
      var teacherResponse := ask(Answer(topic, studentQuestions));
      discussion := discussion + ["Teacher: " + teacherResponse];
      var criticAnalysis := ask(Analyze(topic, Join(discussion, "\n\n")));
      var early := discussion;
      discussion := discussion + ["Learning Analyst: " + criticAnalysis];
      assert discussion[..3] == early;
      var synthesis := ask(Synthesize(topic, Join(discussion, "\n\n")));
      session := Session(discussion, synthesis, ExtractActionItems(criticAnalysis));
    }
  }
}
