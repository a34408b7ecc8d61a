/**
 * CustomLlamaIndexCallbackHandler (app/chat_engine/LogHandler/LogHandler.py):
 * turns LlamaIndex callback events into Chainlit steps. A step is
 * registered under its event id when the event starts, renamed and filled
 * in when it ends, then either updated or removed in the UI and dropped
 * from the registry. The UI calls are recorded as actions.
 */
module LogHandler {

  import opened Wrappers
  import opened Text
  import opened Nodes
  import opened Prompts

  /** CBEventType */
  datatype EventType =
    | Chunking | NodeParsing | Embedding | Llm | Query | Retrieve | Synthesize
    | Tree | SubQuestion | Templating | FunctionCall | Reranking | Exception | AgentStep

  /** CBEventType.value: the name a step starts with. */
  function EventValue(e: EventType): string
  {
    match e
    case Chunking => "chunking"
    case NodeParsing => "node_parsing"
    case Embedding => "embedding"
    case Llm => "llm"
    case Query => "query"
    case Retrieve => "retrieve"
    case Synthesize => "synthesize"
    case Tree => "tree"
    case SubQuestion => "sub_question"
    case Templating => "templating"
    case FunctionCall => "function_call"
    case Reranking => "reranking"
    case Exception => "exception"
    case AgentStep => "agent_step"
  }

  /** DEFAULT_IGNORE: the event types the callback manager does not forward. */
  const DefaultIgnore: seq<EventType> :=
    [Chunking, Synthesize, Embedding, NodeParsing, Query, Tree, Retrieve, Templating, Llm, SubQuestion]

  /** The Chainlit step type of an event, or None for an event that is not tracked. */
  function StepTypeOf(e: EventType): Option<string>
  {
    match e
    case Retrieve => Some("retrieval")
    case Reranking => Some("reranking")
    case Llm => Some("llm")
    case Synthesize => Some("synthetizer")
    case SubQuestion => Some("sub_question")
    case Query => Some("query")
    case _ => None
  }

  /**
   * Six event types are tracked; with DEFAULT_IGNORE on both starts and
   * ends, reranking is the only tracked type that reaches the handler.
   */
  lemma TrackedEvents(e: EventType)
    ensures StepTypeOf(e).Some? <==> e in {Retrieve, Reranking, Llm, Synthesize, SubQuestion, Query}
    ensures StepTypeOf(e).Some? && e !in DefaultIgnore <==> e == Reranking
  {
  }

  /** The Chainlit context the handler captured: the current step and the root message. */
  datatype Context = Context(currentStepId: Option<string>, rootMessageId: Option<string>)

  datatype StepElement = StepElement(name: string, content: string, display: Option<string>)

  datatype Step = Step(
    name: string, stepType: string, parentId: Option<string>, id: string,
    input: string, output: string, elements: seq<StepElement>)

  /** The UI tasks the handler schedules. */
  datatype StepAction = Send(step: Step) | Update(step: Step) | Remove(step: Step)

  datatype HandlerError =
    | AttributeError   // a method called on None
    | TypeError        // None compared with a number
    | QueryStrError    // json.loads(step.input)['query_str'] raised: the input is not JSON or has no query_str

  datatype Selection = Selection(index: nat, reason: string)

  /** The query response of a QUERY event: the router's selection, if any, and its sources. */
  datatype QueryResponse = QueryResponse(selection: Option<Selection>, sourceNodes: seq<NodeWithScore>)

  datatype SubQuestionAnswer = SubQuestionAnswer(subQ: string, answer: string)

  /**
   * The event payload, by the keys the handler reads. `nodes` is empty when
   * the key is absent; `serialized` is the payload as Chainlit displays it.
   */
  datatype Payload = Payload(
    queryStr: Option<string>, nodes: seq<NodeWithScore>, response: Option<QueryResponse>,
    subQuestion: Option<SubQuestionAnswer>, prompt: Option<string>, completion: Option<string>, serialized: string)

  /** _get_parent_id */
  function ParentId(eventParentId: string, steps: map<string, Step>, context: Context): Option<string>
  {
    if eventParentId != "" && eventParentId in steps then Some(eventParentId)
    else if context.currentStepId.Some? then context.currentStepId
    else context.rootMessageId
  }

  /**
   * The given parent is used exactly when it is a registered id; otherwise
   * the current step, then the root message; None when there is neither.
   */
  lemma ParentIdSpec(eventParentId: string, steps: map<string, Step>, context: Context)
    ensures eventParentId != "" && eventParentId in steps ==> ParentId(eventParentId, steps, context) == Some(eventParentId)
    ensures !(eventParentId != "" && eventParentId in steps) ==>
      ParentId(eventParentId, steps, context) == if context.currentStepId.Some? then context.currentStepId else context.rootMessageId
    ensures ParentId(eventParentId, steps, context).None? <==>
      (eventParentId == "" || eventParentId !in steps) && context.currentStepId.None? && context.rootMessageId.None?
  {
  }

  /** The step input set at the start of an event: the query text, or the payload itself. */
  function StartInput(e: EventType, payload: Option<Payload>): Result<string, HandlerError>
  {
    if e == Retrieve || e == Reranking then
      if payload.None? then Err(AttributeError)
      else Ok(if payload.value.queryStr.Some? then payload.value.queryStr.value else "")
    else Ok(if payload.Some? then payload.value.serialized else "{}")
  }

  /** The LLM prompt prefixes the handler recognises, with the step name each one gives. */
  const LlmPrefixNames: seq<(string, string)> := [
    ("Given a conversation", "LLM Conversation Condensation"),
    ("Some choices are given below", "LLM Tool Selection"),
    ("Context information is below", "LLM Intermediate Answer"),
    ("Given a user question", "Sub-question Generation")
  ]

  /** The name of an LLM step with this formatted prompt, by the if/elif chain. */
  function LlmStepName(prompt: string): string
  {
    if StartsWith(prompt, "Given a conversation") then "LLM Conversation Condensation"
    else if StartsWith(prompt, "Some choices are given below") then "LLM Tool Selection"
    else if StartsWith(prompt, "Context information is below") then "LLM Intermediate Answer"
    else if StartsWith(prompt, "Given a user question") then "Sub-question Generation"
    else "LLM Generation"
  }

  /** The name given by the first entry whose prefix the prompt has. */
  function FirstPrefixName(table: seq<(string, string)>, prompt: string, default: string): string
  {
    if |table| == 0 then default
    else if StartsWith(prompt, table[0].0) then table[0].1
    else FirstPrefixName(table[1..], prompt, default)
  }

  /** The chain is the table read in order, with "LLM Generation" as the default. */
  lemma LlmStepNameIsFirstMatch(prompt: string)
    ensures LlmStepName(prompt) == FirstPrefixName(LlmPrefixNames, prompt, "LLM Generation")
  {
    var t1 := LlmPrefixNames[1..];
    var t2 := t1[1..];
    var t3 := t2[1..];
    assert t3[1..] == [];
    assert FirstPrefixName(t3, prompt, "LLM Generation")
      == if StartsWith(prompt, "Given a user question") then "Sub-question Generation" else "LLM Generation";
    assert t2[0] == ("Context information is below", "LLM Intermediate Answer") && t2[1..] == t3;
    assert FirstPrefixName(t2, prompt, "LLM Generation")
      == if StartsWith(prompt, "Context information is below") then "LLM Intermediate Answer"
         else FirstPrefixName(t3, prompt, "LLM Generation");
    assert t1[0] == ("Some choices are given below", "LLM Tool Selection") && t1[1..] == t2;
    assert FirstPrefixName(t1, prompt, "LLM Generation")
      == if StartsWith(prompt, "Some choices are given below") then "LLM Tool Selection"
         else FirstPrefixName(t2, prompt, "LLM Generation");
    assert LlmPrefixNames[0] == ("Given a conversation", "LLM Conversation Condensation");
  }

  /** Steps with these names are removed from the UI instead of updated. */
  predicate ShouldRemove(name: string)
  {
    name == "LLM Intermediate Answer" || name == "LLM Generation"
  }

  /**
   * Prompts built from the condensation template and from the router's
   * selection template start with that template's leading text, so their
   * LLM steps are named for condensation and tool selection and are kept.
   */
  lemma AppPromptsNamed(rest: string)
    ensures StartsWith(CondenseQuestionPrompt, "Given a conversation")
    ensures StartsWith(SingleSelectPrompt, "Some choices are given below")
    ensures LlmStepName("Given a conversation" + rest) == "LLM Conversation Condensation"
    ensures LlmStepName("Some choices are given below" + rest) == "LLM Tool Selection"
    ensures !ShouldRemove(LlmStepName("Given a conversation" + rest))
    ensures !ShouldRemove(LlmStepName("Some choices are given below" + rest))
  {
    var condense := "Given a conversation";
    var select := "Some choices are given below";
    assert (condense + rest)[..|condense|] == condense;
    assert (select + rest)[..|select|] == select;
    assert (select + rest)[..|condense|][0] == 'S';
    assert CondenseQuestionPrompt[..|condense|] == condense;
    assert SingleSelectPrompt[..|select|] == select;
  }

  /**
   * [source.score > 1 for source in sources]: the comparisons in order, or
   * the TypeError of a missing score.
   */
  function ScoresAboveOne(sources: seq<NodeWithScore>): (r: Option<seq<bool>>)
    ensures r.Some? <==> forall i :: 0 <= i < |sources| ==> sources[i].score.Scored?
    ensures r.Some? ==>
      (|r.value| == |sources|
       && forall i :: 0 <= i < |sources| ==> (r.value[i] <==> sources[i].score.value > 1.0))
  {
    if |sources| == 0 then Some([])
    else
      assert forall i :: 1 <= i < |sources| ==> sources[1..][i - 1] == sources[i];
      match sources[0].score
      case NoScore => None
      case Scored(v, _) =>
        var rest := ScoresAboveOne(sources[1..]);
        if rest.None? then None else Some([v > 1.0] + rest.value)
  }

  function Any(bs: seq<bool>): bool
  {
    |bs| > 0 && (bs[0] || Any(bs[1..]))
  }

  lemma {:induction false} AnySpec(bs: seq<bool>)
    ensures Any(bs) <==> exists i :: 0 <= i < |bs| && bs[i]
  {
    if |bs| > 0 {
      AnySpec(bs[1..]);
      assert forall i :: 1 <= i < |bs| ==> bs[1..][i - 1] == bs[i];
    }
  }

  /** The name of a retrieve step with these sources. */
  function RetrieveStepName(sources: seq<NodeWithScore>): Result<string, HandlerError>
  {
    match ScoresAboveOne(sources)
    case None => Err(TypeError)
    case Some(above) => Ok(if Any(above) then "BM25 Retrieval" else "Vector Retrieval")
  }

  /**
   * A retrieve step is named "BM25 Retrieval" exactly when some source
   * scores above 1, and "Vector Retrieval" otherwise; a missing score
   * raises.
   */
  lemma RetrieveStepNameSpec(sources: seq<NodeWithScore>)
    ensures RetrieveStepName(sources).Err? <==> exists i :: 0 <= i < |sources| && sources[i].score.NoScore?
    ensures RetrieveStepName(sources) == Ok("BM25 Retrieval") <==>
      (forall i :: 0 <= i < |sources| ==> sources[i].score.Scored?)
      && exists i :: 0 <= i < |sources| && sources[i].score.value > 1.0
    ensures RetrieveStepName(sources) == Ok("Vector Retrieval") <==>
      forall i :: 0 <= i < |sources| ==> sources[i].score.Scored? && sources[i].score.value <= 1.0
  {
    var r := ScoresAboveOne(sources);
    if r.Some? {
      AnySpec(r.value);
    }
  }

  /** "Fonte 0" .. "Fonte n-1": the handler numbers sources from 0. */
  function StepSourceLabels(n: nat): (r: seq<string>)
    ensures |r| == n && forall i :: 0 <= i < n ==> r[i] == "Fonte " + NatToString(i)
  {
    if n == 0 then [] else StepSourceLabels(n - 1) + ["Fonte " + NatToString(n - 1)]
  }

  function StepSourceRefs(n: nat): string
  {
    Join("\\, ", StepSourceLabels(n))
  }

  /** The handler's own format_source: every metadata entry, then the text. */
  function StepSourceText(node: TextNode): string
  {
    AllMetadataLines(node.metadata) + "\n\n**Text**\n" + node.text
  }

  function AllMetadataLines(items: Metadata): string
  {
    if |items| == 0 then ""
    else AllMetadataLines(items[..|items| - 1]) + "**" + items[|items| - 1].0 + "**: " + items[|items| - 1].1 + "\n"
  }

  /** The handler's format_source: output_str grows by += over every metadata item. */
  method FormatStepSource(node: TextNode) returns (output: string)
    ensures output == StepSourceText(node)
  {
    var items := node.metadata;
    output := "";
    for i := 0 to |items|
      invariant output == AllMetadataLines(items[..i])
    {
      assert items[..i + 1][..i] == items[..i];
      var (k, v) := items[i];
      output := output + "**" + k + "**: " + v + "\n";
    }
    assert items[..|items|] == items;
    output := output + "\n\n**Text**\n" + node.text;
  }

  /** The text always ends with the node text, so the 'Empty node' fallback never applies. */
  lemma StepSourceTextEnds(node: TextNode)
    ensures StepSourceText(node) != ""
    ensures StartsWith(StepSourceText(node)[|AllMetadataLines(node.metadata)|..], "\n\n**Text**\n")
  {
    var m := AllMetadataLines(node.metadata);
    var t := "\n\n**Text**\n";
    assert StepSourceText(node)[|m|..] == t + node.text;
    assert (t + node.text)[..|t|] == t;
  }

  function OrElse(s: string, fallback: string): string
  {
    if s != "" then s else fallback
  }

  function StepSourceElements(sources: seq<NodeWithScore>, display: Option<string>): (r: seq<StepElement>)
    ensures |r| == |sources|
    ensures forall i :: 0 <= i < |sources| ==>
      r[i] == StepElement("Fonte " + NatToString(i), OrElse(StepSourceText(sources[i].node), "Empty node"), display)
  {
    if |sources| == 0 then []
    else
      var n := |sources| - 1;
      StepSourceElements(sources[..n], display)
        + [StepElement("Fonte " + NatToString(n), OrElse(StepSourceText(sources[n].node), "Empty node"), display)]
  }

  /**
   * The step as on_event_end leaves it. `queryStrOf` stands for
   * json.loads(step.input)['query_str'], None when that raises.
   */
  function FinishStep(step: Step, e: EventType, p: Payload, queryStrOf: string -> Option<string>): Result<Step, HandlerError>
  {
    match e
    case Retrieve =>
      if |p.nodes| == 0 then Ok(step)
      else if RetrieveStepName(p.nodes).Err? then Err(RetrieveStepName(p.nodes).error)
      else
        Ok(step.(name := RetrieveStepName(p.nodes).value,
                 elements := StepSourceElements(p.nodes, None),
                 input := "**Input query**: " + OrElse(step.input, "Empty Input"),
                 output := "**Recuperate le seguenti fonti**: " + StepSourceRefs(|p.nodes|)))
    case Query =>
      if p.response.None? then Err(AttributeError)
      else if p.response.value.selection.Some? then
        var selection := p.response.value.selection.value;
        if queryStrOf(step.input).None? then Err(QueryStrError)
        else
        Ok(step.(input := "**Input query**: " + queryStrOf(step.input).value,
                 output := "**LLM Output**: Selecting query engine " + NatToString(selection.index + 1)
                           + ": " + selection.reason,
                 name := "Tool Selection"))
      else if |p.response.value.sourceNodes| == 0 then Ok(step)
      else
        var sources := p.response.value.sourceNodes;
        if queryStrOf(step.input).None? then Err(QueryStrError)
        else
        Ok(step.(elements := StepSourceElements(sources, None),
                 input := "**Input query for selected Tool**: " + queryStrOf(step.input).value,
                 output := "**Tool Sources**: " + StepSourceRefs(|sources|),
                 name := "Retrieval"))
    case Synthesize =>
      if p.response.None? then Ok(step)
      else if queryStrOf(step.input).None? then Err(QueryStrError)
      else Ok(step.(input := "Input query: " + queryStrOf(step.input).value, output := "Generata una risposta intermedia"))
    case SubQuestion =>
      if p.subQuestion.None? then Ok(step)
      else
        var sq := p.subQuestion.value;
        if queryStrOf(step.input).None? then Err(QueryStrError)
        else
        Ok(step.(input := "Input query: " + queryStrOf(step.input).value,
                 output := "Generata la seguente SubQuestion" + "\nIntermediate answer",
                 elements := [StepElement("SubQuestion", OrElse(sq.subQ, "Empty SubQuestion"), None),
                              StepElement("Intermediate Answer", OrElse(sq.answer, "Empty Answer"), None)]))
    case Llm =>
      if p.completion.None? then Ok(step)
      else if p.prompt.None? then Err(AttributeError)
      else
        var prompt := p.prompt.value;
        var text := p.completion.value;
        Ok(step.(name := LlmStepName(prompt),
                 input := "Input Prompt",
                 output := "LLM Output",
                 elements := [StepElement("Input Prompt", if prompt != "" then "```\n" + prompt + "\n```" else "Empty Prompt", None),
                              StepElement("LLM Output", if text != "" then "```\n" + text + "\n```" else "No Content", None)]))
    case Reranking =>
      if |p.nodes| == 0 then Ok(step)
      else
        Ok(step.(elements := StepSourceElements(p.nodes, Some("side")),
                 input := "**Input query**: " + OrElse(step.input, "Empty Input"),
                 output := "**Recuperate le seguenti fonti**: " + StepSourceRefs(|p.nodes|),
                 name := "Relevant Source Reranking"))
    case _ => Ok(step.(output := p.serialized))
  }

  /** The branches of on_event_end that decode the step input for its query_str. */
  predicate ReadsQueryStr(e: EventType, p: Payload)
  {
    (e == Query && p.response.Some? && (p.response.value.selection.Some? || |p.response.value.sourceNodes| > 0))
    || (e == Synthesize && p.response.Some?)
    || (e == SubQuestion && p.subQuestion.Some?)
  }

  /**
   * The registered step as an exception in on_event_end leaves it: the
   * query branch with sources assigns the elements before it decodes the
   * input; every other error is raised before the step is touched.
   */
  function StepOnError(step: Step, e: EventType, p: Payload): Step
  {
    if e == Query && p.response.Some? && p.response.value.selection.None? && |p.response.value.sourceNodes| > 0
    then step.(elements := StepSourceElements(p.response.value.sourceNodes, None))
    else step
  }

  /**
   * An error changes at most the step's elements, and only when decoding
   * fails after a query's sources were attached.
   */
  lemma StepOnErrorSpec(step: Step, e: EventType, p: Payload, queryStrOf: string -> Option<string>)
    requires FinishStep(step, e, p, queryStrOf).Err?
    ensures StepOnError(step, e, p).(elements := step.elements) == step
    ensures FinishStep(step, e, p, queryStrOf).error != QueryStrError ==> StepOnError(step, e, p) == step
    ensures (e == Query && FinishStep(step, e, p, queryStrOf).error == QueryStrError
             && p.response.Some? && p.response.value.selection.None?) ==>
      StepOnError(step, e, p).elements == StepSourceElements(p.response.value.sourceNodes, None)
  {
    if e == Query && p.response.Some? && p.response.value.selection.None? {
      assert |p.response.value.sourceNodes| > 0;
    }
  }

  /** No event type's own name is one that gets a step removed. */
  lemma EventNamesKept(e: EventType)
    ensures !ShouldRemove(EventValue(e))
  {
  }

  /** Finishing never changes a step's id, type or parent. */
  lemma FinishStepFrame(step: Step, e: EventType, p: Payload, queryStrOf: string -> Option<string>)
    ensures FinishStep(step, e, p, queryStrOf).Ok? ==>
      var s := FinishStep(step, e, p, queryStrOf).value;
      s.id == step.id && s.stepType == step.stepType && s.parentId == step.parentId
  {
    if e == Llm {
    } else if e == Retrieve {
    } else if e == Query {
    } else if e == Reranking {
    } else {
    }
  }

  /**
   * Finishing raises only on a retrieve with a missing score, a query
   * without response, a completion without prompt, or a step input whose
   * query_str cannot be read in a branch that reads it; the last is the
   * only source of QueryStrError.
   */
  lemma FinishStepErrors(step: Step, e: EventType, p: Payload, queryStrOf: string -> Option<string>)
    ensures FinishStep(step, e, p, queryStrOf).Err? <==>
      (e == Retrieve && |p.nodes| > 0 && RetrieveStepName(p.nodes).Err?) || (e == Query && p.response.None?)
      || (e == Llm && p.completion.Some? && p.prompt.None?)
      || (ReadsQueryStr(e, p) && queryStrOf(step.input).None?)
  {
    if e == Llm {
    } else if e == Retrieve {
    } else if e == Query {
    } else if e == Reranking {
    } else if e == Synthesize {
    } else if e == SubQuestion {
    } else {
    }
  }

  /** QueryStrError is raised exactly by a failed query_str read. */
  lemma FinishStepErrorKind(step: Step, e: EventType, p: Payload, queryStrOf: string -> Option<string>)
    ensures FinishStep(step, e, p, queryStrOf).Err? ==>
      (FinishStep(step, e, p, queryStrOf).error == QueryStrError <==> ReadsQueryStr(e, p) && queryStrOf(step.input).None?)
  {
    if e == Llm {
    } else if e == Retrieve {
    } else if e == Query {
    } else if e == Reranking {
    } else {
    }
  }

  /**
   * A step that started with its event's name ends up removed only for an
   * LLM event whose prompt is not one of the first two recognised kinds.
   */
  lemma FinishStepRemoval(step: Step, e: EventType, p: Payload, queryStrOf: string -> Option<string>)
    ensures (FinishStep(step, e, p, queryStrOf).Ok? && step.name == EventValue(e)
             && ShouldRemove(FinishStep(step, e, p, queryStrOf).value.name)) ==>
      (e == Llm && p.completion.Some? && p.prompt.Some? && ShouldRemove(LlmStepName(p.prompt.value))
       && !StartsWith(p.prompt.value, "Given a conversation")
       && !StartsWith(p.prompt.value, "Some choices are given below"))
  {
    EventNamesKept(e);
    if e == Llm {
      LlmRemoval(step, p, queryStrOf);
    } else if e == Retrieve {
      RetrieveKept(step, p, queryStrOf);
    } else if e == Query {
      QueryKept(step, p, queryStrOf);
    } else if e == Reranking {
      RerankingKept(step, p, queryStrOf);
    } else {
      var r := FinishStep(step, e, p, queryStrOf);
      if r.Ok? {
        assert r.value.name == step.name;
      }
    }
  }

  lemma LlmRemoval(step: Step, p: Payload, queryStrOf: string -> Option<string>)
    ensures (FinishStep(step, Llm, p, queryStrOf).Ok? && step.name == EventValue(Llm)
             && ShouldRemove(FinishStep(step, Llm, p, queryStrOf).value.name)) ==>
      (p.completion.Some? && p.prompt.Some? && ShouldRemove(LlmStepName(p.prompt.value))
       && !StartsWith(p.prompt.value, "Given a conversation")
       && !StartsWith(p.prompt.value, "Some choices are given below"))
  {
    EventNamesKept(Llm);
    if p.completion.Some? && p.prompt.Some? {
      var prompt := p.prompt.value;
      assert FinishStep(step, Llm, p, queryStrOf).value.name == LlmStepName(prompt);
      if StartsWith(prompt, "Given a conversation") {
        assert LlmStepName(prompt) == "LLM Conversation Condensation";
      } else if StartsWith(prompt, "Some choices are given below") {
        assert LlmStepName(prompt) == "LLM Tool Selection";
      }
    }
  }

  lemma RetrieveKept(step: Step, p: Payload, queryStrOf: string -> Option<string>)
    ensures (FinishStep(step, Retrieve, p, queryStrOf).Ok? && step.name == EventValue(Retrieve)) ==>
      !ShouldRemove(FinishStep(step, Retrieve, p, queryStrOf).value.name)
  {
    EventNamesKept(Retrieve);
    var r := FinishStep(step, Retrieve, p, queryStrOf);
    if r.Ok? && |p.nodes| > 0 {
      assert r.value.name in {"BM25 Retrieval", "Vector Retrieval"};
      assert !ShouldRemove("BM25 Retrieval") && !ShouldRemove("Vector Retrieval");
    }
  }

  lemma QueryKept(step: Step, p: Payload, queryStrOf: string -> Option<string>)
    ensures (FinishStep(step, Query, p, queryStrOf).Ok? && step.name == EventValue(Query)) ==>
      !ShouldRemove(FinishStep(step, Query, p, queryStrOf).value.name)
  {
    EventNamesKept(Query);
    var r := FinishStep(step, Query, p, queryStrOf);
    if r.Ok? {
      assert r.value.name in {"Tool Selection", "Retrieval", step.name};
      assert !ShouldRemove("Tool Selection") && !ShouldRemove("Retrieval");
    }
  }

  lemma RerankingKept(step: Step, p: Payload, queryStrOf: string -> Option<string>)
    ensures (FinishStep(step, Reranking, p, queryStrOf).Ok? && step.name == EventValue(Reranking)) ==>
      !ShouldRemove(FinishStep(step, Reranking, p, queryStrOf).value.name)
  {
    EventNamesKept(Reranking);
    var r := FinishStep(step, Reranking, p, queryStrOf);
    assert r.value.name in {"Relevant Source Reranking", step.name};
    assert !ShouldRemove("Relevant Source Reranking");
  }

  /**
   * Finishing never changes a step's id, type or parent; it only errs on a
   * retrieve with a missing score, a query without response, a completion
   * without prompt or an unreadable query_str; and a step that started with its event's name ends up
   * removed only for an LLM event whose prompt is not one of the first two
   * recognised kinds.
   */
  lemma FinishStepSpec(step: Step, e: EventType, p: Payload, queryStrOf: string -> Option<string>)
    ensures FinishStep(step, e, p, queryStrOf).Ok? ==>
      var s := FinishStep(step, e, p, queryStrOf).value;
      s.id == step.id && s.stepType == step.stepType && s.parentId == step.parentId
    ensures FinishStep(step, e, p, queryStrOf).Err? <==>
      (e == Retrieve && |p.nodes| > 0 && RetrieveStepName(p.nodes).Err?) || (e == Query && p.response.None?)
      || (e == Llm && p.completion.Some? && p.prompt.None?)
      || (ReadsQueryStr(e, p) && queryStrOf(step.input).None?)
    ensures FinishStep(step, e, p, queryStrOf).Err? ==>
      (FinishStep(step, e, p, queryStrOf).error == QueryStrError <==> ReadsQueryStr(e, p) && queryStrOf(step.input).None?)
    ensures (FinishStep(step, e, p, queryStrOf).Ok? && step.name == EventValue(e)
             && ShouldRemove(FinishStep(step, e, p, queryStrOf).value.name)) ==>
      (e == Llm && p.completion.Some? && p.prompt.Some? && ShouldRemove(LlmStepName(p.prompt.value))
       && !StartsWith(p.prompt.value, "Given a conversation")
       && !StartsWith(p.prompt.value, "Some choices are given below"))
  {
    FinishStepFrame(step, e, p, queryStrOf);
    FinishStepErrors(step, e, p, queryStrOf);
    FinishStepErrorKind(step, e, p, queryStrOf);
    FinishStepRemoval(step, e, p, queryStrOf);
  }

  /**
   * The handler: the registry of open steps, keyed by event id, and the UI
   * actions scheduled so far.
   */
  class CallbackHandler {
    const context: Context
    var steps: map<string, Step>
    var actions: seq<StepAction>

    /** Every open step is registered under its own id. */
    predicate Valid()
      reads this
    {
      forall k :: k in steps ==> steps[k].id == k
    }

    constructor (context: Context)
      ensures this.context == context && steps == map[] && actions == []
      ensures Valid()
    {
      this.context := context;
      steps := map[];
      actions := [];
    }

    /**
     * on_event_start: an untracked event leaves everything alone. A tracked
     * one registers a new step (named after the event, parented by
     * _get_parent_id) before its input is read; a retrieve or rerank event
     * without payload then raises. The event id is returned otherwise.
     */
    method OnEventStart(eventType: EventType, payload: Option<Payload>, eventId: string, parentId: string)
      returns (r: Result<string, HandlerError>)
      requires Valid()
      modifies this
      ensures Valid()
      ensures r.Ok? ==> r.value == eventId
      ensures StepTypeOf(eventType).None? ==>
        r == Ok(eventId) && steps == old(steps) && actions == old(actions)
      ensures StepTypeOf(eventType).Some? ==>
        var step := Step(EventValue(eventType), StepTypeOf(eventType).value,
                         ParentId(parentId, old(steps), context), eventId, "", "", []);
        match StartInput(eventType, payload)
        case Err(err) => r == Err(err) && steps == old(steps)[eventId := step] && actions == old(actions)
        case Ok(input) =>
          r == Ok(eventId) && steps == old(steps)[eventId := step.(input := input)]
          && actions == old(actions) + [Send(step.(input := input))]
    {
      var stepType := StepTypeOf(eventType);
      if stepType.None? {
        return Ok(eventId);
      }
      var step := Step(EventValue(eventType), stepType.value, ParentId(parentId, steps, context), eventId, "", "", []);
      steps := steps[eventId := step];
      var input := StartInput(eventType, payload);
      if input.Err? {
        return Err(input.error);
      }
      step := step.(input := input.value);
      steps := steps[eventId := step];
      actions := actions + [Send(step)];
      r := Ok(eventId);
    }

    /**
     * on_event_end: without payload or for an unknown id nothing changes.
     * Otherwise the finished step is updated in the UI, or removed for the
     * two discarded LLM names, and dropped from the registry; other steps
     * stay as they were.
     */
    method OnEventEnd(eventType: EventType, payload: Option<Payload>, eventId: string, queryStrOf: string -> Option<string>)
      returns (r: Result<(), HandlerError>)
      requires Valid()
      modifies this
      ensures Valid()
      ensures payload.None? || eventId !in old(steps) ==>
        r == Ok(()) && steps == old(steps) && actions == old(actions)
      ensures payload.Some? && eventId in old(steps) ==>
        match FinishStep(old(steps)[eventId], eventType, payload.value, queryStrOf)
        case Err(err) =>
          r == Err(err) && steps == old(steps)[eventId := StepOnError(old(steps)[eventId], eventType, payload.value)]
          && actions == old(actions)
        case Ok(step) =>
          r == Ok(()) && steps == old(steps) - {eventId}
          && actions == old(actions) + [if ShouldRemove(step.name) then Remove(step) else Update(step)]
    ensures actions != old(actions) ==>
      eventId in old(steps) && |actions| == |old(actions)| + 1
      && actions[|old(actions)|].step.id == eventId
      && actions[|old(actions)|].step.parentId == old(steps)[eventId].parentId
    {
      if payload.None? || eventId !in steps {
        return Ok(());
      }
      var finished := FinishStep(steps[eventId], eventType, payload.value, queryStrOf);
      if finished.Err? {
        steps := steps[eventId := StepOnError(steps[eventId], eventType, payload.value)];
        return Err(finished.error);
      }
      FinishStepFrame(steps[eventId], eventType, payload.value, queryStrOf);
      var step := finished.value;
      if ShouldRemove(step.name) {
        actions := actions + [Remove(step)];
      } else {
        actions := actions + [Update(step)];
      }
      steps := steps - {eventId};
      r := Ok(());
    }
  }
}
