/**
 * load_chat_engine (app/chat_engine/load_chat_engine.py): import the tool
 * builders, build the tools, and configure the router and the condensing
 * chat engine around them. The router, the selector, the synthesizer and
 * the memory buffer are library classes; here they are configuration.
 */
module ChatEngine {

  import opened Wrappers
  import opened Text
  import opened Nodes
  import opened Prompts
  import opened Tools
  import opened SemanticSearchTool
  import opened GeneralInteractionTool

  datatype LoadError = ImportError(name: string) | KeyError(key: string)

  /** SentenceSplitter(...) installed as the global node parser. */
  datatype NodeParserConfig = SentenceSplitter(
    separator: string, chunkSize: nat, chunkOverlap: nat, paragraphSeparator: string,
    secondaryChunkingRegex: string, includeMetadata: bool, includePrevNextRel: bool)

  const NodeParser: NodeParserConfig := SentenceSplitter(" ", 256, 0, "\n", "[^.]+[.]?", true, true)

  const MemoryTokenLimit: nat := 1024

  datatype SelectorConfig = LlmSingleSelector(promptTemplate: string)

  datatype RouterConfig = RouterQueryEngine(selector: SelectorConfig, summarizer: SynthesizerConfig, tools: seq<Tool>)

  datatype MemoryConfig = ChatMemoryBuffer(chatHistory: seq<ChatMessage>, tokenLimit: nat)

  datatype ChatEngineConfig = CondenseQuestionChatEngine(
    queryEngine: RouterConfig, condenseQuestionPrompt: string, memory: MemoryConfig,
    streaming: bool, useAsync: bool, verbose: bool, nodeParser: NodeParserConfig)

  /**
   * `from module import (names)`, where `defined` is the module's namespace:
   * the builders in order, or the ImportError of the first name the module
   * does not define.
   */
  function ImportBuilders(defined: string -> Option<Tool>, names: seq<string>): (r: Result<seq<Tool>, LoadError>)
    ensures r.Ok? <==> forall i :: 0 <= i < |names| ==> defined(names[i]).Some?
    ensures r.Ok? ==>
      (|r.value| == |names| && forall i :: 0 <= i < |names| ==> defined(names[i]) == Some(r.value[i]))
    ensures r.Err? ==>
      (exists i :: 0 <= i < |names| && r.error == ImportError(names[i])
         && defined(names[i]) == None
         && forall k :: 0 <= k < i ==> defined(names[k]).Some?)
  {
    if |names| == 0 then Ok([])
    else
      match defined(names[0])
      case None => Err(ImportError(names[0]))
      case Some(t) =>
        var rest := ImportBuilders(defined, names[1..]);
        assert forall i :: 1 <= i < |names| ==> names[1..][i - 1] == names[i];
        if rest.Err? then Err(rest.error) else Ok([t] + rest.value)
  }

  /** The builders load_chat_engine.py imports, in the order written. */
  const ImportedBuildersAsWritten: seq<string> := [
    "build_AssetMappingQueryEngine",
    "build_ProblemsReportingQueryEngine",
    "build_GeneralInteractionQueryEngine",
    "build_ChatbotInfoQueryEngine"
  ]

  /** The builders that exist, without the asset-mapping one. */
  const ImportedBuilders: seq<string> := ImportedBuildersAsWritten[1..]

  /** list(semantic_search_query_engine_tools.values()) */
  function Values(entries: seq<(string, Tool)>): (r: seq<Tool>)
    ensures |r| == |entries| && forall i :: 0 <= i < |entries| ==> r[i] == entries[i].1
  {
    if |entries| == 0 then [] else [entries[0].1] + Values(entries[1..])
  }

  /**
   * The router's tool list: the semantic tools, then the imported
   * builders' tools in import order (as written: asset_mapping,
   * problems_reporting, general_interaction and chatbot_info).
   */
  function RouterToolList(semantic: seq<(string, Tool)>, builders: seq<Tool>): seq<Tool>
  {
    Values(semantic) + builders
  }

  /**
   * The tool count is the number of collections plus the number of
   * builders; the semantic tools come first in dictionary order, then the
   * builders' tools in import order.
   */
  lemma RouterToolListShape(semantic: seq<(string, Tool)>, builders: seq<Tool>)
    ensures |RouterToolList(semantic, builders)| == |semantic| + |builders|
    ensures forall i :: 0 <= i < |semantic| ==> RouterToolList(semantic, builders)[i] == semantic[i].1
    ensures RouterToolList(semantic, builders)[|semantic|..] == builders
  {
    var r := RouterToolList(semantic, builders);
    assert r[|semantic|..] == builders;
  }

  function Configure(tools: seq<Tool>): ChatEngineConfig
  {
    CondenseQuestionChatEngine(
      RouterQueryEngine(LlmSingleSelector(SingleSelectPrompt), SynthesizerConfig(Compact, true, true, false), tools),
      CondenseQuestionPrompt,
      ChatMemoryBuffer([], MemoryTokenLimit),
      true, false, true, NodeParser)
  }

  /**
   * load_chat_engine as written: the import of the asset-mapping builder
   * is resolved when the module loads, before any tool is built.
   */
  function LoadChatEngineAsWritten(nodes: map<string, seq<TextNode>>, vectorIndices: seq<(string, VectorIndex)>)
    : Result<ChatEngineConfig, LoadError>
  {
    match ImportBuilders(ModuleBuilder, ImportedBuildersAsWritten)
    case Err(e) => Err(e)
    case Ok(builders) =>
      match SemanticTools(nodes, vectorIndices)
      case Err(key) => Err(KeyError(key))
      case Ok(semantic) => Ok(Configure(RouterToolList(semantic, builders)))
  }

  /** As written, loading the chat engine always fails on the missing builder. */
  lemma LoadChatEngineAsWrittenFails(nodes: map<string, seq<TextNode>>, vectorIndices: seq<(string, VectorIndex)>)
    ensures LoadChatEngineAsWritten(nodes, vectorIndices) == Err(ImportError("build_AssetMappingQueryEngine"))
  {
    ModuleBuilders("build_AssetMappingQueryEngine");
    var r := ImportBuilders(ModuleBuilder, ImportedBuildersAsWritten);
    assert ModuleBuilder(ImportedBuildersAsWritten[0]) == None;
    assert r.Err?;
  }

  /** load_chat_engine without the asset-mapping tool, which is not available. */
  function LoadChatEngine(nodes: map<string, seq<TextNode>>, vectorIndices: seq<(string, VectorIndex)>)
    : Result<ChatEngineConfig, LoadError>
  {
    match ImportBuilders(ModuleBuilder, ImportedBuilders)
    case Err(e) => Err(e)
    case Ok(builders) =>
      match SemanticTools(nodes, vectorIndices)
      case Err(key) => Err(KeyError(key))
      case Ok(semantic) => Ok(Configure(RouterToolList(semantic, builders)))
  }

  /** The three canned tools, in the order the router lists them. */
  function CannedTools(): seq<Tool>
  {
    [CannedTool(ProblemsReporting), CannedTool(GeneralInteraction), CannedTool(ChatbotInfo)]
  }

  /** Every builder that is imported exists. */
  lemma ImportedBuildersResolve()
    ensures ImportBuilders(ModuleBuilder, ImportedBuilders) == Ok(CannedTools())
  {
    var names := ImportedBuilders;
    assert names == ["build_ProblemsReportingQueryEngine", "build_GeneralInteractionQueryEngine", "build_ChatbotInfoQueryEngine"];
    assert ModuleBuilder(names[0]) == Some(CannedTool(ProblemsReporting));
    assert ModuleBuilder(names[1]) == Some(CannedTool(GeneralInteraction));
    assert ModuleBuilder(names[2]) == Some(CannedTool(ChatbotInfo));
    var r := ImportBuilders(ModuleBuilder, names);
    assert r.Ok?;
    assert r.value == CannedTools();
  }

  /** A semantic-search tool name is never a canned tool name. */
  lemma SemanticNameNotCanned(key: string, kind: CannedKind)
    ensures ToolName(key) != CannedTool(kind).name
  {
    CannedNamesDistinct(kind, kind);
    assert ToolName(key)[..|NamePrefix|] == NamePrefix;
  }

  /** The names of the three canned tools. */
  function CannedNames(): seq<string>
  {
    [CannedName(ProblemsReporting), CannedName(GeneralInteraction), CannedName(ChatbotInfo)]
  }

  lemma {:induction false} NamesAppend(a: seq<Tool>, b: seq<Tool>)
    ensures Names(a + b) == Names(a) + Names(b)
  {
    if |a| == 0 {
      assert a + b == b;
    } else {
      assert (a + b)[1..] == a[1..] + b;
      NamesAppend(a[1..], b);
    }
  }

  /** Semantic-search names, distinct among themselves, stay distinct beside the canned names. */
  lemma RegistryNamesDistinct(semanticNames: seq<string>, keys: seq<string>)
    requires |semanticNames| == |keys|
    requires forall i :: 0 <= i < |semanticNames| ==> semanticNames[i] == ToolName(keys[i])
    requires Distinct(semanticNames)
    ensures Distinct(semanticNames + CannedNames())
  {
    var kinds := [ProblemsReporting, GeneralInteraction, ChatbotInfo];
    var canned := CannedNames();
    var all := semanticNames + canned;
    var n := |semanticNames|;
    forall i, j | 0 <= i < j < |all| ensures all[i] != all[j] {
      if j < n {
        assert all[i] == semanticNames[i] && all[j] == semanticNames[j];
      } else if i < n {
        assert all[j] == CannedTool(kinds[j - n]).name;
        SemanticNameNotCanned(keys[i], kinds[j - n]);
      } else {
        assert all[i] == CannedTool(kinds[i - n]).name && all[j] == CannedTool(kinds[j - n]).name;
        CannedNamesDistinct(kinds[i - n], kinds[j - n]);
      }
    }
  }

  /**
   * Loading succeeds exactly when every collection has nodes, and fails
   * with the KeyError of the first one that has none. The router then has
   * one semantic tool per collection, in order, followed by the three
   * canned tools; every tool name is distinct; the router selects one tool
   * with SINGLE_SELECT_PROMPT; the memory starts empty with a 1024-token
   * limit and questions are condensed with CONDENSE_QUESTION_PROMPT.
   */
  lemma LoadChatEngineSpec(nodes: map<string, seq<TextNode>>, vectorIndices: seq<(string, VectorIndex)>)
    requires DistinctKeys(vectorIndices)
    ensures LoadChatEngine(nodes, vectorIndices).Ok? <==>
      forall k :: 0 <= k < |vectorIndices| ==> vectorIndices[k].0 in nodes
    ensures LoadChatEngine(nodes, vectorIndices).Err? ==>
      exists j :: 0 <= j < |vectorIndices| && LoadChatEngine(nodes, vectorIndices).error == KeyError(vectorIndices[j].0)
        && vectorIndices[j].0 !in nodes && forall k :: 0 <= k < j ==> vectorIndices[k].0 in nodes
    ensures LoadChatEngine(nodes, vectorIndices).Ok? ==>
      var e := LoadChatEngine(nodes, vectorIndices).value;
      var tools := e.queryEngine.tools;
      |tools| == |vectorIndices| + 3
      && (forall k :: 0 <= k < |vectorIndices| ==>
            tools[k] == SemanticTool(vectorIndices[k].0, vectorIndices[k].1, nodes[vectorIndices[k].0]))
      && tools[|vectorIndices|..] == CannedTools()
      && Distinct(Names(tools))
      && e.queryEngine.selector == LlmSingleSelector(SingleSelectPrompt)
      && e.memory == ChatMemoryBuffer([], 1024)
      && e.condenseQuestionPrompt == CondenseQuestionPrompt
      && e.streaming && !e.useAsync
  {
    ImportedBuildersResolve();
    SemanticToolsSpec(nodes, vectorIndices);
    var s := SemanticTools(nodes, vectorIndices);
    if s.Ok? {
      LoadedTools(nodes, vectorIndices);
      assert LoadChatEngine(nodes, vectorIndices) == Ok(Configure(Values(s.value) + CannedTools()));
    }
  }

  /**
   * The router's tools after a successful build: the semantic tools in
   * collection order, then the canned tools, all names distinct.
   */
  lemma LoadedTools(nodes: map<string, seq<TextNode>>, vectorIndices: seq<(string, VectorIndex)>)
    requires DistinctKeys(vectorIndices)
    requires SemanticTools(nodes, vectorIndices).Ok?
    ensures var tools := Values(SemanticTools(nodes, vectorIndices).value) + CannedTools();
      |tools| == |vectorIndices| + 3
      && (forall k :: 0 <= k < |vectorIndices| ==>
            vectorIndices[k].0 in nodes
            && tools[k] == SemanticTool(vectorIndices[k].0, vectorIndices[k].1, nodes[vectorIndices[k].0]))
      && tools[|vectorIndices|..] == CannedTools()
      && Distinct(Names(tools))
  {
    SemanticToolsSpec(nodes, vectorIndices);
    SemanticToolNamesDistinct(nodes, vectorIndices);
    var entries := SemanticTools(nodes, vectorIndices).value;
    var keys := seq(|vectorIndices|, i requires 0 <= i < |vectorIndices| => vectorIndices[i].0);
    EntriesThenCanned(entries, keys);
  }

  /** Tool entries named after distinct keys, followed by the canned tools. */
  lemma EntriesThenCanned(entries: seq<(string, Tool)>, keys: seq<string>)
    requires |entries| == |keys|
    requires forall k :: 0 <= k < |entries| ==> entries[k].1.name == ToolName(keys[k])
    requires forall i, j :: 0 <= i < j < |entries| ==> entries[i].1.name != entries[j].1.name
    ensures var tools := Values(entries) + CannedTools();
      |tools| == |entries| + 3
      && (forall k :: 0 <= k < |entries| ==> tools[k] == entries[k].1)
      && tools[|entries|..] == CannedTools()
      && Distinct(Names(tools))
  {
    var semantic := Values(entries);
    NamesAt(semantic);
    RegistryNamesDistinct(Names(semantic), keys);
    NamesAppend(semantic, CannedTools());
    assert Names(CannedTools()) == CannedNames();
    assert (semantic + CannedTools())[|entries|..] == CannedTools();
  }
}
