/**
 * app/chat_engine/GeneralInteractionQE/GeneralInteractionQETool.py: three
 * builders, each wrapping a canned engine (built without retriever and
 * without synthesizer) in a tool named after its description key.
 */
module GeneralInteractionTool {

  import opened Wrappers
  import opened Text
  import opened Prompts
  import opened Tools

  /** The name, and TOOL_DESCRIPTIONS key, of each canned engine's tool. */
  function CannedName(kind: CannedKind): string
  {
    match kind
    case ProblemsReporting => "problems_reporting"
    case GeneralInteraction => "general_interaction"
    case ChatbotInfo => "chatbot_info"
  }

  /** The tool a builder returns: its description is looked up under its own name. */
  function CannedTool(kind: CannedKind): (t: Tool)
    ensures t.name in ToolDescriptions && t.description == ToolDescriptions[t.name]
    ensures t.engine == CannedEngine(kind)
  {
    Tool(CannedName(kind), ToolDescriptions[CannedName(kind)], CannedEngine(kind))
  }

  function BuildProblemsReportingQueryEngine(): (t: Tool)
    ensures t == CannedTool(ProblemsReporting)
  {
    Tool("problems_reporting", ToolDescriptions["problems_reporting"], CannedEngine(ProblemsReporting))
  }

  function BuildGeneralInteractionQueryEngine(): (t: Tool)
    ensures t == CannedTool(GeneralInteraction)
  {
    Tool("general_interaction", ToolDescriptions["general_interaction"], CannedEngine(GeneralInteraction))
  }

  function BuildChatbotInfoQueryEngine(): (t: Tool)
    ensures t == CannedTool(ChatbotInfo)
  {
    Tool("chatbot_info", ToolDescriptions["chatbot_info"], CannedEngine(ChatbotInfo))
  }

  /** The names the module defines, each with the tool its builder returns. */
  function ModuleBuilder(name: string): Option<Tool>
  {
    if name == "build_ProblemsReportingQueryEngine" then Some(BuildProblemsReportingQueryEngine())
    else if name == "build_GeneralInteractionQueryEngine" then Some(BuildGeneralInteractionQueryEngine())
    else if name == "build_ChatbotInfoQueryEngine" then Some(BuildChatbotInfoQueryEngine())
    else None
  }

  /**
   * Exactly three builders exist, one per canned engine; there is no
   * asset-mapping builder.
   */
  lemma ModuleBuilders(name: string)
    ensures ModuleBuilder(name).Some? <==>
      name in {"build_ProblemsReportingQueryEngine", "build_GeneralInteractionQueryEngine", "build_ChatbotInfoQueryEngine"}
    ensures ModuleBuilder(name).Some? ==> ModuleBuilder(name).value.engine.CannedEngine?
    ensures ModuleBuilder("build_AssetMappingQueryEngine") == None
  {
  }

  /**
   * The canned tool names are pairwise distinct, none is a semantic-search
   * name, and none is asset_mapping.
   */
  lemma CannedNamesDistinct(a: CannedKind, b: CannedKind)
    ensures CannedTool(a).name == CannedTool(b).name ==> a == b
    ensures !StartsWith(CannedTool(a).name, "semantic_search_")
    ensures CannedTool(a).name != "asset_mapping"
  {
    var n := CannedTool(a).name;
    assert n[0] != 's';
  }
}
