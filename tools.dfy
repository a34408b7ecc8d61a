/**
 * The query-engine tools the router chooses between, as configuration
 * values: what each tool is called, how it is described to the selector,
 * and how its engine is set up. The library classes that run these
 * configurations are foreign.
 */
module Tools {

  import opened Nodes

  /** A Chroma-backed vector index, identified by its collection. */
  datatype VectorIndex = VectorIndex(collection: string)

  datatype QueryMode = DefaultQueryMode

  datatype ResponseMode = Compact

  /** get_response_synthesizer(...) as configured by the application. */
  datatype SynthesizerConfig = SynthesizerConfig(mode: ResponseMode, verbose: bool, streaming: bool, useAsync: bool)

  /** VectorIndexRetriever(index=..., similarity_top_k=..., vector_store_query_mode=...) */
  datatype VectorRetrieverConfig = VectorRetrieverConfig(index: VectorIndex, similarityTopK: nat, mode: QueryMode)

  /** BM25Retriever(nodes=..., stemmer=Stemmer(...), similarity_top_k=..., language=...) */
  datatype Bm25Config = Bm25Config(nodes: seq<TextNode>, stemmerLanguage: string, language: string, similarityTopK: nat, verbose: bool)

  /** LLMRerank(choice_batch_size=..., top_n=...) with the logging answer parser. */
  datatype RerankConfig = RerankConfig(choiceBatchSize: nat, topN: nat)

  /** The three engines that answer without retrieval. */
  datatype CannedKind = ProblemsReporting | GeneralInteraction | ChatbotInfo

  datatype Engine =
    | RetrieverQueryEngine(vector: VectorRetrieverConfig, bm25: Bm25Config, rerank: RerankConfig, synthesizer: SynthesizerConfig)
      /** A CustomQueryEngine built with retriever=None and response_synthesizer=None. */
    | CannedEngine(kind: CannedKind)

  /** QueryEngineTool.from_defaults(query_engine=..., description=..., name=...) */
  datatype Tool = Tool(name: string, description: string, engine: Engine)

  function Names(tools: seq<Tool>): seq<string>
  {
    if |tools| == 0 then [] else [tools[0].name] + Names(tools[1..])
  }

  lemma {:induction false} NamesAt(tools: seq<Tool>)
    ensures |Names(tools)| == |tools|
    ensures forall i :: 0 <= i < |tools| ==> Names(tools)[i] == tools[i].name
  {
    if |tools| > 0 {
      NamesAt(tools[1..]);
    }
  }

  predicate Distinct(s: seq<string>)
  {
    forall i, j :: 0 <= i < j < |s| ==> s[i] != s[j]
  }
}
