/**
 * build_SemanticSearchQETool (app/chat_engine/SemanticSearchQE/SemanticSearchQETool.py):
 * one hybrid-retrieval tool per vector collection, named after the
 * collection key and described with its title-cased display name.
 */
module SemanticSearchTool {

  import opened Wrappers
  import opened Text
  import opened Nodes
  import opened Prompts
  import opened Tools
  import HybridRetriever

  /** similarity_top_k of both retrievers. */
  const SimilarityTopK: nat := 10
  /** choice_batch_size of the reranker. */
  const RerankBatchSize: nat := 20
  /** top_n of the reranker. */
  const RerankTopN: nat := 10

  const NamePrefix: string := "semantic_search_"

  /** [c.capitalize() for c in parts] */
  function CapitalizeAll(parts: seq<string>): (r: seq<string>)
    ensures |r| == |parts|
    ensures forall i :: 0 <= i < |parts| ==> r[i] == Capitalize(parts[i])
  {
    if |parts| == 0 then [] else [Capitalize(parts[0])] + CapitalizeAll(parts[1..])
  }

  /** " ".join([c.capitalize() for c in key_name.split("_")]) */
  function DisplayName(key: string): string
  {
    Join(" ", CapitalizeAll(Split(key, '_')))
  }

  /**
   * The character-by-character reading of the display name: an underscore
   * becomes a space, a letter at the start of a word is upper-cased and
   * every other letter lower-cased.
   */
  function DisplayChars(key: string, atWordStart: bool): string
  {
    if |key| == 0 then ""
    else if key[0] == '_' then " " + DisplayChars(key[1..], true)
    else [if atWordStart then Upper(key[0]) else Lower(key[0])] + DisplayChars(key[1..], false)
  }

  lemma {:induction false} DisplayCharsSplit(s: string, atWordStart: bool)
    ensures DisplayChars(s, atWordStart) ==
      Join(" ", [if atWordStart then Capitalize(Split(s, '_')[0]) else LowerAll(Split(s, '_')[0])]
                + CapitalizeAll(Split(s, '_')[1..]))
  {
    if |s| > 0 {
      var rest := Split(s[1..], '_');
      if s[0] == '_' {
        DisplayCharsSplit(s[1..], true);
        assert CapitalizeAll(rest) == [Capitalize(rest[0])] + CapitalizeAll(rest[1..]);
        assert Split(s, '_') == [""] + rest;
        assert (["" ] + CapitalizeAll(rest))[1..] == CapitalizeAll(rest);
      } else {
        DisplayCharsSplit(s[1..], false);
        var w := [s[0]] + rest[0];
        assert Split(s, '_') == [w] + rest[1..];
        assert w[1..] == rest[0];
        var c := if atWordStart then Upper(s[0]) else Lower(s[0]);
        assert (if atWordStart then Capitalize(w) else LowerAll(w)) == [c] + LowerAll(rest[0]);
        JoinHead(" ", [c], [LowerAll(rest[0])] + CapitalizeAll(rest[1..]));
      }
    }
  }

  /** The joined, capitalized pieces are the character-level reading. */
  lemma DisplayNameIsDisplayChars(key: string)
    ensures DisplayName(key) == DisplayChars(key, true)
  {
    var parts := Split(key, '_');
    DisplayCharsSplit(key, true);
    assert CapitalizeAll(parts) == [Capitalize(parts[0])] + CapitalizeAll(parts[1..]);
  }

  /** The display character at position i of key. */
  function DisplayCharAt(key: string, i: nat, atWordStart: bool): char
    requires i < |key|
  {
    if key[i] == '_' then ' '
    else if (if i == 0 then atWordStart else key[i - 1] == '_') then Upper(key[i])
    else Lower(key[i])
  }

  lemma {:induction false} DisplayCharsAt(key: string, atWordStart: bool)
    ensures |DisplayChars(key, atWordStart)| == |key|
    ensures forall i :: 0 <= i < |key| ==> DisplayChars(key, atWordStart)[i] == DisplayCharAt(key, i, atWordStart)
  {
    if |key| > 0 {
      var t := key[1..];
      DisplayCharsAt(t, key[0] == '_');
      forall i | 0 < i < |key|
        ensures DisplayChars(key, atWordStart)[i] == DisplayCharAt(key, i, atWordStart)
      {
        assert DisplayChars(key, atWordStart)[i] == DisplayChars(t, key[0] == '_')[i - 1];
        assert t[i - 1] == key[i];
        if i > 1 {
          assert t[i - 2] == key[i - 1];
        }
      }
    }
  }

  /**
   * The display name has the key's length; each underscore becomes a space,
   * the first letter of each word is upper case and the others lower case.
   */
  lemma DisplayNameAt(key: string)
    ensures |DisplayName(key)| == |key|
    ensures forall i :: 0 <= i < |key| ==>
      DisplayName(key)[i] == (if key[i] == '_' then ' '
                              else if i == 0 || key[i - 1] == '_' then Upper(key[i])
                              else Lower(key[i]))
  {
    DisplayNameIsDisplayChars(key);
    DisplayCharsAt(key, true);
    forall i | 0 <= i < |key|
      ensures DisplayName(key)[i] == (if key[i] == '_' then ' '
                                      else if i == 0 || key[i - 1] == '_' then Upper(key[i])
                                      else Lower(key[i]))
    {
      assert DisplayName(key)[i] == DisplayCharAt(key, i, true);
    }
  }

  /**
   * TOOL_DESCRIPTIONS["semantic_search"].format(key_name=DisplayName(key)):
   * the template's one field is key_name, so formatting succeeds.
   */
  function Description(key: string): (r: string)
    ensures FormatNamed(SemanticSearchTemplate, "key_name", DisplayName(key)) == Some(r)
    ensures r == SemanticSearchHead + DisplayName(key) + SemanticSearchTail
  {
    SemanticSearchTemplateShape(DisplayName(key));
    FormatNamed(SemanticSearchTemplate, "key_name", DisplayName(key)).value
  }

  /** f"semantic_search_{key_name}" */
  function ToolName(key: string): string
  {
    NamePrefix + key
  }

  /** Tool names determine the collection key. */
  lemma ToolNameInjective(a: string, b: string)
    requires ToolName(a) == ToolName(b)
    ensures a == b
  {
    assert a == ToolName(a)[|NamePrefix|..];
    assert b == ToolName(b)[|NamePrefix|..];
  }

  /** The tool of one collection: both retrievers read the collection's key. */
  function SemanticTool(key: string, index: VectorIndex, keyNodes: seq<TextNode>): Tool
  {
    Tool(
      ToolName(key),
      Description(key),
      RetrieverQueryEngine(
        VectorRetrieverConfig(index, SimilarityTopK, DefaultQueryMode),
        Bm25Config(keyNodes, "italian", "italian", SimilarityTopK, true),
        RerankConfig(RerankBatchSize, RerankTopN),
        SynthesizerConfig(Compact, true, true, false)))
  }

  /**
   * The tool of a collection is named after its key, described with the
   * key's display name, and both of its retrievers read that collection:
   * the vector index and the BM25 nodes given for the key, ten results
   * each; the reranker takes one batch of 20 and keeps at most 10; the
   * synthesizer is compact, streaming and synchronous.
   */
  lemma SemanticToolConfig(key: string, index: VectorIndex, keyNodes: seq<TextNode>)
    ensures var t := SemanticTool(key, index, keyNodes);
      StartsWith(t.name, NamePrefix) && t.name[|NamePrefix|..] == key
      && t.description == SemanticSearchHead + DisplayName(key) + SemanticSearchTail
      && t.engine.RetrieverQueryEngine?
      && t.engine.vector.index == index && t.engine.vector.similarityTopK == 10
      && t.engine.bm25.nodes == keyNodes && t.engine.bm25.similarityTopK == 10
      && t.engine.bm25.stemmerLanguage == "italian" && t.engine.bm25.language == "italian"
      && t.engine.rerank == RerankConfig(20, 10)
      && t.engine.synthesizer.mode == Compact && t.engine.synthesizer.streaming && !t.engine.synthesizer.useAsync
  {
    var t := SemanticTool(key, index, keyNodes);
    assert t.name == NamePrefix + key;
    assert (NamePrefix + key)[..|NamePrefix|] == NamePrefix;
  }

  /** A dictionary's keys are distinct. */
  predicate DistinctKeys<V>(entries: seq<(string, V)>)
  {
    forall i, j :: 0 <= i < j < |entries| ==> entries[i].0 != entries[j].0
  }

  /**
   * The result of the loop over vector_indices (in dictionary order), or the
   * KeyError raised by nodes[key_name] for the first key without nodes.
   */
  function SemanticTools(nodes: map<string, seq<TextNode>>, vectorIndices: seq<(string, VectorIndex)>)
    : Result<seq<(string, Tool)>, string>
    decreases |vectorIndices|
  {
    if |vectorIndices| == 0 then Ok([])
    else
      var n := |vectorIndices| - 1;
      var (key, index) := vectorIndices[n];
      match SemanticTools(nodes, vectorIndices[..n])
      case Err(e) => Err(e)
      case Ok(tools) =>
        if key in nodes then Ok(tools + [(key, SemanticTool(key, index, nodes[key]))]) else Err(key)
  }

  /** Once a key is missing, later collections do not change the error. */
  lemma {:induction false} SemanticToolsErrSticks(nodes: map<string, seq<TextNode>>,
                                                  vectorIndices: seq<(string, VectorIndex)>, i: nat)
    requires i <= |vectorIndices| && SemanticTools(nodes, vectorIndices[..i]).Err?
    ensures SemanticTools(nodes, vectorIndices) == SemanticTools(nodes, vectorIndices[..i])
    decreases |vectorIndices| - i
  {
    if i < |vectorIndices| {
      var n := |vectorIndices| - 1;
      assert vectorIndices[..n][..i] == vectorIndices[..i];
      SemanticToolsErrSticks(nodes, vectorIndices[..n], i);
    } else {
      assert vectorIndices[..i] == vectorIndices;
    }
  }

  /**
   * Building succeeds exactly when every collection key has nodes; then
   * there is one (key, tool) entry per collection, in order, named
   * "semantic_search_" + key and described by the key's display name.
   * Otherwise the KeyError names the first key without nodes.
   */
  lemma SemanticToolsSpec(nodes: map<string, seq<TextNode>>,
                                             vectorIndices: seq<(string, VectorIndex)>)
    ensures SemanticTools(nodes, vectorIndices).Ok? <==>
      forall k :: 0 <= k < |vectorIndices| ==> vectorIndices[k].0 in nodes
    ensures SemanticTools(nodes, vectorIndices).Ok? ==>
      var tools := SemanticTools(nodes, vectorIndices).value;
      |tools| == |vectorIndices| &&
      forall k :: 0 <= k < |tools| ==>
        tools[k] == (vectorIndices[k].0,
                     SemanticTool(vectorIndices[k].0, vectorIndices[k].1, nodes[vectorIndices[k].0]))
    ensures SemanticTools(nodes, vectorIndices).Err? ==>
      exists j :: 0 <= j < |vectorIndices| && SemanticTools(nodes, vectorIndices).error == vectorIndices[j].0
        && vectorIndices[j].0 !in nodes
        && forall k :: 0 <= k < j ==> vectorIndices[k].0 in nodes
  {
    SemanticToolsOkIff(nodes, vectorIndices);
    SemanticToolsOk(nodes, vectorIndices);
    SemanticToolsErr(nodes, vectorIndices);
  }

  lemma {:induction false} SemanticToolsOkIff(nodes: map<string, seq<TextNode>>,
                                              vectorIndices: seq<(string, VectorIndex)>)
    ensures SemanticTools(nodes, vectorIndices).Ok? <==>
      forall k :: 0 <= k < |vectorIndices| ==> vectorIndices[k].0 in nodes
    decreases |vectorIndices|
  {
    if |vectorIndices| > 0 {
      var n := |vectorIndices| - 1;
      var p := vectorIndices[..n];
      SemanticToolsOkIff(nodes, p);
      assert forall k :: 0 <= k < n ==> p[k] == vectorIndices[k];
    }
  }

  lemma {:induction false} SemanticToolsOk(nodes: map<string, seq<TextNode>>,
                                           vectorIndices: seq<(string, VectorIndex)>)
    ensures SemanticTools(nodes, vectorIndices).Ok? ==>
      var tools := SemanticTools(nodes, vectorIndices).value;
      |tools| == |vectorIndices| &&
      forall k :: 0 <= k < |tools| ==>
        vectorIndices[k].0 in nodes &&
        tools[k] == (vectorIndices[k].0,
                     SemanticTool(vectorIndices[k].0, vectorIndices[k].1, nodes[vectorIndices[k].0]))
    decreases |vectorIndices|
  {
    if |vectorIndices| > 0 && SemanticTools(nodes, vectorIndices).Ok? {
      var n := |vectorIndices| - 1;
      var p := vectorIndices[..n];
      SemanticToolsOk(nodes, p);
      var key := vectorIndices[n].0;
      var t := SemanticTools(nodes, p).value;
      assert SemanticTools(nodes, vectorIndices).value
        == t + [(key, SemanticTool(key, vectorIndices[n].1, nodes[key]))];
      assert forall k :: 0 <= k < n ==> p[k] == vectorIndices[k];
    }
  }

  lemma {:induction false} SemanticToolsErr(nodes: map<string, seq<TextNode>>,
                                            vectorIndices: seq<(string, VectorIndex)>)
    ensures SemanticTools(nodes, vectorIndices).Err? ==>
      exists j :: 0 <= j < |vectorIndices| && SemanticTools(nodes, vectorIndices).error == vectorIndices[j].0
        && vectorIndices[j].0 !in nodes
        && forall k :: 0 <= k < j ==> vectorIndices[k].0 in nodes
    decreases |vectorIndices|
  {
    if |vectorIndices| > 0 && SemanticTools(nodes, vectorIndices).Err? {
      var n := |vectorIndices| - 1;
      var p := vectorIndices[..n];
      SemanticToolsErr(nodes, p);
      if SemanticTools(nodes, p).Err? {
        var j :| 0 <= j < n && SemanticTools(nodes, p).error == p[j].0
          && p[j].0 !in nodes && forall k :: 0 <= k < j ==> p[k].0 in nodes;
        assert forall k :: 0 <= k <= j ==> p[k] == vectorIndices[k];
      } else {
        SemanticToolsOkIff(nodes, p);
        assert forall k :: 0 <= k < n ==> p[k] == vectorIndices[k];
        assert SemanticTools(nodes, vectorIndices).error == vectorIndices[n].0;
      }
    }
  }

  /** Distinct keys give distinct tool names. */
  lemma SemanticToolNamesDistinct(nodes: map<string, seq<TextNode>>, vectorIndices: seq<(string, VectorIndex)>)
    requires DistinctKeys(vectorIndices)
    requires SemanticTools(nodes, vectorIndices).Ok?
    ensures forall i, j :: 0 <= i < j < |SemanticTools(nodes, vectorIndices).value| ==>
      SemanticTools(nodes, vectorIndices).value[i].1.name != SemanticTools(nodes, vectorIndices).value[j].1.name
  {
    var tools := SemanticTools(nodes, vectorIndices).value;
    SemanticToolsSpec(nodes, vectorIndices);
    forall i, j | 0 <= i < j < |tools| ensures tools[i].1.name != tools[j].1.name {
      if tools[i].1.name == tools[j].1.name {
        ToolNameInjective(vectorIndices[i].0, vectorIndices[j].0);
      }
    }
  }

  /**
   * The loop of build_SemanticSearchQETool: for each key, configure both
   * retrievers on that key's collection and store the tool under the key.
   */
  method BuildSemanticSearchTools(nodes: map<string, seq<TextNode>>, vectorIndices: seq<(string, VectorIndex)>)
    returns (r: Result<seq<(string, Tool)>, string>)
    ensures r == SemanticTools(nodes, vectorIndices)
  {
    var tools: seq<(string, Tool)> := [];
    for i := 0 to |vectorIndices|
      invariant SemanticTools(nodes, vectorIndices[..i]) == Ok(tools)
    {
      var (key, index) := vectorIndices[i];
      assert vectorIndices[..i + 1][..i] == vectorIndices[..i];
      if key !in nodes {
        SemanticToolsErrSticks(nodes, vectorIndices, i + 1);
        return Err(key);
      }
      tools := tools + [(key, SemanticTool(key, index, nodes[key]))];
    }
    assert vectorIndices[..|vectorIndices|] == vectorIndices;
    r := Ok(tools);
  }

  /**
   * With at most top-k results from each retriever, the merged candidates
   * fit in a single rerank batch, and the reranker keeps at most top_n.
   */
  lemma CandidatesFitOneBatch(bm25Nodes: seq<NodeWithScore>, vectorNodes: seq<NodeWithScore>)
    requires |bm25Nodes| <= SimilarityTopK && |vectorNodes| <= SimilarityTopK
    ensures |HybridRetriever.Merge(bm25Nodes, vectorNodes)| <= RerankBatchSize
    ensures RerankTopN <= RerankBatchSize
  {
    HybridRetriever.MergeProperties(bm25Nodes, vectorNodes);
  }
}
