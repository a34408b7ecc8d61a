/**
 * The Chainlit handlers of app/main.py: start_chat initialises the user
 * session, handle_msg runs one turn. The chat engine's streaming answer is
 * foreign and is passed in as a function of the engine, the message and
 * the history.
 */
module ChatApp {

  import opened Wrappers
  import opened Text
  import opened Nodes
  import opened Prompts
  import opened Tools
  import opened UserOutput
  import opened ChatEngine

  /**
   * What stream_chat returns, as handle_msg reads it: `response.response`
   * before the tokens are consumed and after, the tokens, and the source
   * nodes.
   */
  datatype StreamingChatResponse = StreamingChatResponse(
    responseBefore: string, responseGen: seq<string>, responseAfter: string, sourceNodes: seq<NodeWithScore>)

  /** cl.Text(name=..., content=..., display=...) */
  datatype SourceElement = SourceElement(name: string, content: string, display: string)

  /** The assistant message as finally shown: its content and side elements. */
  datatype ShownMessage = ShownMessage(content: string, elements: seq<SourceElement>)

  const EmptyResponse: string := "Empty Response"

  /** r"\, " */
  const RefSeparator: string := "\\, "

  /** [n for n in response.source_nodes if n.score] */
  function DisplayedSources(nodes: seq<NodeWithScore>): seq<NodeWithScore>
  {
    if |nodes| == 0 then []
    else (if Truthy(nodes[0].score) then [nodes[0]] else []) + DisplayedSources(nodes[1..])
  }

  /** Filtering a concatenation filters each part, in order. */
  lemma {:induction false} DisplayedSourcesAppend(a: seq<NodeWithScore>, b: seq<NodeWithScore>)
    ensures DisplayedSources(a + b) == DisplayedSources(a) + DisplayedSources(b)
  {
    if |a| > 0 {
      assert (a + b)[1..] == a[1..] + b;
      DisplayedSourcesAppend(a[1..], b);
    } else {
      assert a + b == b;
    }
  }

  /**
   * The displayed sources are exactly the nodes with a truthy score; there
   * are none exactly when no node has one.
   */
  lemma {:induction false} DisplayedSourcesSpec(nodes: seq<NodeWithScore>)
    ensures forall x :: x in DisplayedSources(nodes) <==> x in nodes && Truthy(x.score)
    ensures |DisplayedSources(nodes)| <= |nodes|
    ensures |DisplayedSources(nodes)| == 0 <==> forall i :: 0 <= i < |nodes| ==> !Truthy(nodes[i].score)
  {
    if |nodes| > 0 {
      DisplayedSourcesSpec(nodes[1..]);
      assert nodes == [nodes[0]] + nodes[1..];
      forall i | 1 <= i < |nodes| ensures nodes[i] == nodes[1..][i - 1] {}
    }
  }

  /** f"Fonte {idx+1}" for the 0-based index idx. */
  function SourceLabel(idx: nat): string
  {
    "Fonte " + NatToString(idx + 1)
  }

  /** The first source is "Fonte 1", and different indices get different labels. */
  lemma SourceLabels(i: nat, j: nat)
    ensures SourceLabel(0) == "Fonte 1"
    ensures SourceLabel(i) == SourceLabel(j) ==> i == j
  {
    if SourceLabel(i) == SourceLabel(j) {
      assert NatToString(i + 1) == SourceLabel(i)[6..];
      assert NatToString(j + 1) == SourceLabel(j)[6..];
      NatToStringInjective(i + 1, j + 1);
    }
  }

  function LabelsUpTo(n: nat): (r: seq<string>)
    ensures |r| == n && forall i :: 0 <= i < n ==> r[i] == SourceLabel(i)
  {
    if n == 0 then [] else LabelsUpTo(n - 1) + [SourceLabel(n - 1)]
  }

  /** source_refs: "Fonte 1" .. "Fonte n" joined by a backslash, a comma and a space. */
  function SourceRefs(n: nat): string
  {
    Join(RefSeparator, LabelsUpTo(n))
  }

  /** The side element of each displayed source, as the comprehension builds them. */
  function SourceElements(sources: seq<NodeWithScore>): (r: seq<SourceElement>)
    ensures |r| == |sources|
  {
    if |sources| == 0 then []
    else
      var n := |sources| - 1;
      var text := FormatSourceText(sources[n]);
      SourceElements(sources[..n]) + [SourceElement(SourceLabel(n), if text != "" then text else "Empty node", "side")]
  }

  /**
   * Element i is labelled "Fonte i+1", shown at the side, and holds the
   * formatted source; the 'Empty node' fallback never applies.
   */
  lemma {:induction false} SourceElementsSpec(sources: seq<NodeWithScore>)
    ensures forall i :: 0 <= i < |sources| ==>
      SourceElements(sources)[i] == SourceElement(SourceLabel(i), FormatSourceText(sources[i]), "side")
  {
    if |sources| > 0 {
      var n := |sources| - 1;
      var p := sources[..n];
      SourceElementsSpec(p);
      FormatSourceSections(sources[n]);
      var last := SourceElement(SourceLabel(n), FormatSourceText(sources[n]), "side");
      assert SourceElements(sources) == SourceElements(p) + [last];
      forall i | 0 <= i < |sources|
        ensures SourceElements(sources)[i] == SourceElement(SourceLabel(i), FormatSourceText(sources[i]), "side")
      {
        if i < n {
          assert p[i] == sources[i];
        }
      }
    }
  }

  /** The content after the tokens were streamed into it. */
  function Streamed(response: StreamingChatResponse): string
  {
    response.responseBefore + Concat(response.responseGen)
  }

  /** The assistant content before the 'Empty Response' check. */
  function TurnContent(response: StreamingChatResponse): string
  {
    var sources := DisplayedSources(response.sourceNodes);
    if |sources| > 0 then Streamed(response) + "\n\n Fonti: " + SourceRefs(|sources|) else Streamed(response)
  }

  /**
   * The streamed text always opens the content; the "Fonti" suffix is
   * added exactly when some source node has a truthy score, and it lists
   * one label per displayed source.
   */
  lemma TurnContentSpec(response: StreamingChatResponse)
    ensures StartsWith(TurnContent(response), Streamed(response))
    ensures TurnContent(response) != Streamed(response) <==>
      exists i :: 0 <= i < |response.sourceNodes| && Truthy(response.sourceNodes[i].score)
    ensures TurnContent(response)[|Streamed(response)|..] ==
      if DisplayedSources(response.sourceNodes) == [] then ""
      else "\n\n Fonti: " + SourceRefs(|DisplayedSources(response.sourceNodes)|)
  {
    DisplayedSourcesSpec(response.sourceNodes);
    var s := Streamed(response);
    var c := TurnContent(response);
    assert c[..|s|] == s;
  }

  /** The text shown for the turn. */
  function ShownContent(response: StreamingChatResponse): string
  {
    if response.responseAfter == EmptyResponse then EmptySourcesMessage else TurnContent(response)
  }

  /** The history after a turn. */
  function TurnMemory(memory: seq<ChatMessage>, message: string, response: StreamingChatResponse): seq<ChatMessage>
  {
    memory + [ChatMessage(User, message)]
      + if response.responseAfter == EmptyResponse then [] else [ChatMessage(Assistant, TurnContent(response))]
  }

  /**
   * A turn keeps the history as its prefix and appends the user's raw
   * message; it appends the assistant's content too unless the answer was
   * 'Empty Response', in which case the message shown is the fixed
   * no-sources message.
   */
  lemma TurnMemorySpec(memory: seq<ChatMessage>, message: string, response: StreamingChatResponse)
    ensures TurnMemory(memory, message, response)[..|memory|] == memory
    ensures |TurnMemory(memory, message, response)| == |memory| + (if response.responseAfter == EmptyResponse then 1 else 2)
    ensures TurnMemory(memory, message, response)[|memory|] == ChatMessage(User, message)
    ensures response.responseAfter != EmptyResponse ==>
      TurnMemory(memory, message, response)[|memory| + 1] == ChatMessage(Assistant, ShownContent(response))
    ensures response.responseAfter == EmptyResponse ==> ShownContent(response) == EmptySourcesMessage
  {
  }

  /** response_msg.content = response.response, then stream_token for each token. */
  method StreamTokens(response: StreamingChatResponse) returns (content: string)
    ensures content == Streamed(response)
  {
    content := response.responseBefore;
    for i := 0 to |response.responseGen|
      invariant content == response.responseBefore + Concat(response.responseGen[..i])
    {
      ConcatAppend(response.responseGen[..i], [response.responseGen[i]]);
      assert response.responseGen[..i + 1] == response.responseGen[..i] + [response.responseGen[i]];
      content := content + response.responseGen[i];
    }
    assert response.responseGen[..|response.responseGen|] == response.responseGen;
  }

  /** source_elem: one cl.Text per displayed source, formatted by format_source. */
  method BuildSourceElements(sources: seq<NodeWithScore>) returns (elements: seq<SourceElement>)
    ensures elements == SourceElements(sources)
  {
    elements := [];
    for idx := 0 to |sources|
      invariant elements == SourceElements(sources[..idx])
    {
      var text := FormatSource(sources[idx]);
      assert sources[..idx + 1][..idx] == sources[..idx];
      elements := elements + [SourceElement(SourceLabel(idx), if text != "" then text else "Empty node", "side")];
    }
    assert sources[..|sources|] == sources;
  }

  /** The exception a turn raises. */
  datatype TurnError =
    | AttributeError   // query_engine.stream_chat on None: no engine was stored

  /**
   * A Chainlit user session: the keys the handlers keep in it. A key that
   * was never set reads as None, as user_session.get gives.
   */
  class Session {
    var queryEngine: Option<ChatEngineConfig>
    var memory: Option<seq<ChatMessage>>
    var assets: Option<seq<string>>

    /** start_chat sets the three keys together, so they are set or unset together. */
    predicate Valid()
      reads this
    {
      queryEngine.Some? == memory.Some? && memory.Some? == assets.Some?
    }

    /** A session before start_chat has run: no key is set. */
    constructor ()
      ensures queryEngine.None? && memory.None? && assets.None?
      ensures Valid()
    {
      queryEngine := None;
      memory := None;
      assets := None;
    }

    /**
     * start_chat: greet, load the chat engine, then store it with an empty
     * memory and an empty asset list. A failing load raises before any
     * session key is written.
     */
    method StartChat(nodes: map<string, seq<TextNode>>, vectorIndices: seq<(string, VectorIndex)>)
      returns (greeting: string, loaded: Result<ChatEngineConfig, LoadError>)
      requires Valid()
      modifies this
      ensures Valid()
      ensures greeting == HelloMessage
      ensures loaded == LoadChatEngine(nodes, vectorIndices)
      ensures loaded.Ok? ==> queryEngine == Some(loaded.value) && memory == Some([]) && assets == Some([])
      ensures loaded.Err? ==> queryEngine == old(queryEngine) && memory == old(memory) && assets == old(assets)
    {
      greeting := HelloMessage;
      loaded := LoadChatEngine(nodes, vectorIndices);
      if loaded.Ok? {
        queryEngine := Some(loaded.value);
        memory := Some([]);
        assets := Some([]);
      }
    }

    /**
     * handle_msg: ask the stored engine with the current history, stream
     * the tokens into the content, add the source references, then update
     * the history in place. `streamChat(engine, message, history)` stands
     * for that engine's stream_chat. Without a stored engine the call
     * raises AttributeError and the session is left as it was.
     */
    method HandleMsg(message: string, streamChat: (ChatEngineConfig, string, seq<ChatMessage>) -> StreamingChatResponse)
      returns (r: Result<ShownMessage, TurnError>)
      requires Valid()
      modifies this
      ensures Valid()
      ensures queryEngine == old(queryEngine) && assets == old(assets)
      ensures old(queryEngine).None? ==> r == Err(AttributeError) && memory == old(memory)
      ensures old(queryEngine).Some? ==>
        var response := streamChat(old(queryEngine).value, message, old(memory).value);
        r.Ok?
        && memory == Some(TurnMemory(old(memory).value, message, response))
        && r.value.content == ShownContent(response)
        && r.value.elements == SourceElements(DisplayedSources(response.sourceNodes))
    {
      if queryEngine.None? {
        return Err(AttributeError);
      }
      var history := memory.value;
      var response := streamChat(queryEngine.value, message, history);
      var content := StreamTokens(response);
      var sources := DisplayedSources(response.sourceNodes);
      var elements: seq<SourceElement> := [];
      if |sources| > 0 {
        var sourceRefs := SourceRefs(|sources|);
        elements := BuildSourceElements(sources);
        content := content + "\n\n Fonti: " + sourceRefs;
      }
      assert content == TurnContent(response);
      var before := history;
      history := history + [ChatMessage(User, message)];
      if response.responseAfter == EmptyResponse {
        content := EmptySourcesMessage;
        assert history == TurnMemory(before, message, response);
      } else {
        history := history + [ChatMessage(Assistant, content)];
        assert history == TurnMemory(before, message, response);
      }
      memory := Some(history);
      r := Ok(ShownMessage(content, elements));
    }
  }
}
