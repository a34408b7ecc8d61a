/**
 * app/chat_engine/LoadIndex/chroma_utils.py: rebuild text nodes from the
 * records of a Chroma collection. Each record pairs a metadata dictionary
 * with its document string.
 */
module ChromaUtils {

  import opened Wrappers
  import opened Nodes

  /** The metadata key holding the serialised node. */
  const NodeContentKey: string := "_node_content"

  /** The metadata of one record; only string values are modelled. */
  type ChromaMetadata = map<string, string>

  datatype ParseError =
    | KeyError(key: string)      // the metadata has no serialised node
    | DecodeError                // json.loads or TextNode(**node) rejected it

  /**
   * parse_chroma_node: decode the serialised node, then replace its text by
   * the record's document. `decode` stands for json.loads followed by
   * TextNode(**node), a foreign call.
   */
  function ParseChromaNode(record: (ChromaMetadata, string), decode: string -> Option<TextNode>)
    : Result<TextNode, ParseError>
  {
    var (metadata, text) := record;
    if NodeContentKey !in metadata then Err(KeyError(NodeContentKey))
    else
      match decode(metadata[NodeContentKey])
      case None => Err(DecodeError)
      case Some(node) => Ok(node.(text := text))
  }

  /**
   * A parsed node's text is the document; every other field is the decoded
   * node's. Parsing fails exactly when the key is missing or decoding fails.
   */
  lemma ParseChromaNodeSpec(record: (ChromaMetadata, string), decode: string -> Option<TextNode>)
    ensures ParseChromaNode(record, decode).Ok? <==>
      NodeContentKey in record.0 && decode(record.0[NodeContentKey]).Some?
    ensures ParseChromaNode(record, decode).Ok? ==>
      var node := ParseChromaNode(record, decode).value;
      var decoded := decode(record.0[NodeContentKey]).value;
      node.text == record.1
      && node.id == decoded.id && node.metadata == decoded.metadata && node.embedding == decoded.embedding
    ensures NodeContentKey !in record.0 ==> ParseChromaNode(record, decode) == Err(KeyError(NodeContentKey))
  {
  }

  /** Metadata entries other than the serialised node do not affect the result. */
  lemma OnlyNodeContentRead(m1: ChromaMetadata, m2: ChromaMetadata, text: string, decode: string -> Option<TextNode>)
    requires NodeContentKey in m1 <==> NodeContentKey in m2
    requires NodeContentKey in m1 ==> m1[NodeContentKey] == m2[NodeContentKey]
    ensures ParseChromaNode((m1, text), decode) == ParseChromaNode((m2, text), decode)
  {
  }

  /** zip(xs, ys): pairs up to the shorter length. */
  function Zip<A, B>(xs: seq<A>, ys: seq<B>): (r: seq<(A, B)>)
    ensures |r| == if |xs| <= |ys| then |xs| else |ys|
    ensures forall i :: 0 <= i < |r| ==> r[i] == (xs[i], ys[i])
  {
    if |xs| == 0 || |ys| == 0 then [] else [(xs[0], ys[0])] + Zip(xs[1..], ys[1..])
  }

  /** The list comprehension: parse each record in order, raising at the first failure. */
  function ParseAll(records: seq<(ChromaMetadata, string)>, decode: string -> Option<TextNode>)
    : (r: Result<seq<TextNode>, ParseError>)
    ensures r.Ok? <==> forall i :: 0 <= i < |records| ==> ParseChromaNode(records[i], decode).Ok?
    ensures r.Ok? ==>
      (|r.value| == |records| && forall i :: 0 <= i < |records| ==> r.value[i] == ParseChromaNode(records[i], decode).value)
    ensures r.Err? ==>
      (exists i :: 0 <= i < |records| && ParseChromaNode(records[i], decode) == Err(r.error)
         && forall k :: 0 <= k < i ==> ParseChromaNode(records[k], decode).Ok?)
  {
    if |records| == 0 then Ok([])
    else
      assert forall i :: 1 <= i < |records| ==> records[1..][i - 1] == records[i];
      match ParseChromaNode(records[0], decode)
      case Err(e) => Err(e)
      case Ok(node) =>
        match ParseAll(records[1..], decode)
        case Err(e) => Err(e)
        case Ok(rest) => Ok([node] + rest)
  }

  /** get_chroma_nodes over the metadatas and documents of collection.get(). */
  function GetChromaNodes(metadatas: seq<ChromaMetadata>, documents: seq<string>, decode: string -> Option<TextNode>)
    : Result<seq<TextNode>, ParseError>
  {
    ParseAll(Zip(metadatas, documents), decode)
  }

  /**
   * One node per (metadata, document) pair, in order, as many as the shorter
   * list has; node i carries document i as its text.
   */
  lemma GetChromaNodesSpec(metadatas: seq<ChromaMetadata>, documents: seq<string>, decode: string -> Option<TextNode>)
    ensures GetChromaNodes(metadatas, documents, decode).Ok? ==>
      var nodes := GetChromaNodes(metadatas, documents, decode).value;
      |nodes| == (if |metadatas| <= |documents| then |metadatas| else |documents|)
      && forall i :: 0 <= i < |nodes| ==>
           nodes[i] == ParseChromaNode((metadatas[i], documents[i]), decode).value && nodes[i].text == documents[i]
    ensures GetChromaNodes(metadatas, documents, decode).Ok? <==>
      forall i :: 0 <= i < |metadatas| && i < |documents| ==> ParseChromaNode((metadatas[i], documents[i]), decode).Ok?
  {
    var records := Zip(metadatas, documents);
    forall i | 0 <= i < |records| ensures ParseChromaNode(records[i], decode).Ok? ==> ParseChromaNode(records[i], decode).value.text == documents[i] {
      ParseChromaNodeSpec(records[i], decode);
    }
  }
}
