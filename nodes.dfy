/**
 * The retrieval data the application passes around: text nodes with their
 * metadata, and nodes paired with a retrieval score (LlamaIndex's TextNode
 * and NodeWithScore), and the messages of a chat history.
 */
module Nodes {

  import opened Wrappers

  /**
   * An optional floating-point score. `repr` stands for Python's str() of
   * the value: float formatting is not modelled.
   */
  datatype Score = NoScore | Scored(value: real, repr: string)

  /** Python truthiness of `node.score`: present and non-zero. */
  predicate Truthy(s: Score)
  {
    s.Scored? && s.value != 0.0
  }

  /** str(node.score) */
  function ScoreText(s: Score): string
  {
    match s
    case NoScore => "None"
    case Scored(_, r) => r
  }

  /** Metadata is an insertion-ordered dictionary of string keys and values. */
  type Metadata = seq<(string, string)>

  datatype TextNode = TextNode(id: string, text: string, metadata: Metadata, embedding: Option<seq<real>>)

  datatype NodeWithScore = NodeWithScore(node: TextNode, score: Score)

  /** The node ids occurring in a list of scored nodes. */
  function Ids(s: seq<NodeWithScore>): set<string>
  {
    set i | 0 <= i < |s| :: s[i].node.id
  }

  /** No two entries share a node id. */
  predicate UniqueIds(s: seq<NodeWithScore>)
  {
    forall i, j :: 0 <= i < j < |s| ==> s[i].node.id != s[j].node.id
  }

  datatype MessageRole = User | Assistant

  /** ChatMessage(role=..., content=...) */
  datatype ChatMessage = ChatMessage(role: MessageRole, content: string)
}
