/**
 * The three custom query engines of
 * app/chat_engine/GeneralInteractionQE/CustomQE.py: each answers with a
 * streaming response whose generator yields one character per token.
 */
module CustomQE {

  import opened Text
  import opened Nodes
  import opened Tools

  const ProblemsReportingMessage: string :=
    "Grazie per la segnalazione. La problematica riscontrata verrà inviata "
    + "a un assistente che provvederà alla verifica manuale."

  const GeneralInteractionMessage: string :=
    "Mi dispiace, la tua domanda non sembra riguardare alcun asset nel vecchio o nel nuovo DWH."

  /**
   * StreamingResponse(response_gen=...): the tokens the generator yields,
   * and the source nodes (none is ever supplied here).
   */
  datatype StreamingResponse = StreamingResponse(responseGen: seq<string>, sourceNodes: seq<NodeWithScore>)

  /**
   * custom_query of each engine. `generate` stands for the text of the
   * hosted model's answer to the query, a foreign call used only by the
   * chatbot-info engine.
   */
  function CustomQuery(kind: CannedKind, queryStr: string, generate: string -> string): StreamingResponse
  {
    match kind
    case ProblemsReporting => StreamingResponse(Chars(ProblemsReportingMessage), [])
    case GeneralInteraction => StreamingResponse(Chars(GeneralInteractionMessage), [])
    case ChatbotInfo => StreamingResponse(Chars(Strip(generate(queryStr))), [])
  }

  /** The fixed message of a canned engine. */
  function CannedMessage(kind: CannedKind): string
    requires kind != ChatbotInfo
  {
    if kind == ProblemsReporting then ProblemsReportingMessage else GeneralInteractionMessage
  }

  /**
   * A canned engine streams its fixed message, one character per token,
   * whatever the query; no engine supplies source nodes.
   */
  lemma CannedStream(kind: CannedKind, queryStr: string, generate: string -> string)
    requires kind != ChatbotInfo
    ensures Concat(CustomQuery(kind, queryStr, generate).responseGen) == CannedMessage(kind)
    ensures |CustomQuery(kind, queryStr, generate).responseGen| == |CannedMessage(kind)|
    ensures forall i :: 0 <= i < |CannedMessage(kind)| ==>
      CustomQuery(kind, queryStr, generate).responseGen[i] == [CannedMessage(kind)[i]]
    ensures CustomQuery(kind, queryStr, generate).sourceNodes == []
  {
    CharsRoundTrip(CannedMessage(kind));
  }

  /**
   * The chatbot-info engine streams the generated answer with surrounding
   * white space removed, one character per token: the tokens spell an infix
   * of the answer, only white space is dropped around it, and the first and
   * last tokens are not white space.
   */
  lemma ChatbotInfoStream(queryStr: string, generate: string -> string) returns (i: nat, j: nat)
    ensures i <= j <= |generate(queryStr)|
    ensures Concat(CustomQuery(ChatbotInfo, queryStr, generate).responseGen) == generate(queryStr)[i..j]
    ensures |CustomQuery(ChatbotInfo, queryStr, generate).responseGen| == j - i
    ensures forall k :: 0 <= k < i ==> IsSpace(generate(queryStr)[k])
    ensures forall k :: j <= k < |generate(queryStr)| ==> IsSpace(generate(queryStr)[k])
    ensures i < j ==> !IsSpace(generate(queryStr)[i]) && !IsSpace(generate(queryStr)[j - 1])
    ensures CustomQuery(ChatbotInfo, queryStr, generate).sourceNodes == []
  {
    var text := generate(queryStr);
    i, j := StripBounds(text);
    CharsRoundTrip(Strip(text));
  }
}
