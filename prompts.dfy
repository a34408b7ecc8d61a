/**
 * The fixed texts of app/common/prompts_templates/PromptTemplates.py, after
 * the .strip() the source applies to each of them. Long texts are written
 * as concatenations of short literals; the characters are the source's.
 */
module Prompts {

  import opened Wrappers
  import opened Text

  /** The answer shown when the reranker kept no document. */
  const EmptySourcesMessage: string :=
    "Mi dispiace ma non ho trovato informazioni riguardo la tua domanda.\n"
    + "Prova a riformularla o a chiedermi qualcos'altro.\n"
    + "Se ritieni che la mancanza di queste informazioni sia un errore, "
    + "vuoi che apra una richiesta di supporto a DMO?"

  const HelloMessage: string := "Ciao, come posso aiutarti?"

  /** TOOL_DESCRIPTIONS["semantic_search"] up to its "{key_name}" field. */
  const SemanticSearchHead: string :=
    "Use this query engine if you need "
    + "to lookup specific information "
    + "about the data assets contained "
    + "in the data warehouse "

  /** TOOL_DESCRIPTIONS["semantic_search"] after its "{key_name}" field. */
  const SemanticSearchTail: string :=
    ". Never use this query engine if "
    + "you are asked to actually do "
    + "something other than answering "
    + "a question. Consider that \"ODS\" "
    + "is the default data warehouse; "
    + "consider \"OCS\" only if the "
    + "question explicitly mentions it."

  const SemanticSearchDescription: string := SemanticSearchHead + "{key_name}" + SemanticSearchTail

  const AssetMappingDescription: string :=
    "Use this query engine if and only if the question explicitly asks about the mapping "
    + "for an asset between two data warehouses. Never use this query engine if the question "
    + "does not mention the SAS data warehouse and or a set of given assets."

  const GeneralInteractionDescription: string :=
    "Use this query engine if the question is about something that does not involve data "
    + "assets stored in a data warehouse or the functioning of the chatbot. Never use this "
    + "query engine if the question is about data or metadata stored in a data warehouse or "
    + "about what the chatbot can do."

  const ProblemsReportingDescription: string :=
    "Use this query engine when the question is reporting either specific or general issues "
    + "about the data warehouse and its contents."

  const ChatbotInfoDescription: string :=
    "Use this query engine when the question is about the capabilities and functionalities "
    + "of the chatbot, like 'hi, what can you do?', or 'what can I ask you?'."

  /** TOOL_DESCRIPTIONS */
  const ToolDescriptions: map<string, string> := map[
    "semantic_search" := SemanticSearchDescription,
    "asset_mapping" := AssetMappingDescription,
    "general_interaction" := GeneralInteractionDescription,
    "problems_reporting" := ProblemsReportingDescription,
    "chatbot_info" := ChatbotInfoDescription
  ]

  /** SINGLE_SELECT_PROMPT: the router's selection prompt. */
  const SingleSelectPrompt: string :=
    "Some choices are given below"
    + ". It is provided in a numbered list (1 to {num_choices}), where each item in the list "
    + "corresponds to a summary.\n\n"
    + "You are allowed to select only 1 of the following tools. It is absolutely forbidden "
    + "to output more than one selection.\n"
    + "\n---------------------\n\n"
    + "{context_list}\n"
    + "\n---------------------\n\n"
    + "Using only the choices above and not prior knowledge, return 1 and ONLY 1 choice that "
    + "is most relevant to the follwing question:\n'{query_str}'"

  /** CONDENSE_QUESTION_PROMPT: the template that rewrites a follow-up message. */
  const CondenseQuestionPrompt: string :=
    "Given a conversation"
    + " (between Human and Assistant) and a follow up message from Human, rewrite the message "
    + "including a brief summary of the context of the conversation. If you find asset names, "
    + "include them in the summary. Be very specific about the followup question, the "
    + "assistant's answer will need to be based on this.\n"
    + "<Chat History>\n"
    + "{chat_history}\n"
    + "<Follow Up Message>\n"
    + "{question}\n"
    + "<Standalone question>"

  /** TOOL_DESCRIPTIONS["semantic_search"] as str.format parses it. */
  const SemanticSearchTemplate: seq<TemplatePart> :=
    [Literal(SemanticSearchHead), Field("key_name"), Literal(SemanticSearchTail)]

  /** A template of a literal, one field and a literal, unparsed. */
  lemma UnparseThree(head: string, name: string, tail: string)
    ensures Unparse([Literal(head), Field(name), Literal(tail)]) == head + ("{" + name + "}") + tail
  {
    var t := [Literal(head), Field(name), Literal(tail)];
    var t1, t2 := t[1..], t[2..];
    assert t1[1..] == t2 && t2[1..] == [];
    assert Unparse(t2) == tail + "";
    var x := "{" + name + "}";
    assert Unparse(t1) == x + Unparse(t2);
    assert Unparse(t) == head + Unparse(t1);
    ConcatAssoc(head, x, tail);
  }

  /** The same template formatted with its own field name. */
  lemma FormatThree(head: string, name: string, tail: string, v: string)
    ensures FormatNamed([Literal(head), Field(name), Literal(tail)], name, v) == Some(head + v + tail)
  {
    var t := [Literal(head), Field(name), Literal(tail)];
    var t1, t2 := t[1..], t[2..];
    assert t1[1..] == t2 && t2[1..] == [];
    assert FormatNamed(t2, name, v) == Some(tail + "");
    assert FormatNamed(t1, name, v) == Some(v + FormatNamed(t2, name, v).value);
    assert FormatNamed(t, name, v) == Some(head + FormatNamed(t1, name, v).value);
    assert tail + "" == tail;
    ConcatAssoc(head, v, tail);
  }

  /**
   * The parsed template is the source text, and formatting it with
   * key_name=v puts v between the two literal runs.
   */
  lemma SemanticSearchTemplateShape(v: string)
    ensures Unparse(SemanticSearchTemplate) == ToolDescriptions["semantic_search"]
    ensures FormatNamed(SemanticSearchTemplate, "key_name", v)
            == Some(SemanticSearchHead + v + SemanticSearchTail)
  {
    UnparseThree(SemanticSearchHead, "key_name", SemanticSearchTail);
    FormatThree(SemanticSearchHead, "key_name", SemanticSearchTail, v);
    assert "{" + "key_name" + "}" == "{key_name}";
  }
}
