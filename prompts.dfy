/** The prompt templates the retriever and the HyDE operator fill, as
    sequences of literal text and replacement fields. */
module Prompts {
  import opened StrFormat

  /** KNOWBASE_QA_TEMPLATE: fields `context` and `query`. */
  const KnowbaseQaTemplate: Template := [
    Lit("\nYou are a knowledgeable assistant helping to answer questions based on the provided knowledge base content.\n"
      + "Please provide accurate and relevant answers based on the given context.\n\n<Context>\n"),
    Field("context"),
    Lit("\n</Context>\n\n<Question>\n"),
    Field("query"),
    Lit("\n</Question>\n\nAnswer the question based on the context above. If the context doesn't contain enough information to answer the question, say so.\n"
      + "Be concise but informative. Use natural language and avoid technical jargon unless necessary.\n")
  ]

  /** QUERY_REWRITE_PROMPT_FLEXIBLE: fields `history` and `query`. */
  const QueryRewritePromptFlexible: Template := [
    Lit("\nYou are an assistant helping with query rewriting. Based on the previous conversation and the latest question, rewrite multiple relevant questions to match reference materials from the knowledge base.\n\n<Historical Information>"),
    Field("history"),
    Lit("</Historical Information>\n<Question>"),
    Field("query"),
    Lit("</Question>\n")
  ]

  /** NER_PROMPT_TEMPLATE: field `text`. */
  const NerPromptTemplate: Template := [
    Lit("\n<Instruction>Perform named entity recognition (NER) on the following text. Return only the entities and their types.<Instruction>\n"
      + "<Prohibited>1. Do not fabricate content. If no entities exist, return an empty string.\n"
      + "2. This is strictly for entity extraction, do not answer.<Prohibited>\n"
      + "<Content Requirements>1. List all named entities.\n2. No explanations.\n3. Return only entities.\n"
      + "4. Separate entities with commas.<Content Requirements>\n<Text>"),
    Field("text"),
    Lit("</Text>\n")
  ]

  /** HYDE_GENERATION_PROMPT: fields `context_str` and `query`. */
  const HydeGenerationPrompt: Template := [
    Lit("Please write a passage to answer the question.\nInclude as many important details as possible.\n\n"),
    Field("context_str"),
    Lit("\n\n"),
    Field("query"),
    Lit("\n\nPassage:\n")
  ]

  lemma TemplateFields()
    ensures FieldNames(KnowbaseQaTemplate) == {"context", "query"}
    ensures FieldNames(QueryRewritePromptFlexible) == {"history", "query"}
    ensures FieldNames(NerPromptTemplate) == {"text"}
    ensures FieldNames(HydeGenerationPrompt) == {"context_str", "query"}
  {
    QaFields();
    RewriteFields();
    NerFields();
    HydeFields();
  }

  lemma QaFields()
    ensures FieldNames(KnowbaseQaTemplate) == {"context", "query"}
  {
    assert KnowbaseQaTemplate[1].Field? && KnowbaseQaTemplate[3].Field?;
  }

  lemma RewriteFields()
    ensures FieldNames(QueryRewritePromptFlexible) == {"history", "query"}
  {
    assert QueryRewritePromptFlexible[1].Field? && QueryRewritePromptFlexible[3].Field?;
  }

  lemma NerFields()
    ensures FieldNames(NerPromptTemplate) == {"text"}
  {
    assert NerPromptTemplate[1].Field?;
  }

  lemma HydeFields()
    ensures FieldNames(HydeGenerationPrompt) == {"context_str", "query"}
  {
    assert HydeGenerationPrompt[1].Field? && HydeGenerationPrompt[3].Field?;
  }
}
