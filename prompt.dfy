/** The prompt templates: one system prompt per query type, and the full prompt around it. */
module LegalQueryPrompt {
  import opened Model

  const BasePrompt := "You are an expert legal assistant, specialized in law. You must provide precise and professional answers based exclusively on the provided context. IMPORTANT: ALWAYS answer in the same language as the user's Question/Request."

  const SummaryTask := " Your task is to provide a clear and concise summary of the provided document, highlighting the key points and important legal information."
  const QuestionTask := " Your task is to answer the question based exclusively on the provided context. If the information is not present in the context, clearly indicate this."
  const AnalysisTask := " Your task is to provide a detailed legal analysis of the case or document, identifying the applicable legal points, relevant precedents, and legal implications."

  /** The text between the system prompt and the context. */
  const ContextHeader := "\n\nRelevant legal context:\n"
  /** The text between the context and the query. */
  const QuestionHeader := "\n\nQuestion/Request:\n"
  /** The text after the query. */
  const AnswerTrailer := "\n\nAnswer:"

  /** The system prompt for a query type: the base prompt, followed by the
      task sentence of a recognised type. */
  function SystemPrompt(queryType: QueryType): (r: string)
    ensures BasePrompt <= r
    ensures queryType.Unrecognised? <==> r == BasePrompt
  {
    match queryType
    case Summary => BasePrompt + SummaryTask
    case Question => BasePrompt + QuestionTask
    case Analysis => BasePrompt + AnalysisTask
    case Unrecognised(_) => BasePrompt
  }

  /** The three recognised query types get three different system prompts. */
  lemma SystemPromptsDistinct(a: QueryType, b: QueryType)
    requires !a.Unrecognised? && !b.Unrecognised?
    requires SystemPrompt(a) == SystemPrompt(b)
    ensures a == b
  {
    // The three task sentences have different lengths.
    assert |SummaryTask| == 139 && |QuestionTask| == 152 && |AnalysisTask| == 161;
  }

  /** Where the context starts in a prompt built for `queryType`. */
  function ContextOffset(queryType: QueryType): nat {
    |SystemPrompt(queryType)| + |ContextHeader|
  }

  /** Where the query starts in a prompt built for `queryType` around `context`. */
  function QueryOffset(queryType: QueryType, context: string): nat {
    ContextOffset(queryType) + |context| + |QuestionHeader|
  }

  /** The full prompt: the system prompt, then the context, then the query, then the answer cue. */
  function BuildPrompt(query: string, context: string, queryType: QueryType): (r: string)
    ensures SystemPrompt(queryType) <= r
    ensures |r| == QueryOffset(queryType, context) + |query| + |AnswerTrailer|
    ensures r[|SystemPrompt(queryType)|..ContextOffset(queryType)] == ContextHeader
    ensures r[ContextOffset(queryType) + |context|..QueryOffset(queryType, context)] == QuestionHeader
    ensures EndsWithAnswerCue(r)
  {
    var sys := SystemPrompt(queryType);
    assert ContextOffset(queryType) == |sys| + |ContextHeader|;
    assert QueryOffset(queryType, context) == |sys| + |ContextHeader| + |context| + |QuestionHeader|;
    Frame(sys, context, query)
  }

  /** The context and the query appear whole in the prompt, the context before the query. */
  lemma PromptPlacesContextAndQuery(query: string, context: string, queryType: QueryType)
    ensures var r := BuildPrompt(query, context, queryType);
      && ContextOffset(queryType) + |context| < QueryOffset(queryType, context)
      && r[ContextOffset(queryType)..ContextOffset(queryType) + |context|] == context
      && r[QueryOffset(queryType, context)..QueryOffset(queryType, context) + |query|] == query
  {
    var sys := SystemPrompt(queryType);
    assert BuildPrompt(query, context, queryType) == Frame(sys, context, query);
    assert ContextOffset(queryType) == |sys| + |ContextHeader|;
  }

  /** The prompt frame around any system prompt: where the context and the query sit. */
  function Frame(sys: string, context: string, query: string): (r: string)
    ensures |r| == |sys| + |ContextHeader| + |context| + |QuestionHeader| + |query| + |AnswerTrailer|
    ensures r[..|sys|] == sys
    ensures r[|sys|..|sys| + |ContextHeader|] == ContextHeader
    ensures r[|sys| + |ContextHeader|..|sys| + |ContextHeader| + |context|] == context
    ensures var p := |sys| + |ContextHeader| + |context|;
      r[p..p + |QuestionHeader|] == QuestionHeader
    ensures var q := |sys| + |ContextHeader| + |context| + |QuestionHeader|;
      r[q..q + |query|] == query
    ensures EndsWithAnswerCue(r)
  {
    Layout(sys, ContextHeader, context, QuestionHeader, query, AnswerTrailer);
    sys + ContextHeader + context + QuestionHeader + query + AnswerTrailer
  }

  /** Where each of six concatenated parts sits in the whole. */
  lemma Layout(a: string, b: string, c: string, d: string, e: string, f: string)
    ensures var r := a + b + c + d + e + f;
      && |r| == |a| + |b| + |c| + |d| + |e| + |f|
      && r[..|a|] == a
      && r[|a|..|a| + |b|] == b
      && r[|a| + |b|..|a| + |b| + |c|] == c
      && r[|a| + |b| + |c|..|a| + |b| + |c| + |d|] == d
      && r[|a| + |b| + |c| + |d|..|a| + |b| + |c| + |d| + |e|] == e
      && r[|r| - |f|..] == f
  {
  }

  /** A prompt ends with the answer cue `Answer:` on its own paragraph. */
  predicate EndsWithAnswerCue(prompt: string) {
    |prompt| >= |AnswerTrailer| && prompt[|prompt| - |AnswerTrailer|..] == AnswerTrailer
  }
}
