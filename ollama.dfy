/**
 * The generation side: the context is cut to a character budget, preferably
 * at a sentence or line end, and the prompt is built around the cut context.
 * The language model itself is a function from prompt to answer (or error).
 */
module Ollama {
  import opened Wrappers
  import opened Strings
  import opened Model
  import LegalQueryPrompt

  /** The budget `generateResponse` gives the context before building the prompt. */
  const GenerationContextLimit: nat := 2500

  /** The marker appended to a context cut at the budget itself. */
  const Ellipsis := "..."

  /** The characters at which the context may be cut. */
  predicate IsCutChar(c: char) {
    c == '.' || c == '\n'
  }

  /** `s.lastIndexOf(c)` for a one-character needle: the last position of `c`, or -1. */
  function LastIndexOf(s: string, c: char): (r: int)
    ensures -1 <= r < |s|
    ensures r >= 0 ==> s[r] == c
    ensures forall i :: r < i < |s| ==> s[i] != c
  {
    if s == [] then -1
    else if s[|s| - 1] == c then |s| - 1
    else LastIndexOf(s[..|s| - 1], c)
  }

  function Max(a: int, b: int): int {
    if a < b then b else a
  }

  /** Position `k` is a cut point of `context` for budget `maxChars`: a `.` or a
      line break inside the final fifth of the budget, with none after it
      before the budget ends. */
  predicate IsLastCutInTail(context: string, maxChars: nat, k: int)
    requires maxChars <= |context|
  {
    0 <= k < maxChars && 4 * maxChars < 5 * k && IsCutChar(context[k])
    && forall i :: k < i < maxChars ==> !IsCutChar(context[i])
  }

  /** No `.` or line break lies in the final fifth of the budget. */
  predicate NoCutInTail(context: string, maxChars: nat)
    requires maxChars <= |context|
  {
    forall i :: 0 <= i < maxChars && 4 * maxChars < 5 * i ==> !IsCutChar(context[i])
  }

  /**
   * `truncateContext`: a context within budget is returned as it is. A longer
   * one is cut just after its last `.` or line break within the budget when
   * that character lies beyond 80% of the budget; otherwise it is cut at the
   * budget and `...` is appended. (`cutPoint > maxChars * 0.8` is compared
   * exactly here as `5 * cutPoint > 4 * maxChars`; for integer operands the
   * two agree.)
   */
  function TruncateContext(context: string, maxChars: nat): (r: string)
    ensures |context| <= maxChars ==> r == context
    ensures |context| > maxChars ==>
      (0 < |r| <= maxChars && r == context[..|r|] && IsLastCutInTail(context, maxChars, |r| - 1))
      || (r == context[..maxChars] + Ellipsis && NoCutInTail(context, maxChars))
    ensures |r| <= maxChars + |Ellipsis|
  {
    if |context| <= maxChars then context
    else
      var truncated := context[..maxChars];
      var lastPeriod := LastIndexOf(truncated, '.');
      var lastNewline := LastIndexOf(truncated, '\n');
      var cutPoint := Max(lastPeriod, lastNewline);
      if 5 * cutPoint > 4 * maxChars then
        truncated[..cutPoint + 1]
      else
        truncated + Ellipsis
  }

  /** A cut context that does not end in the appended marker is a prefix of the input. */
  lemma TruncatedIsPrefixOrMarked(context: string, maxChars: nat)
    ensures var r := TruncateContext(context, maxChars);
      r <= context || (EndsWith(r, Ellipsis) && r[..|r| - |Ellipsis|] <= context)
  {
    var r := TruncateContext(context, maxChars);
    if |context| > maxChars && !(r <= context) {
      assert r == context[..maxChars] + Ellipsis;
      assert r[..|r| - |Ellipsis|] == context[..maxChars];
    }
  }

  /** Cutting a context to a budget never looks past the budget: any longer
      prefix of the context is cut to the same result. */
  lemma TruncateContextOfPrefix(context: string, n: nat, maxChars: nat)
    requires maxChars < n
    ensures TruncateContext(Prefix(context, n), maxChars) == TruncateContext(context, maxChars)
  {
    var p := Prefix(context, n);
    if |context| > maxChars {
      assert |p| > maxChars;
      assert p[..maxChars] == context[..maxChars];
    }
  }

  /** The prompt `generateResponse` sends: built around the context cut to 2500 characters. */
  function GenerationPrompt(query: string, context: string, queryType: QueryType): (prompt: string)
    ensures |context| <= GenerationContextLimit ==> prompt == LegalQueryPrompt.BuildPrompt(query, context, queryType)
    ensures prompt == LegalQueryPrompt.BuildPrompt(query, TruncateContext(context, GenerationContextLimit), queryType)
  {
    LegalQueryPrompt.BuildPrompt(query, TruncateContext(context, GenerationContextLimit), queryType)
  }

  /**
   * The prompt is built around the context itself when it is within budget,
   * never around more than the budget otherwise: its length is bounded
   * whatever the length of the context.
   */
  lemma GenerationPromptShape(query: string, context: string, queryType: QueryType)
    ensures var r := GenerationPrompt(query, context, queryType);
      && (|context| <= GenerationContextLimit ==> r == LegalQueryPrompt.BuildPrompt(query, context, queryType))
      && |r| <= LegalQueryPrompt.QueryOffset(queryType, "") + GenerationContextLimit + |Ellipsis|
                + |query| + |LegalQueryPrompt.AnswerTrailer|
      && LegalQueryPrompt.SystemPrompt(queryType) <= r
  {
  }

  /**
   * A context over budget reaches the prompt only as its cut: a prefix of at
   * most 2500 characters ending at a sentence or line break, or the first 2500
   * characters followed by `...`. Nothing of it beyond the budget is sent
   * (`LegalQueryPrompt.PromptPlacesContextAndQuery` says where the cut sits).
   */
  lemma LongContextSentCut(query: string, context: string, queryType: QueryType)
    requires |context| > GenerationContextLimit
    ensures exists t ::
      && GenerationPrompt(query, context, queryType) == LegalQueryPrompt.BuildPrompt(query, t, queryType)
      && ((0 < |t| <= GenerationContextLimit && t == context[..|t|])
          || t == context[..GenerationContextLimit] + Ellipsis)
  {
    var t := TruncateContext(context, GenerationContextLimit);
    assert GenerationPrompt(query, context, queryType) == LegalQueryPrompt.BuildPrompt(query, t, queryType);
  }

  /** Slicing the context to more than the budget before generation changes nothing. */
  lemma GenerationPromptOfPrefix(query: string, context: string, n: nat, queryType: QueryType)
    requires GenerationContextLimit < n
    ensures GenerationPrompt(query, Prefix(context, n), queryType) == GenerationPrompt(query, context, queryType)
  {
    TruncateContextOfPrefix(context, n, GenerationContextLimit);
  }

  /** The language model: the answer to a prompt, or the message of the error it threw. */
  type Generator = string -> Result<string, string>

  /** `generateResponse`: the model's answer to the generation prompt; a failure propagates. */
  function GenerateResponse(query: string, context: string, queryType: QueryType,
                            model: Generator): (r: Result<string, string>)
    ensures |context| <= GenerationContextLimit ==> r == model(LegalQueryPrompt.BuildPrompt(query, context, queryType))
    ensures r == model(LegalQueryPrompt.BuildPrompt(query, TruncateContext(context, GenerationContextLimit), queryType))
  {
    model(GenerationPrompt(query, context, queryType))
  }
}
