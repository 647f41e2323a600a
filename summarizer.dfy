/**
 * `analyze_with_mistral`, the same in mistral.py and nxos_mistral.py: the
 * model's reply with surrounding blanks removed, or a fixed sentinel when
 * the call raises.
 */
module Summarizer {
  import opened Wrappers
  import opened Text

  /** What `analyze_with_mistral` returns when anything in the call raises. */
  const AnalysisError: string := "Error during analysis"

  /**
   * `analyze_with_mistral`: `reply` is what `chat.complete` produced, the
   * content of the first choice or the text of the exception it raised.
   */
  function AnalyzeWithMistral(reply: Result<string, string>): (summary: string)
    ensures IsStripped(summary)
    ensures reply.Err? ==> summary == AnalysisError
    ensures reply.Ok? ==> |summary| <= |reply.value|
  {
    match reply
    case Ok(content) => Strip(content)
    case Err(_) => AnalysisError
  }

  /**
   * A reply is the summary with blanks around it: the summary is one piece of
   * the reply, everything before and after it is blank, and no non-blank
   * character of the reply is lost.
   */
  lemma SummaryIsTrimmedReply(content: string)
    ensures var summary := AnalyzeWithMistral(Ok(content));
      var lo := StripStart(content);
      lo + |summary| <= |content| && content[lo..lo + |summary|] == summary
      && (forall i :: 0 <= i < lo ==> IsSpace(content[i]))
      && (forall i :: lo + |summary| <= i < |content| ==> IsSpace(content[i]))
  {
    StripDropsOnlyBlanks(content);
  }

  /** Every non-blank character of the reply is in the summary. */
  lemma SummaryKeepsText(content: string, i: nat)
    requires i < |content| && !IsSpace(content[i])
    ensures var lo := StripStart(content);
      lo <= i < lo + |AnalyzeWithMistral(Ok(content))| && AnalyzeWithMistral(Ok(content))[i - lo] == content[i]
  {
    StripKeepsChar(content, i);
  }

  /** Summarising again changes nothing: a summary is already trimmed. */
  lemma AnalyzeSummaryAgain(reply: Result<string, string>)
    ensures AnalyzeWithMistral(Ok(AnalyzeWithMistral(reply))) == AnalyzeWithMistral(reply)
  {
    StripOfStripped(AnalyzeWithMistral(reply));
  }
}
