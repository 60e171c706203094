/**
 * The two text-generation calls, with the network reply as a parameter: what the dashboard finally
 * receives for a summary or a briefing, including the fixed fallback messages.
 */
module GeminiService {
  import opened Types
  import App

  /** The outcome of one call to the model: its text (possibly empty), or a thrown error. */
  datatype Reply = Answered(text: string) | Failed

  const MissingKeySummary := "API Key is missing. Please configure process.env.API_KEY."
  const EmptySummary := "Could not generate summary."
  const FailedSummary := "Failed to generate summary. Please try again later."
  const MissingKeyBriefing := "API Key missing."
  const EmptyBriefing := "No briefing available."
  const FailedBriefing := "Could not generate briefing."

  /** `summarizeContent`: the text shown under an article once the request settles. */
  function SummarizeContent(apiKey: string, reply: Reply): (r: string)
    ensures r != ""
    ensures apiKey == "" ==> r == MissingKeySummary
    ensures apiKey != "" && reply.Answered? && reply.text != "" ==> r == reply.text
    ensures apiKey != "" && reply == Answered("") ==> r == EmptySummary
    ensures apiKey != "" && reply.Failed? ==> r == FailedSummary
  {
    if apiKey == "" then MissingKeySummary
    else match reply
      case Answered(text) => if text != "" then text else EmptySummary
      case Failed => FailedSummary
  }

  /** `generateBriefing`: the paragraph shown in the briefing banner. */
  function GenerateBriefing(apiKey: string, reply: Reply): (r: string)
    ensures r != ""
    ensures apiKey == "" ==> r == MissingKeyBriefing
    ensures apiKey != "" && reply.Answered? && reply.text != "" ==> r == reply.text
    ensures apiKey != "" && reply == Answered("") ==> r == EmptyBriefing
    ensures apiKey != "" && reply.Failed? ==> r == FailedBriefing
  {
    if apiKey == "" then MissingKeyBriefing
    else match reply
      case Answered(text) => if text != "" then text else EmptyBriefing
      case Failed => FailedBriefing
  }

  /**
   * A summary request whose call fails: the article's flag drops and its summary becomes the
   * fixed failure text (or the missing-key text), never left unset.
   */
  lemma FailedSummaryIsShown(articles: seq<Article>, id: string, apiKey: string)
    ensures var r := App.ApplySummary(App.MarkSummarizing(articles, id), id, SummarizeContent(apiKey, Failed));
      forall i :: 0 <= i < |r| && articles[i].id == id ==>
        r[i].isSummarizing == Some(false) &&
        r[i].summary == Some(if apiKey == "" then MissingKeySummary else FailedSummary)
  {
  }
}
