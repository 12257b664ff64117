/**
  The summary that Recommendation, Feedback, News and Training all compute
  with the same expression: content up to 100 characters is its own
  summary; longer content is cut to its first 100 characters and "..." is
  appended.
 */
module ContentSummary {

  /** The number of characters a summary keeps before the ellipsis. */
  const Limit: nat := 100

  const Ellipsis: string := "..."

  function Summarize(content: string): (r: string)
    ensures |content| <= Limit ==> r == content
    ensures |content| > Limit ==> |r| == Limit + |Ellipsis| && r[..Limit] == content[..Limit] && r[Limit..] == Ellipsis
  {
    if |content| > Limit then content[..Limit] + Ellipsis else content
  }

  /** A summary is never longer than 103 characters, and it is exactly 103 long precisely when the content was cut. */
  lemma SummaryLength(content: string)
    ensures |Summarize(content)| <= Limit + |Ellipsis|
    ensures |Summarize(content)| == Limit + |Ellipsis| <==> |content| > Limit
  {
  }

  /** The summary and the content agree on the first min(|content|, 100) characters. */
  lemma SummaryKeepsPrefix(content: string, k: nat)
    requires k <= Limit && k <= |content|
    ensures k <= |Summarize(content)| && Summarize(content)[..k] == content[..k]
  {
    if |content| > Limit {
      assert Summarize(content)[..k] == Summarize(content)[..Limit][..k];
    }
  }

  /**
    The content is its own summary exactly when it is short, or when it is
    103 characters long and already ends in "..." (a summary of something).
   */
  lemma SummaryFixedPoints(content: string)
    ensures Summarize(content) == content
        <==> |content| <= Limit || (|content| == Limit + |Ellipsis| && content[Limit..] == Ellipsis)
  {
    if |content| > Limit && |content| == Limit + |Ellipsis| && content[Limit..] == Ellipsis {
      assert content == content[..Limit] + content[Limit..];
    }
  }

  /** Summarizing a summary changes nothing. */
  lemma SummaryIdempotent(content: string)
    ensures Summarize(Summarize(content)) == Summarize(content)
  {
    SummaryFixedPoints(Summarize(content));
  }
}
