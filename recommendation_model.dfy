/** The Recommendation model: a title and a content that update_content replaces. */
module RecommendationModel {

  import opened ContentSummary

  class Recommendation {
    var title: string
    var content: string

    constructor (title: string, content: string)
      ensures this.title == title && this.content == content
    {
      this.title := title;
      this.content := content;
    }

    method UpdateContent(newContent: string)
      modifies this
      ensures content == newContent
      ensures title == old(title)
    {
      content := newContent;
    }

    /** Reads the record and changes nothing. */
    function GetSummary(): (r: string)
      reads this
      ensures r == Summarize(content)
      ensures |r| <= Limit + |Ellipsis|
    {
      SummaryLength(content);
      Summarize(content)
    }
  }
}
