/** The Feedback model: the user who gave it and a content that update_content replaces. */
module FeedbackModel {

  import opened ContentSummary

  class Feedback {
    var user: string
    var content: string

    constructor (user: string, content: string)
      ensures this.user == user && this.content == content
    {
      this.user := user;
      this.content := content;
    }

    method UpdateContent(newContent: string)
      modifies this
      ensures content == newContent
      ensures user == old(user)
    {
      content := newContent;
    }

    /** Reads the record and changes nothing. */
    function GetSummary(): (r: string)
      reads this
      ensures r == Summarize(content)
      ensures |r| <= Limit + |Ellipsis|
    {
      SummaryLength(content);
      Summarize(content)
    }
  }
}
