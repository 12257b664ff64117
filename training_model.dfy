/**
  The Training table row: an identifier the store assigns, a title and a
  content that update_content replaces.
 */
module TrainingModel {

  import opened Wrappers
  import opened ContentSummary

  class Training {
    /** The primary key; None until the store has assigned one. */
    var id: Option<int>
    var title: string
    var content: string

    /** The mapped class's keyword constructor sets only the columns it is given. */
    constructor (title: string, content: string)
      ensures id == None && this.title == title && this.content == content
    {
      id := None;
      this.title := title;
      this.content := content;
    }

    method UpdateContent(newContent: string)
      modifies this
      ensures content == newContent
      ensures id == old(id) && title == old(title)
    {
      content := newContent;
    }

    /** Reads the record and changes nothing. */
    function GetSummary(): (r: string)
      reads this
      ensures r == Summarize(content)
      ensures |r| <= Limit + |Ellipsis|
    {
      SummaryLength(content);
      Summarize(content)
    }
  }
}
