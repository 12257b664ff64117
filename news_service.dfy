/**
  NewsService (app/services/news_service.py): the news table, looked up and deleted by
  its title column.  Each operation is one query followed by an immediate
  commit.
 */
module NewsService {

  import opened Wrappers
  import opened Tables

  /** A stored news: the title and content columns. */
  datatype News = News(title: string, content: string)

  /** The column the service filters on. */
  function TitleOf(r: News): string {
    r.title
  }

  /**
    create_news: one new row holding exactly the given columns is appended
    and returned.  A title no row had before is then found as this row.
   */
  method CreateNews(db: Table<News>, title: string, content: string) returns (news: News)
    modifies db
    ensures news.title == title && news.content == content
    ensures db.rows == old(db.rows) + [news]
    ensures Lookup(old(db.rows), TitleOf, title).None? ==> Lookup(db.rows, TitleOf, title) == Some(news)
  {
    news := News(title, content);
    LookupAfterAppend(db.rows, TitleOf, news, title);
    db.Add(news);
  }

  /** get_news: the first row with that title, or None when no row has it. */
  method GetNews(db: Table<News>, title: string) returns (news: Option<News>)
    ensures news == Lookup(db.rows, TitleOf, title)
  {
    news := db.First(TitleOf, title);
  }

  /**
    delete_news: removes the first row with that title if there is one;
    every other row stays, in order.
   */
  method DeleteNews(db: Table<News>, title: string)
    modifies db
    ensures db.rows == DeleteFirst(old(db.rows), TitleOf, title)
  {
    db.DeleteFirstMatch(TitleOf, title);
  }

  /** Every row, in table order. */
  method ListNews(db: Table<News>) returns (news: seq<News>)
    ensures news == db.rows
  {
    news := db.All();
  }
}
