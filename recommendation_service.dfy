/**
  RecommendationService (app/services/recommendation_service.py): the recommendations table, looked up and deleted by
  its title column.  Each operation is one query followed by an immediate
  commit.
 */
module RecommendationService {

  import opened Wrappers
  import opened Tables

  /** A stored recommendation: the title and content columns. */
  datatype Recommendation = Recommendation(title: string, content: string)

  /** The column the service filters on. */
  function TitleOf(r: Recommendation): string {
    r.title
  }

  /**
    create_recommendation: one new row holding exactly the given columns is appended
    and returned.  A title no row had before is then found as this row.
   */
  method CreateRecommendation(db: Table<Recommendation>, title: string, content: string) returns (recommendation: Recommendation)
    modifies db
    ensures recommendation.title == title && recommendation.content == content
    ensures db.rows == old(db.rows) + [recommendation]
    ensures Lookup(old(db.rows), TitleOf, title).None? ==> Lookup(db.rows, TitleOf, title) == Some(recommendation)
  {
    recommendation := Recommendation(title, content);
    LookupAfterAppend(db.rows, TitleOf, recommendation, title);
    db.Add(recommendation);
  }

  /** get_recommendation: the first row with that title, or None when no row has it. */
  method GetRecommendation(db: Table<Recommendation>, title: string) returns (recommendation: Option<Recommendation>)
    ensures recommendation == Lookup(db.rows, TitleOf, title)
  {
    recommendation := db.First(TitleOf, title);
  }

  /**
    delete_recommendation: removes the first row with that title if there is one;
    every other row stays, in order.
   */
  method DeleteRecommendation(db: Table<Recommendation>, title: string)
    modifies db
    ensures db.rows == DeleteFirst(old(db.rows), TitleOf, title)
  {
    db.DeleteFirstMatch(TitleOf, title);
  }

  /** Every row, in table order. */
  method ListRecommendations(db: Table<Recommendation>) returns (recommendations: seq<Recommendation>)
    ensures recommendations == db.rows
  {
    recommendations := db.All();
  }
}
