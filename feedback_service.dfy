/**
  FeedbackService (app/services/feedback_service.py): the feedbacks table, looked up and deleted by
  its user column.  Each operation is one query followed by an immediate
  commit.
 */
module FeedbackService {

  import opened Wrappers
  import opened Tables

  /** A stored feedback: the user and content columns. */
  datatype Feedback = Feedback(user: string, content: string)

  /** The column the service filters on. */
  function UserOf(r: Feedback): string {
    r.user
  }

  /**
    create_feedback: one new row holding exactly the given columns is appended
    and returned.  A user no row had before is then found as this row.
   */
  method CreateFeedback(db: Table<Feedback>, user: string, content: string) returns (feedback: Feedback)
    modifies db
    ensures feedback.user == user && feedback.content == content
    ensures db.rows == old(db.rows) + [feedback]
    ensures Lookup(old(db.rows), UserOf, user).None? ==> Lookup(db.rows, UserOf, user) == Some(feedback)
  {
    feedback := Feedback(user, content);
    LookupAfterAppend(db.rows, UserOf, feedback, user);
    db.Add(feedback);
  }

  /** get_feedback: the first row with that user, or None when no row has it. */
  method GetFeedback(db: Table<Feedback>, user: string) returns (feedback: Option<Feedback>)
    ensures feedback == Lookup(db.rows, UserOf, user)
  {
    feedback := db.First(UserOf, user);
  }

  /**
    delete_feedback: removes the first row with that user if there is one;
    every other row stays, in order.
   */
  method DeleteFeedback(db: Table<Feedback>, user: string)
    modifies db
    ensures db.rows == DeleteFirst(old(db.rows), UserOf, user)
  {
    db.DeleteFirstMatch(UserOf, user);
  }

  /** Every row, in table order. */
  method ListFeedbacks(db: Table<Feedback>) returns (feedbacks: seq<Feedback>)
    ensures feedbacks == db.rows
  {
    feedbacks := db.All();
  }
}
