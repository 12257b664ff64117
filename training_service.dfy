/**
  TrainingService (app/services/training_service.py): the trainings table, looked up and deleted by
  its title column.  Each operation is one query followed by an immediate
  commit.
 */
module TrainingService {

  import opened Wrappers
  import opened Tables

  /** A stored training: the title and content columns. */
  datatype Training = Training(title: string, content: string)

  /** The column the service filters on. */
  function TitleOf(r: Training): string {
    r.title
  }

  /**
    create_training: one new row holding exactly the given columns is appended
    and returned.  A title no row had before is then found as this row.
   */
  method CreateTraining(db: Table<Training>, title: string, content: string) returns (training: Training)
    modifies db
    ensures training.title == title && training.content == content
    ensures db.rows == old(db.rows) + [training]
    ensures Lookup(old(db.rows), TitleOf, title).None? ==> Lookup(db.rows, TitleOf, title) == Some(training)
  {
    training := Training(title, content);
    LookupAfterAppend(db.rows, TitleOf, training, title);
    db.Add(training);
  }

  /** get_training: the first row with that title, or None when no row has it. */
  method GetTraining(db: Table<Training>, title: string) returns (training: Option<Training>)
    ensures training == Lookup(db.rows, TitleOf, title)
  {
    training := db.First(TitleOf, title);
  }

  /**
    delete_training: removes the first row with that title if there is one;
    every other row stays, in order.
   */
  method DeleteTraining(db: Table<Training>, title: string)
    modifies db
    ensures db.rows == DeleteFirst(old(db.rows), TitleOf, title)
  {
    db.DeleteFirstMatch(TitleOf, title);
  }

  /** Every row, in table order. */
  method ListTrainings(db: Table<Training>) returns (trainings: seq<Training>)
    ensures trainings == db.rows
  {
    trainings := db.All();
  }
}
