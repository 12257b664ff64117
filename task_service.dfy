/**
  TaskService (app/services/task_service.py): the tasks table, looked up and deleted by
  its name column.  Each operation is one query followed by an immediate
  commit.
 */
module TaskService {

  import opened Wrappers
  import opened Tables

  /** A stored task: the name and action columns. */
  datatype Task = Task(name: string, action: string)

  /** The column the service filters on. */
  function NameOf(r: Task): string {
    r.name
  }

  /**
    create_task: one new row holding exactly the given columns is appended
    and returned.  A name no row had before is then found as this row.
   */
  method CreateTask(db: Table<Task>, name: string, action: string) returns (task: Task)
    modifies db
    ensures task.name == name && task.action == action
    ensures db.rows == old(db.rows) + [task]
    ensures Lookup(old(db.rows), NameOf, name).None? ==> Lookup(db.rows, NameOf, name) == Some(task)
  {
    task := Task(name, action);
    LookupAfterAppend(db.rows, NameOf, task, name);
    db.Add(task);
  }

  /** get_task: the first row with that name, or None when no row has it. */
  method GetTask(db: Table<Task>, name: string) returns (task: Option<Task>)
    ensures task == Lookup(db.rows, NameOf, name)
  {
    task := db.First(NameOf, name);
  }

  /**
    delete_task: removes the first row with that name if there is one;
    every other row stays, in order.
   */
  method DeleteTask(db: Table<Task>, name: string)
    modifies db
    ensures db.rows == DeleteFirst(old(db.rows), NameOf, name)
  {
    db.DeleteFirstMatch(NameOf, name);
  }

  /** Every row, in table order. */
  method ListTasks(db: Table<Task>) returns (tasks: seq<Task>)
    ensures tasks == db.rows
  {
    tasks := db.All();
  }
  // The service defines create, get, delete and list only: there is no update.

}
