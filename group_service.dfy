/**
  GroupService (app/services/group_service.py): the groups table, looked up and deleted by
  its name column.  Each operation is one query followed by an immediate
  commit.
 */
module GroupService {

  import opened Wrappers
  import opened Tables

  /** A stored group: the name and members columns. */
  datatype Group = Group(name: string, members: seq<string>)

  /** The column the service filters on. */
  function NameOf(r: Group): string {
    r.name
  }

  /**
    create_group: one new row holding exactly the given columns is appended
    and returned.  A name no row had before is then found as this row.
   */
  method CreateGroup(db: Table<Group>, name: string, members: seq<string>) returns (group: Group)
    modifies db
    ensures group.name == name && group.members == members
    ensures db.rows == old(db.rows) + [group]
    ensures Lookup(old(db.rows), NameOf, name).None? ==> Lookup(db.rows, NameOf, name) == Some(group)
  {
    group := Group(name, members);
    LookupAfterAppend(db.rows, NameOf, group, name);
    db.Add(group);
  }

  /** get_group: the first row with that name, or None when no row has it. */
  method GetGroup(db: Table<Group>, name: string) returns (group: Option<Group>)
    ensures group == Lookup(db.rows, NameOf, name)
  {
    group := db.First(NameOf, name);
  }

  /**
    delete_group: removes the first row with that name if there is one;
    every other row stays, in order.
   */
  method DeleteGroup(db: Table<Group>, name: string)
    modifies db
    ensures db.rows == DeleteFirst(old(db.rows), NameOf, name)
  {
    db.DeleteFirstMatch(NameOf, name);
  }

  /** Every row, in table order. */
  method ListGroups(db: Table<Group>) returns (groups: seq<Group>)
    ensures groups == db.rows
  {
    groups := db.All();
  }
}
