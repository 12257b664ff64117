/**
  RoleService (app/services/role_service.py): the roles table, looked up and deleted by
  its name column.  Each operation is one query followed by an immediate
  commit.
 */
module RoleService {

  import opened Wrappers
  import opened Tables

  /** A stored role: the name and description columns. */
  datatype Role = Role(name: string, description: string)

  /** The column the service filters on. */
  function NameOf(r: Role): string {
    r.name
  }

  /**
    create_role: one new row holding exactly the given columns is appended
    and returned.  A name no row had before is then found as this row.
   */
  method CreateRole(db: Table<Role>, name: string, description: string) returns (role: Role)
    modifies db
    ensures role.name == name && role.description == description
    ensures db.rows == old(db.rows) + [role]
    ensures Lookup(old(db.rows), NameOf, name).None? ==> Lookup(db.rows, NameOf, name) == Some(role)
  {
    role := Role(name, description);
    LookupAfterAppend(db.rows, NameOf, role, name);
    db.Add(role);
  }

  /** get_role: the first row with that name, or None when no row has it. */
  method GetRole(db: Table<Role>, name: string) returns (role: Option<Role>)
    ensures role == Lookup(db.rows, NameOf, name)
  {
    role := db.First(NameOf, name);
  }

  /**
    delete_role: removes the first row with that name if there is one;
    every other row stays, in order.
   */
  method DeleteRole(db: Table<Role>, name: string)
    modifies db
    ensures db.rows == DeleteFirst(old(db.rows), NameOf, name)
  {
    db.DeleteFirstMatch(NameOf, name);
  }

  /** Every row, in table order. */
  method ListRoles(db: Table<Role>) returns (roles: seq<Role>)
    ensures roles == db.rows
  {
    roles := db.All();
  }
}
