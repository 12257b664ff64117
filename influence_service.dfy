/**
  InfluenceService (app/services/influence_service.py): the influences table, looked up and deleted by
  its name column.  Each operation is one query followed by an immediate
  commit.
 */
module InfluenceService {

  import opened Wrappers
  import opened Tables

  /** A stored influence: the name and effect columns. */
  datatype Influence = Influence(name: string, effect: string)

  /** The column the service filters on. */
  function NameOf(r: Influence): string {
    r.name
  }

  /**
    create_influence: one new row holding exactly the given columns is appended
    and returned.  A name no row had before is then found as this row.
   */
  method CreateInfluence(db: Table<Influence>, name: string, effect: string) returns (influence: Influence)
    modifies db
    ensures influence.name == name && influence.effect == effect
    ensures db.rows == old(db.rows) + [influence]
    ensures Lookup(old(db.rows), NameOf, name).None? ==> Lookup(db.rows, NameOf, name) == Some(influence)
  {
    influence := Influence(name, effect);
    LookupAfterAppend(db.rows, NameOf, influence, name);
    db.Add(influence);
  }

  /** get_influence: the first row with that name, or None when no row has it. */
  method GetInfluence(db: Table<Influence>, name: string) returns (influence: Option<Influence>)
    ensures influence == Lookup(db.rows, NameOf, name)
  {
    influence := db.First(NameOf, name);
  }

  /**
    delete_influence: removes the first row with that name if there is one;
    every other row stays, in order.
   */
  method DeleteInfluence(db: Table<Influence>, name: string)
    modifies db
    ensures db.rows == DeleteFirst(old(db.rows), NameOf, name)
  {
    db.DeleteFirstMatch(NameOf, name);
  }

  /** Every row, in table order. */
  method GetAllInfluences(db: Table<Influence>) returns (influences: seq<Influence>)
    ensures influences == db.rows
  {
    influences := db.All();
  }
}
