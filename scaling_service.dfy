/**
  ScalingService (app/services/scaling_service.py): the scalings table.
  Every row gets a primary key from the store when it is committed; the
  service looks rows up and deletes them by strategy, not by id.
 */
module ScalingService {

  import opened Wrappers
  import opened Tables

  /** A stored scaling: the store-assigned id and the strategy column. */
  datatype Scaling = Scaling(id: int, strategy: string)

  function StrategyOf(s: Scaling): string {
    s.strategy
  }

  function IdOf(s: Scaling): int {
    s.id
  }

  /** The scalings table together with the last primary key the store handed out. */
  class ScalingTable {
    var rows: seq<Scaling>
    var lastId: int

    /** Ids are a primary key, and none exceeds the last one handed out. */
    ghost predicate Valid()
      reads this
    {
      KeysUnique(rows, IdOf) && forall i | 0 <= i < |rows| :: rows[i].id <= lastId
    }

    constructor ()
      ensures Valid() && rows == []
    {
      rows := [];
      lastId := 0;
    }
  }

  /**
    apply_scaling: one new row with the given strategy and an id no row
    already has is appended and returned.
   */
  method ApplyScaling(db: ScalingTable, strategy: string) returns (scaling: Scaling)
    requires db.Valid()
    modifies db
    ensures db.Valid()
    ensures scaling.strategy == strategy
    ensures forall r | r in old(db.rows) :: r.id != scaling.id
    ensures db.rows == old(db.rows) + [scaling]
  {
    db.lastId := db.lastId + 1;
    scaling := Scaling(db.lastId, strategy);
    db.rows := db.rows + [scaling];
  }

  /** get_scaling: the first row with that strategy, or None. */
  method GetScaling(db: ScalingTable, strategy: string) returns (scaling: Option<Scaling>)
    ensures scaling == Lookup(db.rows, StrategyOf, strategy)
  {
    scaling := Lookup(db.rows, StrategyOf, strategy);
  }

  /**
    delete_scaling: removes the first row with that strategy if there is
    one; the ids stay a primary key.
   */
  method DeleteScaling(db: ScalingTable, strategy: string)
    requires db.Valid()
    modifies db
    ensures db.Valid()
    ensures db.rows == DeleteFirst(old(db.rows), StrategyOf, strategy)
  {
    var found := Lookup(db.rows, StrategyOf, strategy);
    if found.Some? {
      DeleteFirstKeepsUnique(db.rows, StrategyOf, strategy, IdOf);
      db.rows := DeleteFirst(db.rows, StrategyOf, strategy);
    }
  }

  /** list_scalings: every row, in table order. */
  method ListScalings(db: ScalingTable) returns (scalings: seq<Scaling>)
    ensures scalings == db.rows
  {
    scalings := db.rows;
  }
}
