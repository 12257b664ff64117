/**
  EthicsService (app/services/ethics_service.py): a parent table of ethics
  rows, keyed by a store-assigned id, and a child table of principles that
  point at their parent by ethics_id.
 */
module EthicsService {

  import opened Wrappers
  import opened Tables

  datatype Ethics = Ethics(id: int)

  /**
    A child row: one principle and the ethics_id column pointing at its
    parent, None once it holds NULL.
   */
  datatype EthicalPrinciple = EthicalPrinciple(principle: string, ethicsId: Option<int>)

  function IdOf(e: Ethics): int {
    e.id
  }

  function ParentOf(p: EthicalPrinciple): Option<int> {
    p.ethicsId
  }

  /** The child rows apply_ethics adds for the parent ethicsId, one per principle, in order. */
  function ChildRows(ethicsId: int, principles: seq<string>): (r: seq<EthicalPrinciple>)
    ensures |r| == |principles|
    ensures forall i | 0 <= i < |r| :: r[i] == EthicalPrinciple(principles[i], Some(ethicsId))
  {
    if principles == [] then []
    else
      var n := |principles| - 1;
      ChildRows(ethicsId, principles[..n]) + [EthicalPrinciple(principles[n], Some(ethicsId))]
  }

  /** The principle texts of a list of child rows. */
  function PrincipleTexts(children: seq<EthicalPrinciple>): (r: seq<string>)
    ensures |r| == |children|
    ensures forall i | 0 <= i < |r| :: r[i] == children[i].principle
  {
    seq(|children|, i requires 0 <= i < |children| => children[i].principle)
  }

  /** The child rows keep the principles exactly: reading their texts back gives the list. */
  lemma ChildRowsRoundTrip(ethicsId: int, principles: seq<string>)
    ensures PrincipleTexts(ChildRows(ethicsId, principles)) == principles
  {
  }

  /** Every child row made for one parent is found by that parent's id. */
  lemma {:induction false} ChildRowsAllMatch(ethicsId: int, principles: seq<string>)
    ensures Matching(ChildRows(ethicsId, principles), ParentOf, Some(ethicsId)) == ChildRows(ethicsId, principles)
  {
    if principles != [] {
      var n := |principles| - 1;
      var c := EthicalPrinciple(principles[n], Some(ethicsId));
      ChildRowsAllMatch(ethicsId, principles[..n]);
      MatchingAppend(ChildRows(ethicsId, principles[..n]), [c], ParentOf, Some(ethicsId));
      MatchingSingle(c, ParentOf, Some(ethicsId));
    }
  }

  /** The largest id of a non-empty ethics table. */
  function MaxId(rows: seq<Ethics>): (m: int)
    requires rows != []
    ensures forall i | 0 <= i < |rows| :: rows[i].id <= m
    ensures exists i | 0 <= i < |rows| :: rows[i].id == m
  {
    if |rows| == 1 then rows[0].id
    else
      var rest := MaxId(rows[1..]);
      assert forall i | 1 <= i < |rows| :: rows[i] == rows[1..][i - 1];
      if rows[0].id >= rest then rows[0].id else rest
  }

  /**
    The id SQLite gives a new row of a table whose INTEGER PRIMARY KEY has
    no AUTOINCREMENT: one above the largest id present, 1 in an empty
    table.  After the row holding the largest id is deleted, that id is
    handed out again.
   */
  function NextId(rows: seq<Ethics>): (id: int)
    ensures forall i | 0 <= i < |rows| :: rows[i].id < id
    ensures rows == [] ==> id == 1
    ensures rows != [] ==> exists i | 0 <= i < |rows| :: rows[i].id == id - 1
  {
    if rows == [] then 1 else MaxId(rows) + 1
  }

  /**
    What the ORM does to the children of a deleted parent under the plain
    relationship of app/models/ethics.py: their ethics_id is set to NULL.
   */
  function Orphaned(children: seq<EthicalPrinciple>, id: int): (r: seq<EthicalPrinciple>)
    ensures |r| == |children|
    ensures forall i | 0 <= i < |r| :: r[i].principle == children[i].principle
    ensures forall i | 0 <= i < |r| :: children[i].ethicsId == Some(id) ==> r[i].ethicsId.None?
    ensures forall i | 0 <= i < |r| :: children[i].ethicsId != Some(id) ==> r[i] == children[i]
  {
    if children == [] then []
    else
      var c := children[0];
      var rest := Orphaned(children[1..], id);
      assert forall i | 1 <= i < |children| :: children[i] == children[1..][i - 1];
      [if c.ethicsId == Some(id) then EthicalPrinciple(c.principle, None) else c] + rest
  }

  /**
    After the delete no child points at the deleted parent, and the
    children of every other parent are the same rows in the same order.
   */
  lemma {:induction false} OrphanedMatching(children: seq<EthicalPrinciple>, id: int, k: Option<int>)
    ensures k == Some(id) ==> Matching(Orphaned(children, id), ParentOf, k) == []
    ensures k.Some? && k != Some(id) ==> Matching(Orphaned(children, id), ParentOf, k) == Matching(children, ParentOf, k)
  {
    if children != [] {
      OrphanedMatching(children[1..], id, k);
      assert Orphaned(children, id)[1..] == Orphaned(children[1..], id);
    }
  }

  /** Every ethics_id that is not NULL names a stored parent: the foreign key holds. */
  ghost predicate ParentsPresent(ethics: seq<Ethics>, children: seq<EthicalPrinciple>) {
    forall i | 0 <= i < |children| && children[i].ethicsId.Some? ::
      Lookup(ethics, IdOf, children[i].ethicsId.value).Some?
  }

  /** Both tables of the store. */
  class EthicsStore {
    var ethics: seq<Ethics>
    var principles: seq<EthicalPrinciple>

    /** Parent ids are a primary key and every child's ethics_id is NULL or a stored parent's id. */
    ghost predicate Valid()
      reads this
    {
      KeysUnique(ethics, IdOf) && ParentsPresent(ethics, principles)
    }

    constructor ()
      ensures Valid() && ethics == [] && principles == []
    {
      ethics := [];
      principles := [];
    }
  }

  /**
    apply_ethics: commits a new parent first, so that its id is known, then
    adds one child per principle pointing at that id.  The new id may be
    one a deleted parent had; the children of the new parent are still
    exactly the given principles, in order, and an empty list gives a
    parent with no children.
   */
  method ApplyEthics(db: EthicsStore, principles: seq<string>) returns (ethics: Ethics)
    requires db.Valid()
    modifies db
    ensures db.Valid()
    ensures ethics.id == NextId(old(db.ethics))
    ensures forall r | r in old(db.ethics) :: r.id != ethics.id
    ensures db.ethics == old(db.ethics) + [ethics]
    ensures db.principles == old(db.principles) + ChildRows(ethics.id, principles)
    ensures Matching(db.principles, ParentOf, Some(ethics.id)) == ChildRows(ethics.id, principles)
  {
    ethics := Ethics(NextId(db.ethics));
    FreshIdKeepsUnique(db.ethics, ethics);
    ChildrenOfFreshParent(db.ethics, db.principles, ethics, principles);
    db.ethics := db.ethics + [ethics];
    // the children added to the session, written to the table by the second commit
    var added := [];
    var i := 0;
    while i < |principles|
      invariant 0 <= i <= |principles|
      invariant added == ChildRows(ethics.id, principles[..i])
    {
      assert principles[..i + 1][..i] == principles[..i];
      added := added + [EthicalPrinciple(principles[i], Some(ethics.id))];
      i := i + 1;
    }
    assert principles[..i] == principles;
    db.principles := db.principles + added;
  }

  /** A parent whose id no stored parent has keeps parent ids unique. */
  lemma FreshIdKeepsUnique(rows: seq<Ethics>, e: Ethics)
    requires KeysUnique(rows, IdOf)
    requires e.id == NextId(rows)
    ensures KeysUnique(rows + [e], IdOf)
    ensures forall r | r in rows :: r.id != e.id
  {
  }

  /**
    A parent with a new id has no children yet, since every stored
    ethics_id names a stored parent.  After its children are appended, the
    foreign key still holds and they are the only rows pointing at it.
   */
  lemma {:induction false} ChildrenOfFreshParent(parents: seq<Ethics>, children: seq<EthicalPrinciple>, e: Ethics, principles: seq<string>)
    requires ParentsPresent(parents, children)
    requires e.id == NextId(parents)
    ensures ParentsPresent(parents + [e], children + ChildRows(e.id, principles))
    ensures Matching(children + ChildRows(e.id, principles), ParentOf, Some(e.id)) == ChildRows(e.id, principles)
  {
    var c := ChildRows(e.id, principles);
    var all := children + c;
    assert Lookup(parents, IdOf, e.id).None?;
    LookupAfterAppend(parents, IdOf, e, e.id);
    forall i | 0 <= i < |all| && all[i].ethicsId.Some?
      ensures Lookup(parents + [e], IdOf, all[i].ethicsId.value).Some?
    {
      LookupAfterAppend(parents, IdOf, e, all[i].ethicsId.value);
      if i >= |children| {
        assert all[i] == c[i - |children|];
      } else {
        assert all[i] == children[i];
      }
    }
    forall j | 0 <= j < |children| ensures ParentOf(children[j]) != Some(e.id) {
      if children[j].ethicsId.Some? {
        assert Lookup(parents, IdOf, children[j].ethicsId.value).Some?;
      }
    }
    MatchingAppend(children, c, ParentOf, Some(e.id));
    MatchingNone(children, ParentOf, Some(e.id));
    ChildRowsAllMatch(e.id, principles);
  }

  /** get_all_ethics: every parent row, in table order. */
  method GetAllEthics(db: EthicsStore) returns (ethicsList: seq<Ethics>)
    ensures ethicsList == db.ethics
  {
    ethicsList := db.ethics;
  }

  /**
    delete_ethics: removes the parent with that id if there is one, and the
    ORM sets the ethics_id of its children to NULL.  Ids being unique, no
    row with that id is left and no child points at it; every other id is
    answered as before and keeps its children.
   */
  method DeleteEthics(db: EthicsStore, id: int)
    requires db.Valid()
    modifies db
    ensures db.Valid()
    ensures db.ethics == DeleteFirst(old(db.ethics), IdOf, id)
    ensures Lookup(old(db.ethics), IdOf, id).Some? ==> db.principles == Orphaned(old(db.principles), id)
    ensures Lookup(old(db.ethics), IdOf, id).None? ==> db.principles == old(db.principles)
    ensures Lookup(db.ethics, IdOf, id).None?
    ensures Matching(db.principles, ParentOf, Some(id)) == []
    ensures forall k | k != id :: Lookup(db.ethics, IdOf, k) == Lookup(old(db.ethics), IdOf, k)
    ensures forall k | k != id :: Matching(db.principles, ParentOf, Some(k)) == Matching(old(db.principles), ParentOf, Some(k))
  {
    UniqueKeyMatchesAtMostOne(db.ethics, IdOf, id);
    LookupAfterDelete(db.ethics, IdOf, id);
    DeleteFirstKeepsUnique(db.ethics, IdOf, id, IdOf);
    forall k | k != id
      ensures Lookup(DeleteFirst(db.ethics, IdOf, id), IdOf, k) == Lookup(db.ethics, IdOf, k)
    {
      LookupOtherKeyAfterDelete(db.ethics, IdOf, id, k);
    }
    forall k | k != id
      ensures Matching(Orphaned(db.principles, id), ParentOf, Some(k)) == Matching(db.principles, ParentOf, Some(k))
    {
      OrphanedMatching(db.principles, id, Some(k));
    }
    var found := Lookup(db.ethics, IdOf, id);
    if found.Some? {
      OrphanedMatching(db.principles, id, Some(id));
      OrphanedKeepsParents(db.ethics, db.principles, id);
      db.ethics := DeleteFirst(db.ethics, IdOf, id);
      db.principles := Orphaned(db.principles, id);
    } else {
      forall j | 0 <= j < |db.principles| ensures ParentOf(db.principles[j]) != Some(id) {
        if db.principles[j].ethicsId.Some? {
          assert Lookup(db.ethics, IdOf, db.principles[j].ethicsId.value).Some?;
        }
      }
      MatchingNone(db.principles, ParentOf, Some(id));
    }
  }

  /** Deleting a parent and orphaning its children keeps the foreign key. */
  lemma OrphanedKeepsParents(parents: seq<Ethics>, children: seq<EthicalPrinciple>, id: int)
    requires ParentsPresent(parents, children)
    ensures ParentsPresent(DeleteFirst(parents, IdOf, id), Orphaned(children, id))
  {
    var o := Orphaned(children, id);
    forall i | 0 <= i < |o| && o[i].ethicsId.Some?
      ensures Lookup(DeleteFirst(parents, IdOf, id), IdOf, o[i].ethicsId.value).Some?
    {
      assert o[i] == children[i];
      LookupOtherKeyAfterDelete(parents, IdOf, id, o[i].ethicsId.value);
    }
  }
}
