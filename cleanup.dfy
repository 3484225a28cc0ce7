/**
 * The periodic sweep of metadata rows that no turn references (`cleanup`
 * in main.go). It selects every row whose turn id is null, tries to remove
 * each row's blob file, and deletes, in the same transaction, the rows
 * whose removal succeeded or found no file.
 */
module Reclamation {
  import opened Wrappers

  /** The columns of a metadata row that the sweep looks at. */
  datatype Metadata = Metadata(path: string, turnId: Option<int>)

  /** One selected row: its primary key and its columns. */
  datatype Row = Row(id: int, meta: Metadata)

  /** What removing a file reports. */
  datatype RemoveOutcome = Removed | NotExist | OtherErr

  /** The error the sweep hands back to its caller. */
  datatype DbError = SelectFailed | DeleteFailed

  /** The metadata table, keyed by id. */
  type Table = map<int, Metadata>

  // ---------------------------------------------------------------------
  // Specification of the sweep on values
  // ---------------------------------------------------------------------

  /** Ids of the rows with a null turn id. */
  function Unlinked(t: Table): set<int>
  {
    set id | id in t && t[id].turnId.None?
  }

  /** The blob paths of the rows with a null turn id. */
  function UnlinkedPaths(t: Table): set<string>
  {
    set id | id in t && t[id].turnId.None? :: t[id].path
  }

  /**
   * Ids of the unlinked rows whose file removal does not fail with an
   * unexpected error: the rows the sweep deletes.
   */
  function Reclaimable(t: Table, faults: set<string>): set<int>
  {
    set id | id in t && t[id].turnId.None? && t[id].path !in faults
  }

  /** The table after a sweep that commits. */
  function Swept(t: Table, faults: set<string>): Table
  {
    t - Reclaimable(t, faults)
  }

  /** The files after a sweep that got past the select. */
  function SweptFiles(t: Table, files: set<string>, faults: set<string>): set<string>
  {
    files - (UnlinkedPaths(t) - faults)
  }

  /** Ids of the unlinked rows whose blob is at `p`. */
  function UnlinkedAt(t: Table, p: string): set<int>
  {
    set id | id in t && t[id].turnId.None? && t[id].path == p
  }

  // ---------------------------------------------------------------------
  // The selected rows and the batch the loop builds
  // ---------------------------------------------------------------------

  function Ids(rows: seq<Row>): set<int>
  {
    set i | 0 <= i < |rows| :: rows[i].id
  }

  /** `rows` holds each unlinked row of `t` exactly once, with its columns. */
  ghost predicate Lists(rows: seq<Row>, t: Table)
  {
    (forall i, j :: 0 <= i < j < |rows| ==> rows[i].id != rows[j].id) &&
    (forall i :: 0 <= i < |rows| ==> rows[i].id in t && t[rows[i].id] == rows[i].meta) &&
    Ids(rows) == Unlinked(t)
  }

  /** The ids the loop appends to its deletion batch, in order. */
  function Batch(rows: seq<Row>, faults: set<string>): seq<int>
  {
    if rows == [] then []
    else
      var last := rows[|rows| - 1];
      Batch(rows[..|rows| - 1], faults) + (if last.meta.path in faults then [] else [last.id])
  }

  /** The paths the loop removes (or finds already gone). */
  function Cleared(rows: seq<Row>, faults: set<string>): set<string>
  {
    set i | 0 <= i < |rows| && rows[i].meta.path !in faults :: rows[i].meta.path
  }

  /** The paths the loop tries to remove, in order. */
  function Paths(rows: seq<Row>): seq<string>
  {
    if rows == [] then [] else Paths(rows[..|rows| - 1]) + [rows[|rows| - 1].meta.path]
  }

  function Elems<T>(s: seq<T>): set<T>
  {
    set x | x in s
  }

  // ---------------------------------------------------------------------
  // Lemmas about the batch
  // ---------------------------------------------------------------------

  /** An id is in the batch exactly when one of the rows has it and a path whose removal does not fail. */
  lemma {:induction false} BatchElems(rows: seq<Row>, faults: set<string>)
    ensures forall id :: id in Batch(rows, faults) <==>
      exists i :: 0 <= i < |rows| && rows[i].id == id && rows[i].meta.path !in faults
  {
    if rows != [] {
      var init := rows[..|rows| - 1];
      BatchElems(init, faults);
      forall id | id in Batch(rows, faults)
        ensures exists i :: 0 <= i < |rows| && rows[i].id == id && rows[i].meta.path !in faults
      {
        if id in Batch(init, faults) {
          var i :| 0 <= i < |init| && init[i].id == id && init[i].meta.path !in faults;
          assert rows[i] == init[i];
        } else {
          assert rows[|rows| - 1].id == id;
        }
      }
      forall id | exists i :: 0 <= i < |rows| && rows[i].id == id && rows[i].meta.path !in faults
        ensures id in Batch(rows, faults)
      {
        var i :| 0 <= i < |rows| && rows[i].id == id && rows[i].meta.path !in faults;
        if i < |rows| - 1 {
          assert init[i] == rows[i];
        }
      }
    }
  }

  /** When the rows list the table, the batch is exactly the reclaimable rows. */
  lemma BatchIsReclaimable(rows: seq<Row>, t: Table, faults: set<string>)
    requires Lists(rows, t)
    ensures Elems(Batch(rows, faults)) == Reclaimable(t, faults)
  {
    BatchElems(rows, faults);
    forall id | id in Reclaimable(t, faults) ensures id in Batch(rows, faults) {
      assert id in Ids(rows);
      var i :| 0 <= i < |rows| && rows[i].id == id;
    }
    forall id | id in Batch(rows, faults) ensures id in Reclaimable(t, faults) {
      var i :| 0 <= i < |rows| && rows[i].id == id && rows[i].meta.path !in faults;
      assert id in Ids(rows);
    }
  }

  /** When the rows list the table, the cleared paths are those of the unlinked rows without a fault. */
  lemma ClearedIsUnlinkedPaths(rows: seq<Row>, t: Table, faults: set<string>)
    requires Lists(rows, t)
    ensures Cleared(rows, faults) == UnlinkedPaths(t) - faults
  {
    forall p | p in UnlinkedPaths(t) - faults ensures p in Cleared(rows, faults) {
      var id :| id in t && t[id].turnId.None? && t[id].path == p;
      assert id in Ids(rows);
      var i :| 0 <= i < |rows| && rows[i].id == id;
    }
    forall p | p in Cleared(rows, faults) ensures p in UnlinkedPaths(t) - faults {
      var i :| 0 <= i < |rows| && rows[i].meta.path !in faults && rows[i].meta.path == p;
      assert rows[i].id in Ids(rows);
    }
  }

  /** The select after listing `rows`, with the ids in `pending` still to come. */
  ghost predicate SelectInv(rows: seq<Row>, t: Table, pending: set<int>)
  {
    pending <= Unlinked(t) &&
    (forall i :: 0 <= i < |rows| ==>
       rows[i].id in t && t[rows[i].id] == rows[i].meta && rows[i].meta.turnId.None?) &&
    (forall i, j :: 0 <= i < j < |rows| ==> rows[i].id != rows[j].id) &&
    Ids(rows) == Unlinked(t) - pending
  }

  /** Listing one more pending row keeps the select's invariant. */
  lemma SelectStep(rows: seq<Row>, t: Table, pending: set<int>, id: int)
    requires SelectInv(rows, t, pending) && id in pending
    ensures id in t && SelectInv(rows + [Row(id, t[id])], t, pending - {id})
  {
    var rows' := rows + [Row(id, t[id])];
    assert Ids(rows') == Ids(rows) + {id} by {
      forall i | 0 <= i < |rows| ensures rows'[i] == rows[i] { }
      assert rows'[|rows|].id == id;
    }
    forall i | 0 <= i < |rows| ensures rows[i].id != id {
      assert rows[i].id in Ids(rows);
    }
  }

  /** A set is empty or has an element; the witness the select's choice needs. */
  lemma EmptyOrInhabited(s: set<int>)
    ensures s == {} || exists x :: x in s
  {
    if forall x :: x !in s {
      assert s == {};
    }
  }

  /** A list of rows with distinct ids has as many ids as rows. */
  lemma {:induction false} IdsCard(rows: seq<Row>)
    requires forall i, j :: 0 <= i < j < |rows| ==> rows[i].id != rows[j].id
    ensures |Ids(rows)| == |rows|
  {
    if rows != [] {
      var init := rows[..|rows| - 1];
      IdsCard(init);
      var last := rows[|rows| - 1].id;
      assert Ids(rows) == Ids(init) + {last} by {
        forall i | 0 <= i < |init| ensures init[i] == rows[i] { }
      }
      assert last !in Ids(init) by {
        forall i | 0 <= i < |init| ensures init[i].id != last {
          assert init[i] == rows[i];
        }
      }
    }
  }

  /** The paths tried are one per row, and each is the path of one of the rows. */
  lemma {:induction false} PathsOfRows(rows: seq<Row>)
    ensures |Paths(rows)| == |rows|
    ensures forall k :: 0 <= k < |rows| ==> Paths(rows)[k] == rows[k].meta.path
  {
    if rows != [] {
      PathsOfRows(rows[..|rows| - 1]);
    }
  }

  /** Ids of the rows in `rows` whose path is `p`. */
  function IdsAt(rows: seq<Row>, p: string): set<int>
  {
    set i | 0 <= i < |rows| && rows[i].meta.path == p :: rows[i].id
  }

  /** With distinct ids, a path is tried once for each row that has it. */
  lemma {:induction false} PathsCount(rows: seq<Row>, p: string)
    requires forall i, j :: 0 <= i < j < |rows| ==> rows[i].id != rows[j].id
    ensures multiset(Paths(rows))[p] == |IdsAt(rows, p)|
  {
    if rows != [] {
      var init, last := rows[..|rows| - 1], rows[|rows| - 1];
      PathsCount(init, p);
      assert Paths(rows) == Paths(init) + [last.meta.path];
      assert multiset(Paths(rows)) == multiset(Paths(init)) + multiset{last.meta.path};
      assert last.id !in IdsAt(init, p) by {
        forall i | 0 <= i < |init| ensures init[i].id != last.id {
          assert init[i] == rows[i];
        }
      }
      if last.meta.path == p {
        assert IdsAt(rows, p) == IdsAt(init, p) + {last.id} by {
          forall i | 0 <= i < |init| ensures init[i] == rows[i] { }
        }
      } else {
        assert IdsAt(rows, p) == IdsAt(init, p) by {
          forall i | 0 <= i < |init| ensures init[i] == rows[i] { }
        }
      }
    }
  }

  /** When the rows list the table, each path is tried once per unlinked row that has it. */
  lemma AttemptsPerPath(rows: seq<Row>, t: Table)
    requires Lists(rows, t)
    ensures forall p :: multiset(Paths(rows))[p] == |UnlinkedAt(t, p)|
  {
    forall p ensures multiset(Paths(rows))[p] == |UnlinkedAt(t, p)| {
      PathsCount(rows, p);
      IdsAtIsUnlinkedAt(rows, t, p);
    }
  }

  /** When the rows list the table, the paths tried are exactly the unlinked rows' paths. */
  lemma AttemptedPaths(rows: seq<Row>, t: Table)
    requires Lists(rows, t)
    ensures Elems(Paths(rows)) == UnlinkedPaths(t)
  {
    PathsOfRows(rows);
    forall p | p in UnlinkedPaths(t) ensures p in Paths(rows) {
      var id :| id in t && t[id].turnId.None? && t[id].path == p;
      assert id in Ids(rows);
      var k :| 0 <= k < |rows| && rows[k].id == id;
      assert Paths(rows)[k] == p;
    }
    forall p | p in Paths(rows) ensures p in UnlinkedPaths(t) {
      var k :| 0 <= k < |rows| && Paths(rows)[k] == p;
      assert rows[k].id in Ids(rows);
    }
  }

  /** When the rows list the table, the rows with path `p` are the unlinked rows at `p`. */
  lemma IdsAtIsUnlinkedAt(rows: seq<Row>, t: Table, p: string)
    requires Lists(rows, t)
    ensures IdsAt(rows, p) == UnlinkedAt(t, p)
  {
    forall id | id in UnlinkedAt(t, p) ensures id in IdsAt(rows, p) {
      assert id in Ids(rows);
      var i :| 0 <= i < |rows| && rows[i].id == id;
    }
    forall id | id in IdsAt(rows, p) ensures id in UnlinkedAt(t, p) {
      var i :| 0 <= i < |rows| && rows[i].meta.path == p && rows[i].id == id;
      assert id in Ids(rows);
    }
  }

  // ---------------------------------------------------------------------
  // Properties of the sweep
  // ---------------------------------------------------------------------

  /** A row with a non-null turn id survives the sweep unchanged. */
  lemma LinkedRowKept(t: Table, faults: set<string>, id: int)
    requires id in t && t[id].turnId.Some?
    ensures id in Swept(t, faults) && Swept(t, faults)[id] == t[id]
  {
  }

  /** A row leaves the table exactly when it is unlinked and its file removal does not fail unexpectedly. */
  lemma DeletedIff(t: Table, faults: set<string>, id: int)
    requires id in t
    ensures id !in Swept(t, faults) <==> t[id].turnId.None? && t[id].path !in faults
  {
  }

  /** Rows that survive keep their columns, and no row is added. */
  lemma SweptIsSubtable(t: Table, faults: set<string>)
    ensures Swept(t, faults).Keys <= t.Keys
    ensures forall id :: id in Swept(t, faults) ==> Swept(t, faults)[id] == t[id]
  {
  }

  /** The unlinked rows split into those deleted and those kept. */
  lemma UnlinkedSplit(t: Table, faults: set<string>)
    ensures Unlinked(t) == Reclaimable(t, faults) + (Unlinked(t) * Swept(t, faults).Keys)
    ensures Reclaimable(t, faults) !! Swept(t, faults).Keys
  {
  }

  /**
   * The count of selected rows equals the rows deleted plus the unlinked rows
   * kept because their file removal failed; so it is at least the number
   * deleted and equal to it only when no such failure occurred.
   */
  lemma CountVersusDeleted(t: Table, faults: set<string>)
    ensures |t| - |Swept(t, faults)| == |Reclaimable(t, faults)|
    ensures |Unlinked(t)| == |Reclaimable(t, faults)| + |Unlinked(t) * Swept(t, faults).Keys|
    ensures |Reclaimable(t, faults)| <= |Unlinked(t)|
    ensures |Reclaimable(t, faults)| == |Unlinked(t)| <==> UnlinkedPaths(t) * faults == {}
  {
    var r, u := Reclaimable(t, faults), Unlinked(t);
    var keys := Swept(t, faults).Keys;
    var kept := u * keys;
    assert keys == t.Keys - r;
    assert |t.Keys| == |keys| + |r| by {
      assert t.Keys == keys + r;
    }
    UnlinkedSplit(t, faults);
    assert |u| == |r| + |kept|;
    if UnlinkedPaths(t) * faults != {} {
      var p :| p in UnlinkedPaths(t) * faults;
      var id :| id in t && t[id].turnId.None? && t[id].path == p;
      assert id in kept;
    } else {
      forall id | id in u ensures id in r {
        assert t[id].path in UnlinkedPaths(t);
        assert t[id].path !in UnlinkedPaths(t) * faults;
      }
      assert kept == {};
    }
  }

  /** An unlinked row whose removal fails stays, while the other unlinked rows are still deleted. */
  lemma FaultyRowKept(t: Table, faults: set<string>, bad: int, good: int)
    requires bad in t && t[bad].turnId.None? && t[bad].path in faults
    requires good in t && t[good].turnId.None? && t[good].path !in faults
    ensures bad in Swept(t, faults) && good !in Swept(t, faults)
  {
  }

  /**
   * A linked row's file survives unless an unlinked row shares its path;
   * the sweep only touches the paths of unlinked rows.
   */
  lemma LinkedFileKept(t: Table, files: set<string>, faults: set<string>, id: int)
    requires id in t && t[id].turnId.Some? && t[id].path !in UnlinkedPaths(t)
    ensures t[id].path in SweptFiles(t, files, faults) <==> t[id].path in files
  {
  }

  /** On a table with no unlinked rows the sweep deletes nothing, removes nothing and counts zero. */
  lemma NothingUnlinked(t: Table, files: set<string>, faults: set<string>)
    requires forall id :: id in t ==> t[id].turnId.Some?
    ensures |Unlinked(t)| == 0
    ensures Swept(t, faults) == t
    ensures SweptFiles(t, files, faults) == files
  {
    forall id | id in t ensures id !in Unlinked(t) && id !in Reclaimable(t, faults) { }
    assert Unlinked(t) == {};
    assert Reclaimable(t, faults) == {};
    forall p ensures p !in UnlinkedPaths(t) { }
  }

  /** A second sweep, with the same removal failures, changes nothing more. */
  lemma SweepIdempotent(t: Table, files: set<string>, faults: set<string>)
    ensures Swept(Swept(t, faults), faults) == Swept(t, faults)
    ensures SweptFiles(Swept(t, faults), SweptFiles(t, files, faults), faults)
         == SweptFiles(t, files, faults)
  {
  }

  // ---------------------------------------------------------------------
  // The database and the filesystem, updated in place
  // ---------------------------------------------------------------------

  class Store {
    /** The metadata table. */
    var table: Table
    /** The blob files present on disk. */
    var files: set<string>
    /** Paths whose removal fails with an error other than "does not exist". */
    var faults: set<string>
    /** Every path a removal was attempted on, in order. */
    ghost var attempts: seq<string>

    constructor (table: Table, files: set<string>, faults: set<string>)
      ensures this.table == table && this.files == files && this.faults == faults
      ensures attempts == []
    {
      this.table := table;
      this.files := files;
      this.faults := faults;
      attempts := [];
    }

    /** Removes the file at `path`; a path in `faults` fails and leaves it in place. */
    method Remove(path: string) returns (res: RemoveOutcome)
      modifies this`files, this`attempts
      ensures res == OtherErr <==> path in faults
      ensures res == NotExist ==> path !in old(files)
      ensures res == Removed ==> path in old(files)
      ensures files == old(files) - (if res == OtherErr then {} else {path})
      ensures attempts == old(attempts) + [path]
    {
      attempts := attempts + [path];
      if path in faults {
        res := OtherErr;
      } else if path in files {
        files := files - {path};
        res := Removed;
      } else {
        res := NotExist;
      }
    }

    /** The select `turn_id IS NULL`: every unlinked row once, in an order the store picks. */
    method SelectUnlinked() returns (rows: seq<Row>)
      ensures Lists(rows, table)
      ensures |rows| == |Unlinked(table)|
      ensures forall i :: 0 <= i < |rows| ==> rows[i].meta.turnId.None?
    {
      rows := [];
      var pending := Unlinked(table);
      while pending != {}
        invariant SelectInv(rows, table, pending)
        decreases pending
      {
        EmptyOrInhabited(pending);
        var id :| id in pending;
        SelectStep(rows, table, pending, id);
        rows := rows + [Row(id, table[id])];
        pending := pending - {id};
      }
      IdsCard(rows);
    }

    /**
     * One sweep. `selectFails` and `deleteFails` stand for the database
     * failing at the select (or count) and at the delete (or commit).
     */
    method Cleanup(selectFails: bool, deleteFails: bool) returns (n: nat, err: Option<DbError>)
      modifies this`table, this`files, this`attempts
      ensures faults == old(faults)
      ensures selectFails ==>
        n == 0 && err == Some(SelectFailed) &&
        table == old(table) && files == old(files) && attempts == old(attempts)
      ensures !selectFails ==>
        n == |Unlinked(old(table))| &&
        files == SweptFiles(old(table), old(files), faults) &&
        |attempts| == |old(attempts)| + n &&
        attempts[..|old(attempts)|] == old(attempts) &&
        Elems(attempts[|old(attempts)|..]) == UnlinkedPaths(old(table)) &&
        (forall p :: multiset(attempts[|old(attempts)|..])[p] == |UnlinkedAt(old(table), p)|)
      ensures !selectFails && deleteFails ==> err == Some(DeleteFailed) && table == old(table)
      ensures !selectFails && !deleteFails ==> err == None && table == Swept(old(table), faults)
    {
      if selectFails {
        return 0, Some(SelectFailed);
      }
      var rows := SelectUnlinked();
      n := |rows|;
      var deleted: seq<int> := [];
      for i := 0 to |rows|
        invariant table == old(table) && faults == old(faults)
        invariant deleted == Batch(rows[..i], faults)
        invariant files == old(files) - Cleared(rows[..i], faults)
        invariant attempts == old(attempts) + Paths(rows[..i])
      {
        var res := Remove(rows[i].meta.path);
        if res == OtherErr {
          // the error is logged and the row is kept
        } else {
          deleted := deleted + [rows[i].id];
        }
        assert rows[..i + 1][..i] == rows[..i];
        assert Cleared(rows[..i + 1], faults)
            == Cleared(rows[..i], faults) + (if res == OtherErr then {} else {rows[i].meta.path});
      }
      assert rows[..|rows|] == rows;
      BatchIsReclaimable(rows, old(table), faults);
      ClearedIsUnlinkedPaths(rows, old(table), faults);
      PathsOfRows(rows);
      assert attempts[|old(attempts)|..] == Paths(rows);
      AttemptedPaths(rows, old(table));
      AttemptsPerPath(rows, old(table));
      if deleteFails {
        return n, Some(DeleteFailed);
      }
      table := table - Elems(deleted);
      err := None;
    }
  }
}
