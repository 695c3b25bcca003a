/**
 * The database the domain layer writes through, seen as five tables keyed
 * by their serial id, plus the all-or-nothing transaction of
 * internal/db/db.go. SQL text is not interpreted: a statement is modelled by
 * its effect on the tables, and whether the database accepts it is an input.
 */
module Ledger {
  import opened Common
  import opened Models

  /** A table: rows by id, and the next value of its id sequence. */
  datatype Table<R> = Table(rows: map<int, R>, nextId: int)

  function EmptyTable<R>(): Table<R> { Table(map[], 1) }

  /** Ids are positive, below the sequence value, and each row carries its own key. */
  ghost predicate TableValid<R>(t: Table<R>, idOf: R -> int)
  {
    && t.nextId >= 1
    && forall k :: k in t.rows ==> 1 <= k < t.nextId && idOf(t.rows[k]) == k
  }

  /** `withId` sets exactly the identifier that `idOf` reads. */
  ghost predicate IdAccessors<R(!new)>(idOf: R -> int, withId: (R, int) -> R)
  {
    forall r, i :: idOf(withId(r, i)) == i
  }

  /**
   * The upsert every domain `CreateX` performs: a record whose id is unset
   * (zero) is inserted under the next id of the sequence and comes back with
   * that id; any other record overwrites the row with its id, and an UPDATE
   * that matches no row changes nothing. Returns the table and the record as
   * the caller holds it afterwards.
   */
  function Upsert<R>(t: Table<R>, row: R, idOf: R -> int, withId: (R, int) -> R): (r: (Table<R>, R))
    ensures idOf(row) == 0 ==> r.1 == withId(row, t.nextId) && r.0.nextId == t.nextId + 1 && r.0.rows == t.rows[t.nextId := r.1]
    ensures idOf(row) != 0 ==> r.1 == row && r.0.nextId == t.nextId && r.0.rows.Keys == t.rows.Keys
    ensures idOf(row) != 0 && idOf(row) in t.rows ==> r.0.rows == t.rows[idOf(row) := row]
    ensures idOf(row) != 0 && idOf(row) !in t.rows ==> r.0 == t
  {
    if idOf(row) == 0 then
      var saved := withId(row, t.nextId);
      (Table(t.rows[t.nextId := saved], t.nextId + 1), saved)
    else if idOf(row) in t.rows then
      (Table(t.rows[idOf(row) := row], t.nextId), row)
    else
      (t, row)
  }

  lemma UpsertKeepsValid<R(!new)>(t: Table<R>, row: R, idOf: R -> int, withId: (R, int) -> R)
    requires TableValid(t, idOf) && IdAccessors(idOf, withId)
    ensures TableValid(Upsert(t, row, idOf, withId).0, idOf)
  {
  }

  /**
   * A new record gets a fresh id, once, and adds exactly one row; an existing
   * record keeps its id and replaces only its own row; no other row changes.
   */
  lemma UpsertTouchesOnlyItsRow<R(!new)>(t: Table<R>, row: R, idOf: R -> int, withId: (R, int) -> R)
    requires TableValid(t, idOf) && IdAccessors(idOf, withId)
    ensures var (t', saved) := Upsert(t, row, idOf, withId);
      && (idOf(row) == 0 ==>
            && saved == withId(row, t.nextId)
            && idOf(saved) !in t.rows && idOf(saved) >= 1
            && t'.rows == t.rows[idOf(saved) := saved]
            && |t'.rows| == |t.rows| + 1)
      && (idOf(row) != 0 ==>
            && saved == row
            && t'.rows.Keys == t.rows.Keys
            && (idOf(row) in t.rows ==> t'.rows[idOf(row)] == row)
            && (idOf(row) !in t.rows ==> t' == t))
      && (forall k :: k in t.rows && k != idOf(saved) ==> k in t'.rows && t'.rows[k] == t.rows[k])
  {
    if idOf(row) == 0 {
      var saved := withId(row, t.nextId);
      assert idOf(saved) == t.nextId;
      assert t.nextId !in t.rows;
      assert t.rows[t.nextId := saved].Keys == t.rows.Keys + {t.nextId};
    }
  }

  /** What a `CreateX` call leaves behind: the table, the record as the caller holds it, and the error. */
  datatype Write<R> = Write(table: Table<R>, record: R, err: Option<AppError>)

  /**
   * A `CreateX` call on the table of `entity`: when the database refuses the
   * statement (`fault`) nothing changes, the record keeps its id, and the
   * error names the INSERT or the UPDATE that failed; otherwise the upsert.
   */
  function Save<R>(t: Table<R>, row: R, idOf: R -> int, withId: (R, int) -> R, fault: bool, entity: string): (w: Write<R>)
  {
    if fault then
      Write(t, row, Some(DatabaseError((if idOf(row) == 0 then "create " else "update ") + entity)))
    else
      var (t', saved) := Upsert(t, row, idOf, withId);
      Write(t', saved, None)
  }

  /**
   * A save either fails and leaves the table as it was, or succeeds and
   * changes only the saved row: a new record gets the next id and adds one
   * row, an existing one replaces its own row and keeps its id.
   */
  lemma SaveTouchesOnlyItsRow<R(!new)>(t: Table<R>, row: R, idOf: R -> int, withId: (R, int) -> R, fault: bool, entity: string)
    requires TableValid(t, idOf) && IdAccessors(idOf, withId)
    ensures var w := Save(t, row, idOf, withId, fault, entity);
      && TableValid(w.table, idOf)
      && (w.err.Some? <==> fault)
      && (fault ==> w.table == t && w.record == row)
      && (!fault && idOf(row) == 0 ==>
            && idOf(w.record) == t.nextId && idOf(w.record) !in t.rows
            && w.table.rows == t.rows[t.nextId := w.record]
            && |w.table.rows| == |t.rows| + 1)
      && (!fault && idOf(row) != 0 ==>
            && w.record == row
            && w.table.rows.Keys == t.rows.Keys
            && (idOf(row) in t.rows ==> w.table.rows == t.rows[idOf(row) := row]))
      && (forall k :: k in t.rows && k != idOf(w.record) ==> k in w.table.rows && w.table.rows[k] == t.rows[k])
  {
    if !fault {
      UpsertKeepsValid(t, row, idOf, withId);
      UpsertTouchesOnlyItsRow(t, row, idOf, withId);
    }
  }

  /** A row by its primary key. */
  function Find<R>(t: Table<R>, id: int): Option<R>
  {
    if id in t.rows then Some(t.rows[id]) else None
  }

  lemma {:induction false} LeastExists(s: set<int>)
    requires s != {}
    ensures exists m :: m in s && forall x :: x in s ==> m <= x
    decreases |s|
  {
    if forall y :: y !in s {
      assert false;
    }
    var y :| y in s;
    var rest := s - {y};
    if rest == {} {
      assert s == {y};
      assert y in s && forall x :: x in s ==> y <= x;
    } else {
      LeastExists(rest);
      var m :| m in rest && forall x :: x in rest ==> m <= x;
      var least := if y < m then y else m;
      assert s == rest + {y};
      assert least in s && forall x :: x in s ==> least <= x;
    }
  }

  function Least(s: set<int>): (m: int)
    requires s != {}
    ensures m in s && forall x :: x in s ==> m <= x
  {
    LeastExists(s);
    var m :| m in s && forall x :: x in s ==> m <= x;
    m
  }

  /**
   * A lookup on a non-key column (`WHERE code = $1` read with QueryRow): the
   * matching row with the smallest id, or none.
   */
  function FirstMatch<R>(t: Table<R>, matches: R -> bool): (r: Option<R>)
    ensures r.None? <==> forall k :: k in t.rows ==> !matches(t.rows[k])
    ensures r.Some? ==> matches(r.value)
    ensures r.Some? ==>
      exists k :: k in t.rows && t.rows[k] == r.value && (forall j :: j in t.rows && matches(t.rows[j]) ==> k <= j)
  {
    var ids := set k | k in t.rows && matches(t.rows[k]);
    if ids == {} then
      assert forall k :: k in t.rows ==> !matches(t.rows[k]) by {
        forall k | k in t.rows ensures !matches(t.rows[k]) {
          assert k !in ids;
        }
      }
      None
    else
      var k := Least(ids);
      assert k in t.rows && matches(t.rows[k]);
      assert forall j :: j in t.rows && matches(t.rows[j]) ==> k <= j by {
        forall j | j in t.rows && matches(t.rows[j]) ensures k <= j {
          assert j in ids;
        }
      }
      Some(t.rows[k])
  }

  /** The whole database. */
  datatype Tables = Tables(
    members: Table<Member>,
    procedures: Table<Procedure>,
    providers: Table<Provider>,
    users: Table<User>,
    claims: Table<Claim>)

  ghost predicate TablesValid(t: Tables)
  {
    && TableValid(t.members, MemberId)
    && TableValid(t.procedures, ProcedureId)
    && TableValid(t.providers, ProviderId)
    && TableValid(t.users, UserId)
    && TableValid(t.claims, ClaimId)
  }

  /** The database connection; its state is the content of the tables. */
  class Database {
    var tables: Tables

    ghost predicate Valid()
      reads this
    {
      TablesValid(tables)
    }

    constructor ()
      ensures Valid()
      ensures tables == Tables(EmptyTable(), EmptyTable(), EmptyTable(), EmptyTable(), EmptyTable())
    {
      tables := Tables(EmptyTable(), EmptyTable(), EmptyTable(), EmptyTable(), EmptyTable());
    }
  }

  // ---------------------------------------------------------------------
  // InTransaction (internal/db/db.go)
  // ---------------------------------------------------------------------

  /** What a piece of work returned, and the tables it left behind. */
  datatype Outcome<+T> = Outcome(result: Result<T>, tables: Tables)

  /** Which of BEGIN, ROLLBACK and COMMIT the database refuses. */
  datatype TxFaults = TxFaults(begin: bool, rollback: bool, commit: bool)

  /**
   * The end of `InTransaction`: if the work failed the transaction is rolled
   * back and the work's error is returned (or the rollback's, if that fails
   * too); otherwise it commits, and a failed commit also leaves the tables as
   * they were before.
   */
  function Conclude<T>(before: Tables, work: Outcome<T>, f: TxFaults): (o: Outcome<T>)
  {
    if work.result.Err? then
      Outcome(if f.rollback then Err(TransactionError("rollback")) else work.result, before)
    else if f.commit then
      Outcome(Err(TransactionError("commit")), before)
    else
      work
  }

  /** All or nothing: a failed transaction leaves no trace; a committed one keeps all of its work. */
  lemma ConcludeIsAtomic<T>(before: Tables, work: Outcome<T>, f: TxFaults)
    ensures var o := Conclude(before, work, f);
      && (o.result.Err? ==> o.tables == before)
      && (o.result.Ok? ==> o == work)
      && (work.result.Err? ==> o.result.Err?)
  {
  }

  /** Commits or rolls back `db` after the work, as `InTransaction` does. */
  method ConcludeTransaction<T>(db: Database, before: Tables, r: Result<T>, f: TxFaults) returns (r': Result<T>)
    modifies db
    ensures Outcome(r', db.tables) == Conclude(before, Outcome(r, old(db.tables)), f)
  {
    if r.Err? {
      db.tables := before;
      r' := if f.rollback then Err(TransactionError("rollback")) else r;
      return;
    }
    if f.commit {
      db.tables := before;
      r' := Err(TransactionError("commit"));
      return;
    }
    r' := r;
  }

  // ---------------------------------------------------------------------
  // Reading a result set: for rows.Next() { scanRow ... }
  // ---------------------------------------------------------------------

  /** Every row of the result set scanned. */
  predicate AllScanned<R>(rows: seq<Option<R>>)
  {
    forall i :: 0 <= i < |rows| ==> rows[i].Some?
  }

  function ScannedValues<R>(rows: seq<Option<R>>): (items: seq<R>)
    requires AllScanned(rows)
    ensures |items| == |rows|
  {
    seq(|rows|, i requires 0 <= i < |rows| => rows[i].value)
  }

  /**
   * Appends the scanned rows in order; the first row that fails to scan
   * ends the loop with an empty list and the scan error.
   * `rows[i]` is `None` when row `i` fails to scan.
   */
  method CollectRows<R>(rows: seq<Option<R>>) returns (items: seq<R>, err: Option<AppError>)
    ensures err.None? <==> AllScanned(rows)
    ensures err.None? ==> items == ScannedValues(rows)
    ensures err.Some? ==> items == [] && err.value == DatabaseError("scan row")
  {
    items := [];
    var i := 0;
    while i < |rows|
      invariant 0 <= i <= |rows|
      invariant AllScanned(rows[..i])
      invariant |items| == i && forall j :: 0 <= j < i ==> items[j] == rows[j].value
    {
      if rows[i].None? {
        return [], Some(DatabaseError("scan row"));
      }
      items := items + [rows[i].value];
      i := i + 1;
    }
    assert rows[..i] == rows;
    return items, None;
  }
}
