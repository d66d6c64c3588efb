/**
 * The ingestion database helper: connections are borrowed from a pool and always given back, a
 * transaction commits after its body and rolls back when the body or the commit fails, bulk
 * upserts are one `INSERT … ON CONFLICT … DO UPDATE` statement, and ingestion runs are recorded as
 * a start row and an end row. The database is modelled as the list of events it sees.
 */
module IngestionDb {
  import opened Base
  import opened Text
  import opened Values

  datatype Statement = Statement(sql: string, args: seq<Value>)

  /** What the pool and the connections see; `conn` is the serial number of a borrowed connection. */
  datatype DbEvent =
    | Checkout(conn: nat)
    | Execute(conn: nat, stmt: Statement)
    | CommitTx(conn: nat)
    | RollbackTx(conn: nat)
    | Checkin(conn: nat)
    | CloseAll

  /** The statements a `with db.transaction() as cur:` block executes, and the error it raises, if any. */
  datatype Body = Body(stmts: seq<Statement>, failure: Option<string>)

  // ---------------------------------------------------------------------------
  // Connections and transactions
  // ---------------------------------------------------------------------------

  /** Borrowed connections not yet given back. */
  function Outstanding(events: seq<DbEvent>): int
  {
    if events == [] then 0
    else
      var e := events[|events| - 1];
      Outstanding(events[..|events| - 1]) + (if e.Checkout? then 1 else if e.Checkin? then -1 else 0)
  }

  lemma {:induction false} OutstandingAppend(a: seq<DbEvent>, b: seq<DbEvent>)
    ensures Outstanding(a + b) == Outstanding(a) + Outstanding(b)
    decreases |b|
  {
    if b != [] {
      assert (a + b)[..|a + b| - 1] == a + b[..|b| - 1];
      OutstandingAppend(a, b[..|b| - 1]);
    } else {
      assert a + b == a;
    }
  }

  /** Statements other than the pool's own do not move connections. */
  lemma {:induction false} OutstandingOfRuns(conn: nat, stmts: seq<Statement>)
    ensures Outstanding(Runs(conn, stmts)) == 0
    decreases |stmts|
  {
    if stmts != [] {
      assert Runs(conn, stmts)[..|stmts| - 1] == Runs(conn, stmts[..|stmts| - 1]);
      OutstandingOfRuns(conn, stmts[..|stmts| - 1]);
    }
  }

  function Runs(conn: nat, stmts: seq<Statement>): (r: seq<DbEvent>)
    ensures |r| == |stmts| && forall i :: 0 <= i < |r| ==> r[i] == Execute(conn, stmts[i])
  {
    seq(|stmts|, i requires 0 <= i < |stmts| => Execute(conn, stmts[i]))
  }

  /** How a transaction ends: commit, or roll back after a failing body or a failing commit. */
  function Ending(conn: nat, body: Body, commitError: Option<string>): seq<DbEvent>
  {
    if body.failure.Some? then [RollbackTx(conn)]
    else if commitError.Some? then [CommitTx(conn), RollbackTx(conn)]
    else [CommitTx(conn)]
  }

  /** Everything one `transaction()` block does on connection `conn`. */
  function TransactionEvents(conn: nat, body: Body, commitError: Option<string>): seq<DbEvent>
  {
    [Checkout(conn)] + Runs(conn, body.stmts) + Ending(conn, body, commitError) + [Checkin(conn)]
  }

  lemma RunsSnoc(conn: nat, stmts: seq<Statement>, i: nat)
    requires i < |stmts|
    ensures Runs(conn, stmts[..i + 1]) == Runs(conn, stmts[..i]) + [Execute(conn, stmts[i])]
  {
  }

  /** The error a `transaction()` block raises: the body's, else the commit's. */
  function TransactionRaised(body: Body, commitError: Option<string>): Option<string>
  {
    if body.failure.Some? then body.failure else commitError
  }

  /**
   * A transaction borrows one connection and gives it back last, runs the body's statements in
   * order, and commits exactly when nothing is raised; it rolls back exactly when something is.
   */
  lemma TransactionShape(conn: nat, body: Body, commitError: Option<string>)
    ensures var ev := TransactionEvents(conn, body, commitError);
      var raised := TransactionRaised(body, commitError);
      ev[0] == Checkout(conn) && ev[|ev| - 1] == Checkin(conn)
      && ev[1..|body.stmts| + 1] == Runs(conn, body.stmts)
      && Outstanding(ev) == 0
      && (raised.None? <==> ev[|ev| - 2] == CommitTx(conn))
      && (raised.Some? <==> ev[|ev| - 2] == RollbackTx(conn))
      && (RollbackTx(conn) in ev <==> raised.Some?)
  {
    var ev := TransactionEvents(conn, body, commitError);
    var runs := Runs(conn, body.stmts);
    var end := Ending(conn, body, commitError);
    var head := [Checkout(conn)] + runs;
    assert ev == head + end + [Checkin(conn)];
    assert ev[1..|body.stmts| + 1] == runs;
    OutstandingOfRuns(conn, body.stmts);
    OutstandingAppend([Checkout(conn)], runs);
    OutstandingAppend(head, end);
    OutstandingAppend(head + end, [Checkin(conn)]);
    EndingShape(conn, body, commitError);
    assert ev[|ev| - 2] == end[|end| - 1];
    assert RollbackTx(conn) !in head;
    assert RollbackTx(conn) in ev <==> RollbackTx(conn) in end;
  }

  /** The ending holds no borrowing and finishes with a commit exactly when nothing is raised. */
  lemma EndingShape(conn: nat, body: Body, commitError: Option<string>)
    ensures var end := Ending(conn, body, commitError);
      var raised := TransactionRaised(body, commitError);
      end != [] && Outstanding(end) == 0
      && (raised.None? <==> end[|end| - 1] == CommitTx(conn))
      && (raised.Some? <==> end[|end| - 1] == RollbackTx(conn))
      && (RollbackTx(conn) in end <==> raised.Some?)
  {
    var end := Ending(conn, body, commitError);
    if |end| == 2 {
      assert end[..1] == [CommitTx(conn)] && [CommitTx(conn)][..0] == [];
      assert Outstanding(end[..1]) == 0;
    } else {
      assert end[..0] == [];
    }
  }

  class Database {
    var events: seq<DbEvent>
    /** How many connections have been borrowed so far; the next one gets this serial. */
    var serial: nat

    /** Between calls every borrowed connection has been given back. */
    predicate Valid()
      reads this
    {
      Outstanding(events) == 0
    }

    constructor ()
      ensures Valid() && events == [] && serial == 0
    {
      events := [];
      serial := 0;
    }

    /** `close()`: closes every pooled connection. */
    method Close()
      requires Valid()
      modifies this
      ensures Valid() && events == old(events) + [CloseAll] && serial == old(serial)
    {
      var before := events;
      OutstandingAppend(before, [CloseAll]);
      assert Outstanding([CloseAll]) == 0 by { assert [CloseAll][..0] == []; }
      events := before + [CloseAll];
    }

    /**
     * `with db.transaction() as cur:` around a block that executes `body.stmts` and then raises
     * `body.failure` if set; `commitError` is the error `conn.commit()` raises, if any. Returns the
     * error the block re-raises.
     */
    method Transaction(body: Body, commitError: Option<string>) returns (raised: Option<string>)
      requires Valid()
      modifies this
      ensures Valid()
      ensures events == old(events) + TransactionEvents(old(serial), body, commitError)
      ensures raised == TransactionRaised(body, commitError)
      ensures serial == old(serial) + 1
    {
      var conn := serial;
      serial := serial + 1;
      // what the block does on its connection, in order
      var log := [Checkout(conn)];
      for i := 0 to |body.stmts|
        invariant log == [Checkout(conn)] + Runs(conn, body.stmts[..i])
        invariant events == old(events) && serial == conn + 1
      {
        RunsSnoc(conn, body.stmts, i);
        log := log + [Execute(conn, body.stmts[i])];
      }
      assert body.stmts[..|body.stmts|] == body.stmts;
      ghost var ran := log;
      if body.failure.Some? {
        log := log + [RollbackTx(conn)];
        raised := body.failure;
      } else {
        log := log + [CommitTx(conn)];
        if commitError.Some? {
          log := log + [RollbackTx(conn)];
        }
        raised := commitError;
      }
      assert log == ran + Ending(conn, body, commitError);
      log := log + [Checkin(conn)];
      assert log == TransactionEvents(conn, body, commitError);
      TransactionShape(conn, body, commitError);
      OutstandingAppend(events, log);
      events := events + log;
    }

    // -------------------------------------------------------------------------
    // Run tracking
    // -------------------------------------------------------------------------

    /** `record_run_start(...)` with `runId` standing for the fresh uuid. */
    method RecordRunStart(runId: string, tenantId: string, provider: string, entityType: Option<string>,
                          metadata: Option<Value>, commitError: Option<string>)
      returns (r: Result<string>)
      requires Valid()
      modifies this
      ensures Valid()
      ensures var body := Body([RunStartStatement(runId, tenantId, provider, entityType, metadata)], None);
        events == old(events) + TransactionEvents(old(serial), body, commitError)
        && r == (if commitError.Some? then Err(commitError.value) else Ok(runId))
      ensures serial == old(serial) + 1
    {
      var raised := Transaction(Body([RunStartStatement(runId, tenantId, provider, entityType, metadata)], None), commitError);
      if raised.Some? {
        return Err(raised.value);
      }
      return Ok(runId);
    }

    /** `record_run_end(...)`. */
    method RecordRunEnd(runId: string, tenantId: string, status: string, recordsUpserted: int, recordsDeleted: int,
                        errorMessage: Option<string>, errorDetail: Option<Value>, commitError: Option<string>)
      returns (raised: Option<string>)
      requires Valid()
      modifies this
      ensures Valid()
      ensures var body := Body([RunEndStatement(runId, tenantId, status, recordsUpserted, recordsDeleted,
                                                errorMessage, errorDetail)], None);
        events == old(events) + TransactionEvents(old(serial), body, commitError)
        && raised == commitError
      ensures serial == old(serial) + 1
    {
      raised := Transaction(Body([RunEndStatement(runId, tenantId, status, recordsUpserted, recordsDeleted,
                                                  errorMessage, errorDetail)], None), commitError);
    }
  }

  const RunStartSql :=
    "INSERT INTO ingestion_runs (id, tenant_id, provider, entity_type, status, run_metadata) "
    + "VALUES (%s, %s, %s, %s, 'RUNNING', %s)"

  const RunEndSql :=
    "UPDATE ingestion_runs SET status = %s, finished_at = NOW(), records_upserted = %s, "
    + "records_deleted = %s, error_message = %s, error_detail = %s WHERE id = %s AND tenant_id = %s"

  function OptStr(s: Option<string>): Value
  {
    if s.Some? then Str(s.value) else Null
  }

  /** Python truthiness of an optional dict: missing, null or empty is falsy. */
  predicate Present(v: Option<Value>)
  {
    v.Some? && PyTruthy(v.value)
  }

  /** The start row: status RUNNING, the metadata or an empty object. */
  function RunStartStatement(runId: string, tenantId: string, provider: string, entityType: Option<string>,
                             metadata: Option<Value>): (r: Statement)
    ensures r.sql == RunStartSql && |r.args| == 5 && r.args[0] == Str(runId) && r.args[1] == Str(tenantId)
    ensures r.args[4] == (if Present(metadata) then metadata.value else Obj([]))
  {
    Statement(RunStartSql, [Str(runId), Str(tenantId), Str(provider), OptStr(entityType),
                            if Present(metadata) then metadata.value else Obj([])])
  }

  /** The end row, matched on both the run id and the tenant; an empty error detail is stored as null. */
  function RunEndStatement(runId: string, tenantId: string, status: string, recordsUpserted: int,
                           recordsDeleted: int, errorMessage: Option<string>, errorDetail: Option<Value>): (r: Statement)
    ensures r.sql == RunEndSql && |r.args| == 7
    ensures r.args[5] == Str(runId) && r.args[6] == Str(tenantId) && r.args[0] == Str(status)
    ensures r.args[4] == (if Present(errorDetail) then errorDetail.value else Null)
  {
    Statement(RunEndSql, [Str(status), Num(recordsUpserted), Num(recordsDeleted), OptStr(errorMessage),
                          if Present(errorDetail) then errorDetail.value else Null, Str(runId), Str(tenantId)])
  }

  // ---------------------------------------------------------------------------
  // Bulk upserts
  // ---------------------------------------------------------------------------

  /** `f"{c} = EXCLUDED.{c}"`. */
  function Assignment(c: string): string
  {
    c + " = EXCLUDED." + c
  }

  const TimestampRefresh := ", " + "updated_at = NOW(), last_synced_at = NOW()"

  /** The SET clause: one assignment per update column, then the two timestamps. */
  function SetClause(update: seq<string>): (r: string)
    ensures EndsWith(r, TimestampRefresh)
  {
    var j := Join(seq(|update|, i requires 0 <= i < |update| => Assignment(update[i])), ", ");
    assert (j + TimestampRefresh)[|j|..] == TimestampRefresh;
    j + TimestampRefresh
  }

  /**
   * The `INSERT … ON CONFLICT … DO UPDATE SET` statement for one batch: it inserts into `table`
   * and always ends by refreshing the two timestamps.
   */
  function UpsertSql(table: string, columns: seq<string>, conflict: seq<string>, update: seq<string>): (r: string)
    ensures StartsWith(r, "INSERT INTO " + table + " (")
    ensures EndsWith(r, TimestampRefresh)
  {
    var open := "INSERT INTO " + table + " (";
    var head := open + Join(columns, ", ") + ") VALUES %s ";
    var mid := "ON CONFLICT (" + Join(conflict, ", ") + ") DO UPDATE SET ";
    var clause := SetClause(update);
    StartsAndEnds(head, mid, clause);
    StartsWithFront(head + mid + clause, open + Join(columns, ", "), ") VALUES %s ");
    StartsWithFront(head + mid + clause, open, Join(columns, ", "));
    EndsWithEnd(head + mid + clause, clause, TimestampRefresh);
    head + mid + clause
  }

  /**
   * Every update column is overwritten from the proposed row and the timestamps are always
   * refreshed last; with no update columns the clause begins with a stray separator.
   */
  lemma SetClauseAssigns(update: seq<string>)
    ensures forall c :: c in update ==> Contains(SetClause(update), Assignment(c))
    ensures EndsWith(SetClause(update), TimestampRefresh)
    ensures update == [] ==> StartsWith(SetClause(update), ", ")
    ensures update != [] ==> StartsWith(SetClause(update), Assignment(update[0]))
  {
    var parts := seq(|update|, i requires 0 <= i < |update| => Assignment(update[i]));
    var j := Join(parts, ", ");
    var r := SetClause(update);
    assert r == "" + j + TimestampRefresh;
    forall c | c in update ensures Contains(r, Assignment(c)) {
      var i :| 0 <= i < |update| && update[i] == c;
      JoinContainsPart(parts, ", ", i);
      ContainsWithin("", j, TimestampRefresh, Assignment(c));
    }
    if update != [] {
      JoinStartsWith(parts, ", ");
      StartsAndEnds(j, "", TimestampRefresh);
      assert StartsWith(j + "" + TimestampRefresh, parts[0]);
    } else {
      StartsAndEnds("", ", ", "updated_at = NOW(), last_synced_at = NOW()");
    }
  }

  /** The statement names the table, the columns in order and the conflict target. */
  lemma UpsertSqlLayout(table: string, columns: seq<string>, conflict: seq<string>, update: seq<string>)
    ensures var sql := UpsertSql(table, columns, conflict, update);
      StartsWith(sql, "INSERT INTO " + table + " (" + Join(columns, ", ") + ") VALUES %s ")
      && Contains(sql, "ON CONFLICT (" + Join(conflict, ", ") + ") DO UPDATE SET ")
      && EndsWith(sql, SetClause(update))
  {
    var head := "INSERT INTO " + table + " (" + Join(columns, ", ") + ") VALUES %s ";
    var mid := "ON CONFLICT (" + Join(conflict, ", ") + ") DO UPDATE SET ";
    ContainsInfix(head, mid, SetClause(update));
    StartsAndEnds(head, mid, SetClause(update));
  }

  /** `psycopg2.extras.execute_values(..., page_size=500)` sends one statement per 500 rows. */
  const ExecuteValuesPageSize: nat := 500

  /** The row values in the order they are bound. */
  function RowValues(rows: seq<seq<Value>>): (r: seq<Value>)
    ensures |r| == |rows| && forall i :: 0 <= i < |rows| ==> r[i] == Arr(rows[i])
  {
    seq(|rows|, i requires 0 <= i < |rows| => Arr(rows[i]))
  }

  /** The pages `execute_values` splits the rows into. */
  function UpsertPages(rows: seq<seq<Value>>): seq<seq<Value>>
  {
    Windows(RowValues(rows), ExecuteValuesPageSize)
  }

  /** The statements an upsert sends: one per page, all with the same SQL. */
  function UpsertStatements(table: string, columns: seq<string>, rows: seq<seq<Value>>, conflict: seq<string>,
                            update: seq<string>): seq<Statement>
  {
    var pages := UpsertPages(rows);
    seq(|pages|, i requires 0 <= i < |pages| => Statement(UpsertSql(table, columns, conflict, update), pages[i]))
  }

  /**
   * No rows send nothing; otherwise every statement carries between one and 500 rows, all but the
   * last exactly 500, and together they carry every row once, in order.
   */
  lemma UpsertStatementsCover(table: string, columns: seq<string>, rows: seq<seq<Value>>, conflict: seq<string>,
                              update: seq<string>)
    ensures var r := UpsertStatements(table, columns, rows, conflict, update);
      (rows == [] <==> r == [])
      && (forall i :: 0 <= i < |r| ==> r[i].sql == UpsertSql(table, columns, conflict, update)
                                       && 0 < |r[i].args| <= ExecuteValuesPageSize)
      && (forall i :: 0 <= i < |r| - 1 ==> |r[i].args| == ExecuteValuesPageSize)
      && Flatten(seq(|r|, i requires 0 <= i < |r| => r[i].args)) == RowValues(rows)
  {
    var r := UpsertStatements(table, columns, rows, conflict, update);
    var pages := UpsertPages(rows);
    assert seq(|r|, i requires 0 <= i < |r| => r[i].args) == pages;
    WindowsFlatten(RowValues(rows), ExecuteValuesPageSize);
    WindowsFull(RowValues(rows), ExecuteValuesPageSize);
  }

  /** The number of statements sent for `n` rows. */
  function PageCountOf(n: nat): nat
  {
    WindowCount(n, ExecuteValuesPageSize)
  }

  /**
   * `upsert_batch(cur, ...)` as written, given the row count of each statement `execute_values`
   * sends: nothing is executed for no rows; otherwise the count returned is the cursor's
   * `rowcount`, which is that of the last statement only.
   */
  function UpsertCountAsWritten(rows: seq<seq<Value>>, pageCounts: seq<int>): (r: int)
    requires |pageCounts| == PageCountOf(|rows|)
    ensures rows != [] ==> r == pageCounts[|pageCounts| - 1]
  {
    if rows == [] then 0 else pageCounts[|pageCounts| - 1]
  }

  /** For more rows than one statement carries, the count returned leaves out the earlier statements. */
  lemma UndercountExample()
    ensures var rows := seq(501, i => [Num(i)]);
      PageCountOf(|rows|) == 2 && UpsertCountAsWritten(rows, [500, 1]) == 1
      && UpsertCount(rows, [500, 1]) == 501
  {
    var rows := seq(501, i => [Num(i)]);
    assert PageCountOf(501) == 2;
    assert SumInts([500, 1]) == SumInts([500]) + 1;
    assert SumInts([500]) == SumInts([]) + 500;
  }

  function SumInts(s: seq<int>): int
  {
    if s == [] then 0 else SumInts(s[..|s| - 1]) + s[|s| - 1]
  }

  /** The number of rows affected: the sum over all the statements sent. */
  function UpsertCount(rows: seq<seq<Value>>, pageCounts: seq<int>): (r: int)
    requires |pageCounts| == PageCountOf(|rows|)
    ensures rows == [] ==> r == 0
    ensures (forall i :: 0 <= i < |pageCounts| ==> pageCounts[i] >= 0) ==>
      forall i :: 0 <= i < |pageCounts| ==> pageCounts[i] <= r
  {
    SumBounds(pageCounts);
    if rows == [] then 0 else SumInts(pageCounts)
  }

  lemma {:induction false} SumBounds(s: seq<int>)
    ensures (forall i :: 0 <= i < |s| ==> s[i] >= 0) ==> forall i :: 0 <= i < |s| ==> s[i] <= SumInts(s)
  {
    if s != [] && forall i :: 0 <= i < |s| ==> s[i] >= 0 {
      var init := s[..|s| - 1];
      SumBounds(init);
      assert forall i :: 0 <= i < |init| ==> init[i] == s[i];
    }
  }

  /** With at most one statement's worth of rows the two agree. */
  lemma UpsertCountAgrees(rows: seq<seq<Value>>, pageCounts: seq<int>)
    requires |pageCounts| == PageCountOf(|rows|) && |rows| <= ExecuteValuesPageSize
    ensures UpsertCount(rows, pageCounts) == UpsertCountAsWritten(rows, pageCounts)
  {
    if rows != [] {
      assert |pageCounts| == 1;
      assert SumInts(pageCounts) == SumInts(pageCounts[..0]) + pageCounts[0];
    }
  }
}
