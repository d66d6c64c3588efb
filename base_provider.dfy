/**
 * The behaviour every ingestion provider inherits: a sync wrapped in run tracking (a RUNNING row
 * before, a SUCCESS or FAILED row after, the error re-raised), exponential rate-limit backoff
 * capped at a minute, and splitting rows into fixed-size batches.
 */
module BaseProvider {
  import opened Base
  import opened Text
  import opened Values
  import opened IngestionDb

  // ---------------------------------------------------------------------------
  // Batches
  // ---------------------------------------------------------------------------

  /** `size or self.batch_size`: an absent or zero size falls back to the configured one. */
  function EffectiveSize(size: Option<int>, batchSize: int): (r: int)
    ensures size.Some? && size.value != 0 ==> r == size.value
    ensures size.None? || size.value == 0 ==> r == batchSize
  {
    if size.Some? && size.value != 0 then size.value else batchSize
  }

  const ZeroStepMessage := "range() arg 3 must not be zero"

  /**
   * `_batch_rows(rows, size)`: the slices `rows[i:i + size]` for `i` in `range(0, len(rows), size)`.
   * A zero step is the `ValueError` `range` raises; a negative step gives an empty range.
   */
  function BatchRows<T>(rows: seq<T>, size: Option<int>, batchSize: int): (r: Result<seq<seq<T>>>)
    ensures r.Err? <==> EffectiveSize(size, batchSize) == 0
    ensures EffectiveSize(size, batchSize) < 0 ==> r == Ok([])
  {
    var step := EffectiveSize(size, batchSize);
    if step == 0 then Err(ZeroStepMessage)
    else if step < 0 then Ok([])
    else Ok(Windows(rows, step))
  }

  /**
   * With a positive size the batches concatenate back to the rows; each is non-empty and at most
   * `size` long, and all but the last are exactly `size` long.
   */
  lemma BatchRowsRoundTrip<T>(rows: seq<T>, size: Option<int>, batchSize: int)
    requires EffectiveSize(size, batchSize) > 0
    ensures var step := EffectiveSize(size, batchSize);
      var r := BatchRows(rows, size, batchSize);
      r.Ok? && Flatten(r.value) == rows
      && (forall i :: 0 <= i < |r.value| ==> 0 < |r.value[i]| <= step)
      && (forall i :: 0 <= i < |r.value| - 1 ==> |r.value[i]| == step)
      && |r.value| * step >= |rows|
  {
    var step := EffectiveSize(size, batchSize);
    WindowsFlatten(rows, step);
    WindowsFull(rows, step);
  }

  /** No rows give no batches, whatever non-zero size is used. */
  lemma NoRowsNoBatches<T>(size: Option<int>, batchSize: int)
    requires EffectiveSize(size, batchSize) != 0
    ensures BatchRows<T>([], size, batchSize) == Ok([])
  {
    var step := EffectiveSize(size, batchSize);
    if step > 0 {
      assert WindowCount(0, step) == 0;
    }
  }

  // ---------------------------------------------------------------------------
  // Backoff
  // ---------------------------------------------------------------------------

  const MaxDelaySeconds: nat := 60

  /** `_rate_limit_sleep(attempt, base_seconds)`: the delay slept, in whole seconds. */
  function RateLimitDelay(attempt: nat, baseSeconds: nat): (d: nat)
    ensures d <= MaxDelaySeconds
    ensures d == baseSeconds * Pow2(attempt) || d == MaxDelaySeconds
    ensures baseSeconds * Pow2(attempt) <= MaxDelaySeconds ==> d == baseSeconds * Pow2(attempt)
  {
    Min(baseSeconds * Pow2(attempt), MaxDelaySeconds)
  }

  /** A later attempt never waits less. */
  lemma {:induction false} RateLimitDelayMonotone(a: nat, b: nat, baseSeconds: nat)
    requires a <= b
    ensures RateLimitDelay(a, baseSeconds) <= RateLimitDelay(b, baseSeconds)
  {
    Pow2Monotone(a, b);
    MulMonotone(Pow2(a), Pow2(b), baseSeconds);
    assert Pow2(a) * baseSeconds <= Pow2(b) * baseSeconds;
  }

  lemma {:induction false} Pow2Monotone(a: nat, b: nat)
    requires a <= b
    ensures Pow2(a) <= Pow2(b)
    decreases b
  {
    if a < b {
      Pow2Monotone(a, b - 1);
      assert Pow2(b) == 2 * Pow2(b - 1);
    }
  }

  /** With the default one-second base the delays run 1, 2, 4, …, 32 and then stay at 60. */
  lemma DefaultDelays(attempt: nat)
    ensures attempt <= 5 ==> RateLimitDelay(attempt, 1) == Pow2(attempt)
    ensures attempt >= 6 ==> RateLimitDelay(attempt, 1) == MaxDelaySeconds
  {
    if attempt >= 6 {
      Pow2Monotone(6, attempt);
      assert Pow2(6) == 64;
    } else {
      Pow2Monotone(attempt, 5);
      assert Pow2(5) == 32;
    }
  }

  // ---------------------------------------------------------------------------
  // Run tracking
  // ---------------------------------------------------------------------------

  /** The `{entity_type: records_upserted}` result of a sync, as an association list. */
  type SyncResult = seq<(string, int)>

  function Total(results: SyncResult): int
  {
    if results == [] then 0 else Total(results[..|results| - 1]) + results[|results| - 1].1
  }

  /** The total is the sum of the counts, entry by entry. */
  lemma {:induction false} TotalAppend(a: SyncResult, b: SyncResult)
    ensures Total(a + b) == Total(a) + Total(b)
    decreases |b|
  {
    if b == [] {
      assert a + b == a;
    } else {
      assert (a + b)[..|a + b| - 1] == a + b[..|b| - 1];
      TotalAppend(a, b[..|b| - 1]);
    }
  }

  lemma {:induction false} TotalNonNegative(results: SyncResult)
    requires forall i :: 0 <= i < |results| ==> results[i].1 >= 0
    ensures Total(results) >= 0
    ensures forall i :: 0 <= i < |results| ==> results[i].1 <= Total(results)
  {
    if results != [] {
      var init := results[..|results| - 1];
      TotalNonNegative(init);
      assert forall i :: 0 <= i < |init| ==> init[i] == results[i];
    }
  }

  const ErrorMessageLimit: nat := 1000

  /** `s[:n]`. */
  function Truncate(s: string, n: nat): (r: string)
    ensures |r| <= n && |r| <= |s|
    ensures r == s[..|r|]
    ensures |s| <= n ==> r == s
    ensures |s| > n ==> |r| == n
  {
    s[..Min(n, |s|)]
  }

  lemma TruncateIdempotent(s: string, n: nat)
    ensures Truncate(Truncate(s, n), n) == Truncate(s, n)
  {
  }

  function TracebackDetail(traceback: string): Value
  {
    Obj([Field("traceback", Str(traceback))])
  }

  /** The end row of a failed run: the first 1000 characters of the message and the traceback. */
  function FailedEnd(runId: string, tenantId: string, message: string, traceback: string): Statement
  {
    RunEndStatement(runId, tenantId, "FAILED", 0, 0, Some(Truncate(message, ErrorMessageLimit)),
                    Some(TracebackDetail(traceback)))
  }

  function SucceededEnd(runId: string, tenantId: string, results: SyncResult): Statement
  {
    RunEndStatement(runId, tenantId, "SUCCESS", Total(results), 0, None, None)
  }

  /** A failed run's row names the run and tenant, keeps at most 1000 characters and the traceback. */
  lemma FailedEndRecords(runId: string, tenantId: string, message: string, traceback: string)
    ensures var st := FailedEnd(runId, tenantId, message, traceback);
      st.args[0] == Str("FAILED") && st.args[5] == Str(runId) && st.args[6] == Str(tenantId)
      && st.args[3].Str? && |st.args[3].s| <= ErrorMessageLimit && st.args[3].s == message[..|st.args[3].s|]
      && (|message| <= ErrorMessageLimit ==> st.args[3] == Str(message))
      && st.args[4] == TracebackDetail(traceback)
  {
  }

  /** A successful run's row records the total of the counts and no error. */
  lemma SucceededEndRecords(runId: string, tenantId: string, results: SyncResult)
    ensures var st := SucceededEnd(runId, tenantId, results);
      st.args[0] == Str("SUCCESS") && st.args[1] == Num(Total(results)) && st.args[3] == Null
      && st.args[4] == Null && st.args[5] == Str(runId) && st.args[6] == Str(tenantId)
  {
  }

  /** The events of a tracking transaction that executes one statement and commits. */
  function Tracked(conn: nat, st: Statement): seq<DbEvent>
  {
    TransactionEvents(conn, Body([st], None), None)
  }

  /**
   * `sync_with_tracking()` for a provider named `provider` whose `sync()` returns `outcome`.
   * `runId` is the fresh run id and `traceback` the formatted traceback of a failure; the
   * tracking transactions are assumed to commit. Returns the results, or the error re-raised.
   */
  method SyncWithTracking(db: Database, tenantId: string, provider: string, runId: string,
                          outcome: Result<SyncResult>, traceback: string)
    returns (r: Result<SyncResult>)
    requires db.Valid()
    modifies db
    ensures db.Valid() && r == outcome && db.serial == old(db.serial) + 2
    ensures var start := RunStartStatement(runId, tenantId, provider, None, None);
      var end := if outcome.Ok? then SucceededEnd(runId, tenantId, outcome.value)
                 else FailedEnd(runId, tenantId, outcome.message, traceback);
      db.events == old(db.events) + Tracked(old(db.serial), start) + Tracked(old(db.serial) + 1, end)
  {
    var started := db.RecordRunStart(runId, tenantId, provider, None, None, None);
    var id := started.value;
    if outcome.Ok? {
      var results := outcome.value;
      var _ := db.RecordRunEnd(id, tenantId, "SUCCESS", Total(results), 0, None, None, None);
      return Ok(results);
    }
    var _ := db.RecordRunEnd(id, tenantId, "FAILED", 0, 0, Some(Truncate(outcome.message, ErrorMessageLimit)),
                             Some(TracebackDetail(traceback)), None);
    r := outcome;
  }

  /**
   * Every tracked sync writes exactly two rows for the same run, RUNNING first, and marks it
   * SUCCESS exactly when the sync succeeded.
   */
  lemma TrackingRows(tenantId: string, provider: string, runId: string, outcome: Result<SyncResult>, traceback: string)
    ensures var start := RunStartStatement(runId, tenantId, provider, None, None);
      var end := if outcome.Ok? then SucceededEnd(runId, tenantId, outcome.value)
                 else FailedEnd(runId, tenantId, outcome.message, traceback);
      start.args[0] == Str(runId) && end.args[5] == Str(runId)
      && start.args[1] == Str(tenantId) && end.args[6] == Str(tenantId)
      && (end.args[0] == Str("SUCCESS") <==> outcome.Ok?)
      && (end.args[0] == Str("FAILED") <==> outcome.Err?)
  {
  }
}
