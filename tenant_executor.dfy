/**
 * `executeWithTenant`: a query run inside a transaction with the statement timeout and the
 * tenant id set for row-level security, against a database client modelled as the list of
 * commands it receives and the list of answers the server gives. `executeReadOnly` runs one
 * query on the pool directly.
 */
module TenantExecutor {
  import opened Base
  import opened Text
  import opened Values
  import opened Registry

  /** One `client.query(text, params)` call. */
  datatype Command = Command(text: string, params: seq<Value>)

  /** The server's answer to a command: rows and a row count (null allowed), or an error. */
  datatype Reply = Answered(rows: seq<Value>, rowCount: Option<int>) | Failed(error: string)

  /** What the caller gets back: the rows and count, or the error thrown. */
  datatype Outcome = Returned(rows: seq<Value>, rowCount: int) | Threw(error: string)

  const ConfigSql := "SELECT set_config($1, $2, true)"
  const Begin := Command("BEGIN", [])
  const Commit := Command("COMMIT", [])
  const Rollback := Command("ROLLBACK", [])

  /** The timeout `executeWithTenant` applies when its caller gives none: 10 s. */
  const DefaultTimeoutMs: int := 10000

  /** The answer a server that has gone away gives. */
  const Disconnected := Failed("Connection terminated unexpectedly")

  // ---------------------------------------------------------------------------
  // The tenant id filter
  // ---------------------------------------------------------------------------

  predicate IsTenantChar(c: char)
  {
    'a' <= c <= 'f' || '0' <= c <= '9' || c == '-'
  }

  /** `tenantId.replace(/[^a-f0-9-]/g, '')`. */
  function SanitizeTenantId(s: string): (r: string)
    ensures forall i :: 0 <= i < |r| ==> IsTenantChar(r[i])
    ensures |r| <= |s|
  {
    if s == [] then []
    else (if IsTenantChar(s[0]) then [s[0]] else []) + SanitizeTenantId(s[1..])
  }

  lemma {:induction false} SanitizeAppend(a: string, b: string)
    ensures SanitizeTenantId(a + b) == SanitizeTenantId(a) + SanitizeTenantId(b)
    decreases |a|
  {
    if a != [] {
      assert (a + b)[1..] == a[1..] + b;
      SanitizeAppend(a[1..], b);
    } else {
      assert a + b == b;
    }
  }

  /** Exactly the permitted characters survive, each as often as it occurred. */
  lemma {:induction false} SanitizeCounts(s: string, c: char)
    ensures multiset(SanitizeTenantId(s))[c] == if IsTenantChar(c) then multiset(s)[c] else 0
    decreases |s|
  {
    if s != [] {
      SanitizeCounts(s[1..], c);
      assert s == [s[0]] + s[1..];
    }
  }

  /** The filter leaves a string unchanged iff every character is permitted. */
  lemma {:induction false} SanitizeFixedIff(s: string)
    ensures SanitizeTenantId(s) == s <==> forall i :: 0 <= i < |s| ==> IsTenantChar(s[i])
    decreases |s|
  {
    if s != [] {
      SanitizeFixedIff(s[1..]);
      if !IsTenantChar(s[0]) {
        assert |SanitizeTenantId(s)| < |s|;
      } else if SanitizeTenantId(s) == s {
        assert SanitizeTenantId(s[1..]) == s[1..];
      } else {
        assert SanitizeTenantId(s[1..]) != s[1..];
      }
    }
  }

  lemma SanitizeIdempotent(s: string)
    ensures SanitizeTenantId(SanitizeTenantId(s)) == SanitizeTenantId(s)
  {
    SanitizeFixedIff(SanitizeTenantId(s));
  }

  // ---------------------------------------------------------------------------
  // The protocol as a specification
  // ---------------------------------------------------------------------------

  /** `Number(timeoutMs) + 'ms'` for an integral timeout. */
  function TimeoutSetting(timeoutMs: int): string
  {
    IntToString(timeoutMs) + "ms"
  }

  /** The five commands of a transaction that goes through. */
  function Protocol(tenantId: string, sql: string, params: seq<Value>, timeoutMs: int): (p: seq<Command>)
    ensures |p| == 5
  {
    [Begin,
     Command(ConfigSql, [Str("statement_timeout"), Str(TimeoutSetting(timeoutMs))]),
     Command(ConfigSql, [Str("app.current_tenant_id"), Str(SanitizeTenantId(tenantId))]),
     Command(sql, params),
     Commit]
  }

  /** The `i`-th answer of the server (counting from 0). */
  function ReplyAt(replies: seq<Reply>, i: nat): Reply
  {
    if i < |replies| then replies[i] else Disconnected
  }

  /** Index of the first of the first `n` answers that is an error; `n` when there is none. */
  function FirstFailure(replies: seq<Reply>, n: nat): (k: nat)
    ensures k <= n
    ensures k < n ==> ReplyAt(replies, k).Failed?
    ensures forall i :: 0 <= i < k ==> ReplyAt(replies, i).Answered?
  {
    if n == 0 then 0
    else
      var k := FirstFailure(replies, n - 1);
      if k < n - 1 then k else if ReplyAt(replies, n - 1).Failed? then n - 1 else n
  }

  /**
   * The commands the client receives: the protocol up to the first failure, then ROLLBACK. The
   * transaction always opens with BEGIN and is always closed, by COMMIT exactly when every step
   * was answered.
   */
  function Transcript(replies: seq<Reply>, tenantId: string, sql: string, params: seq<Value>, timeoutMs: int)
    : (r: seq<Command>)
    ensures |r| >= 2 && r[0] == Begin
    ensures r[|r| - 1] == Commit || r[|r| - 1] == Rollback
    ensures r[|r| - 1] == Commit <==> forall i :: 0 <= i < 5 ==> ReplyAt(replies, i).Answered?
  {
    var k := FirstFailure(replies, 5);
    var p := Protocol(tenantId, sql, params, timeoutMs);
    if k == 5 then p else p[..k + 1] + [Rollback]
  }

  /**
   * The caller's outcome: the query's rows with a null count read as 0, or the error thrown. Rows
   * come back exactly when every step was answered.
   */
  function OutcomeOf(replies: seq<Reply>): (o: Outcome)
    ensures o.Returned? <==> forall i :: 0 <= i < 5 ==> ReplyAt(replies, i).Answered?
  {
    var k := FirstFailure(replies, 5);
    if k == 5 then
      var q := ReplyAt(replies, 3);
      Returned(q.rows, q.rowCount.GetOr(0))
    else
      var rb := ReplyAt(replies, k + 1);
      if rb.Failed? then Threw(rb.error) else Threw(ReplyAt(replies, k).error)
  }

  // ---------------------------------------------------------------------------
  // The client and the executor
  // ---------------------------------------------------------------------------

  /** A checked-out pool client: what it has been sent, what the server will answer, and releases. */
  class Client {
    var issued: seq<Command>
    var replies: seq<Reply>
    var releases: nat

    constructor (replies: seq<Reply>)
      ensures issued == [] && this.replies == replies && releases == 0
    {
      issued := [];
      this.replies := replies;
      releases := 0;
    }

    /** `client.query(...)`: sends the command and takes the server's next answer. */
    method Query(c: Command) returns (r: Reply)
      modifies this
      ensures issued == old(issued) + [c]
      ensures r == ReplyAt(old(replies), 0)
      ensures replies == if old(replies) == [] then [] else old(replies)[1..]
      ensures releases == old(releases)
    {
      issued := issued + [c];
      r := ReplyAt(replies, 0);
      if replies != [] {
        replies := replies[1..];
      }
    }

    /** `client.release()`. */
    method Release()
      modifies this
      ensures releases == old(releases) + 1
      ensures issued == old(issued) && replies == old(replies)
    {
      releases := releases + 1;
    }
  }

  /** Drops the first `n` answers. */
  function Drop(replies: seq<Reply>, n: nat): seq<Reply>
  {
    if n <= |replies| then replies[n..] else []
  }

  lemma ReplyAtDrop(replies: seq<Reply>, n: nat)
    ensures ReplyAt(Drop(replies, n), 0) == ReplyAt(replies, n)
    ensures (if Drop(replies, n) == [] then [] else Drop(replies, n)[1..]) == Drop(replies, n + 1)
  {
  }

  /** Sends the `n`-th protocol command (the pool client has received `n` answers so far). */
  method Step(client: Client, c: Command, ghost start: seq<Command>, ghost replies: seq<Reply>, ghost n: nat)
    returns (r: Reply)
    requires client.replies == Drop(replies, n)
    modifies client
    ensures client.issued == old(client.issued) + [c]
    ensures client.replies == Drop(replies, n + 1)
    ensures r == ReplyAt(replies, n)
    ensures client.releases == old(client.releases)
  {
    ReplyAtDrop(replies, n);
    r := client.Query(c);
  }

  /**
   * `executeWithTenant(tenantId, sql, params, timeoutMs)` on a connected client: BEGIN, the two
   * `set_config` calls, the query and COMMIT, stopping at the first error to send ROLLBACK and
   * rethrow (an error of the ROLLBACK itself replaces the first); the client is released once.
   */
  method ExecuteWithTenant(client: Client, tenantId: string, sql: string, params: seq<Value>, timeoutMs: int)
    returns (out: Outcome)
    modifies client
    ensures client.issued == old(client.issued) + Transcript(old(client.replies), tenantId, sql, params, timeoutMs)
    ensures client.replies == Drop(old(client.replies), |Transcript(old(client.replies), tenantId, sql, params, timeoutMs)|)
    ensures client.releases == old(client.releases) + 1
    ensures out == OutcomeOf(old(client.replies))
  {
    ghost var replies := client.replies;
    ghost var start := client.issued;
    var p := Protocol(tenantId, sql, params, timeoutMs);
    var i := 0;
    var failure: Option<string> := None;
    var query := Answered([], None);
    while i < 5 && failure.None?
      invariant 0 <= i <= 5
      invariant failure.None? ==> i == FirstFailure(replies, i) && client.issued == start + p[..i]
      invariant failure.Some? ==>
        (0 < i && FirstFailure(replies, 5) == i - 1 && client.issued == start + p[..i]
         && failure.value == ReplyAt(replies, i - 1).error)
      invariant client.replies == Drop(replies, i)
      invariant client.releases == old(client.releases)
      invariant failure.None? && i > 3 ==> query == ReplyAt(replies, 3)
    {
      var r := Step(client, p[i], start, replies, i);
      assert p[..i + 1] == p[..i] + [p[i]];
      if r.Failed? {
        failure := Some(r.error);
      } else if i == 3 {
        query := r;
      }
      i := i + 1;
    }
    if failure.Some? {
      var rb := Step(client, Rollback, start, replies, i);
      out := if rb.Failed? then Threw(rb.error) else Threw(failure.value);
    } else {
      out := Returned(query.rows, query.rowCount.GetOr(0));
    }
    client.Release();
  }

  /** `executeReadOnly(sql, params)`: the pool's answer, with a null row count read as 0. */
  function ReadOnly(reply: Reply): (out: Outcome)
    ensures out.Returned? <==> reply.Answered?
    ensures out.Returned? ==> out.rows == reply.rows && out.rowCount == reply.rowCount.GetOr(0)
    ensures out.Threw? ==> out.error == reply.error
  {
    match reply
    case Answered(rows, count) => Returned(rows, count.GetOr(0))
    case Failed(e) => Threw(e)
  }

  // ---------------------------------------------------------------------------
  // What the protocol guarantees
  // ---------------------------------------------------------------------------

  /**
   * The transaction commits iff the server answers all five commands; then the client receives
   * exactly the protocol. Otherwise it receives the protocol up to the failed command and ROLLBACK.
   */
  lemma TranscriptCases(replies: seq<Reply>, tenantId: string, sql: string, params: seq<Value>, timeoutMs: int)
    ensures var t := Transcript(replies, tenantId, sql, params, timeoutMs);
      var p := Protocol(tenantId, sql, params, timeoutMs);
      (OutcomeOf(replies).Returned? <==> forall i :: 0 <= i < 5 ==> ReplyAt(replies, i).Answered?)
      && (OutcomeOf(replies).Returned? <==> t == p)
      && (OutcomeOf(replies).Threw? <==>
            exists k :: 0 <= k < 5 && ReplyAt(replies, k).Failed? && t == p[..k + 1] + [Rollback])
      && t[0] == Begin && 2 <= |t| <= 6
  {
    var k := FirstFailure(replies, 5);
    var t := Transcript(replies, tenantId, sql, params, timeoutMs);
    if k < 5 {
      assert t[|t| - 1] == Rollback;
      assert Rollback != Protocol(tenantId, sql, params, timeoutMs)[4];
    }
  }

  /**
   * A failed transaction ends with ROLLBACK right after the command that failed, and nothing of
   * the protocol is sent after the failure; the error thrown is the ROLLBACK's own when that fails.
   */
  lemma FailureRollsBack(replies: seq<Reply>, tenantId: string, sql: string, params: seq<Value>, timeoutMs: int)
    requires OutcomeOf(replies).Threw?
    ensures var t := Transcript(replies, tenantId, sql, params, timeoutMs);
      var n := |t| - 1;
      t[n] == Rollback && 1 <= n <= 5 && ReplyAt(replies, n - 1).Failed?
      && t[..n] == Protocol(tenantId, sql, params, timeoutMs)[..n]
      && OutcomeOf(replies).error ==
        (var k := FirstFailure(replies, 5);
         if ReplyAt(replies, k + 1).Failed? then ReplyAt(replies, k + 1).error else ReplyAt(replies, k).error)
  {
  }

  /**
   * The statement texts sent are fixed, apart from the caller's own query; the timeout and the
   * tenant id travel only as bind parameters, and the tenant id only in its filtered form.
   */
  lemma OnlyFixedTexts(replies: seq<Reply>, tenantId: string, sql: string, params: seq<Value>, timeoutMs: int)
    ensures var t := Transcript(replies, tenantId, sql, params, timeoutMs);
      forall c :: c in t ==> c.text in {"BEGIN", ConfigSql, sql, "COMMIT", "ROLLBACK"}
    ensures var t := Transcript(replies, tenantId, sql, params, timeoutMs);
      FirstFailure(replies, 5) >= 2 ==> t[2] == Command(ConfigSql, [Str("app.current_tenant_id"), Str(SanitizeTenantId(tenantId))])
  {
    var t := Transcript(replies, tenantId, sql, params, timeoutMs);
    var p := Protocol(tenantId, sql, params, timeoutMs);
    forall c | c in t ensures c.text in {"BEGIN", ConfigSql, sql, "COMMIT", "ROLLBACK"} {
      if c !in p {
        assert c == Rollback;
      }
    }
  }

  /** On success both executors read the query's answer the same way. */
  lemma SameRowCountRule(replies: seq<Reply>)
    requires OutcomeOf(replies).Returned?
    ensures OutcomeOf(replies) == ReadOnly(ReplyAt(replies, 3))
  {
  }

  // The repository's test scenarios.

  lemma TimeoutSettings()
    ensures TimeoutSetting(10000) == "10000ms" && TimeoutSetting(5000) == "5000ms"
    ensures DefaultTimeoutMs == QueryTimeoutMs
  {
    assert NatToString(10000) == "10000";
    assert NatToString(5000) == "5000";
  }

  lemma UuidChars(u: string)
    requires u == "11111111-1111-1111-1111-111111111111" || u == "aaaaaaaa-bbbb-cccc-dddd-eeeeeeeeeeee"
    ensures forall i :: 0 <= i < |u| ==> IsTenantChar(u[i])
  {
    if u == "11111111-1111-1111-1111-111111111111" {
      OnesUuidChars(u);
    } else {
      LettersUuidChars(u);
    }
  }

  lemma OnesUuidChars(u: string)
    requires u == "11111111-1111-1111-1111-111111111111"
    ensures forall i :: 0 <= i < |u| ==> IsTenantChar(u[i])
  {
    forall i | 0 <= i < |u| ensures u[i] == '1' || u[i] == '-' {
    }
  }

  lemma LettersUuidChars(u: string)
    requires u == "aaaaaaaa-bbbb-cccc-dddd-eeeeeeeeeeee"
    ensures forall i :: 0 <= i < |u| ==> IsTenantChar(u[i])
  {
    forall i | 0 <= i < |u| ensures 'a' <= u[i] <= 'e' || u[i] == '-' {
    }
  }

  /** The lower-case hyphenated UUIDs of the tests pass the filter unchanged. */
  lemma UuidUnchanged(u: string)
    requires u == "11111111-1111-1111-1111-111111111111" || u == "aaaaaaaa-bbbb-cccc-dddd-eeeeeeeeeeee"
    ensures SanitizeTenantId(u) == u
  {
    UuidChars(u);
    SanitizeFixedIff(u);
  }

  /** An injection attempt loses every quote, semicolon, space and capital letter. */
  lemma InjectionFiltered(s: string)
    requires s == "'; DROP TABLE users; --"
    ensures SanitizeTenantId(s) == "e--"
  {
    var a, b := s[..14], s[14..];
    assert s == a + b;
    SanitizeAppend(a, b);
    InjectionHead(a);
    InjectionTail(b);
  }

  lemma InjectionHead(a: string)
    requires a == "'; DROP TABLE "
    ensures SanitizeTenantId(a) == ""
  {
    SanitizeNone(a);
  }

  lemma InjectionTail(b: string)
    requires b == "users; --"
    ensures SanitizeTenantId(b) == "e--"
  {
    assert b[1..][1..] == "ers; --";
    assert SanitizeTenantId(b) == SanitizeTenantId("ers; --");
    assert SanitizeTenantId("ers; --") == "e" + SanitizeTenantId("rs; --");
    assert SanitizeTenantId("rs; --") == SanitizeTenantId(" --");
    assert SanitizeTenantId(" --") == "--";
  }

  lemma {:induction false} SanitizeNone(s: string)
    requires forall i :: 0 <= i < |s| ==> !IsTenantChar(s[i])
    ensures SanitizeTenantId(s) == ""
    decreases |s|
  {
    if s != [] {
      SanitizeNone(s[1..]);
    }
  }

  /** A failing BEGIN: the client receives BEGIN and ROLLBACK and the error is rethrown. */
  lemma BeginFails(e: string, rest: seq<Reply>, tenantId: string, sql: string, params: seq<Value>, timeoutMs: int)
    requires rest != [] && rest[0].Answered?
    ensures Transcript([Failed(e)] + rest, tenantId, sql, params, timeoutMs) == [Begin, Rollback]
    ensures OutcomeOf([Failed(e)] + rest) == Threw(e)
  {
    assert FirstFailure([Failed(e)] + rest, 1) == 0;
  }
}
