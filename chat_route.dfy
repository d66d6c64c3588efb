/**
 * The chat endpoint: the request body is checked (present, a non-blank question within the length
 * limit), the question goes to the NL2SQL agent under the session's tenant, an audit entry is
 * produced for both success and failure, and internal error messages are replaced by a generic
 * one unless they describe a validation failure.
 */
module ChatRoute {
  import opened Base
  import opened Text
  import opened Values
  import opened Registry
  import opened SqlAst
  import opened SqlValidator
  import opened TenantExecutor
  import opened Nl2SqlAgent
  import SqlText
  import SqlGateExamples

  /** The decoded JSON body; `None` stands for a body that is not valid JSON. */
  datatype ChatBody = ChatBody(question: Option<string>, conversationId: Option<string>)

  datatype Session = Session(userId: string, email: string, name: string, tenantId: string,
                             tenantSlug: string, role: string)

  /** The fixed demonstration session every request runs under. */
  const DemoSession := Session("demo-user-001", "analyst@demo-example.co.uk", "Demo Analyst",
                               "11111111-1111-1111-1111-111111111111", "demo", "analyst")

  /** An audit entry without its id and timestamp. */
  datatype AuditEntry = AuditEntry(userId: string, tenantId: string, question: string, sqlExecuted: string,
                                   rowCount: int, executionTimeMs: int, status: string,
                                   rejectionReason: Option<string>)

  datatype HttpResponse = Json(status: int, body: ChatResponse) | JsonError(status: int, error: string)

  const InvalidBodyMessage := "Invalid request body"
  const QuestionRequiredMessage := "Question is required"
  const GenericFailureMessage := "Failed to process your question. " + "Please try rephrasing."

  function TooLongMessage(): string
  {
    ExceedsMessage(MaxQuestionLength)
  }

  function ExceedsMessage(limit: nat): string
  {
    "Question exceeds maximum length of " + NatToString(limit) + " characters"
  }

  // ---------------------------------------------------------------------------
  // Input checks
  // ---------------------------------------------------------------------------

  /** The trimmed question, or the message of the 400 response. */
  function CheckInput(body: Option<ChatBody>): (r: Result<string>)
    ensures r.Ok? ==> r.value != [] && |r.value| <= MaxQuestionLength
  {
    if body.None? then Err(InvalidBodyMessage)
    else
      var q := if body.value.question.Some? then TrimJs(body.value.question.value) else "";
      if q == "" then Err(QuestionRequiredMessage)
      else if |q| > MaxQuestionLength then Err(TooLongMessage())
      else Ok(q)
  }

  /** A question is accepted exactly when it trims to something non-empty within the limit. */
  lemma InputAcceptedIff(body: Option<ChatBody>)
    ensures CheckInput(body).Ok? <==>
      body.Some? && body.value.question.Some? && var q := TrimJs(body.value.question.value);
      q != [] && |q| <= MaxQuestionLength
    ensures CheckInput(body).Ok? ==> CheckInput(body).value == TrimJs(body.value.question.value)
  {
  }

  /** A missing question, or one made only of white space, is "required". */
  lemma BlankQuestionRejected(body: ChatBody)
    requires body.question.None? || forall k :: 0 <= k < |body.question.value| ==> IsJsSpace(body.question.value[k])
    ensures CheckInput(Some(body)) == Err(QuestionRequiredMessage)
    ensures Contains(QuestionRequiredMessage, "required")
  {
    if body.question.Some? {
      TrimAllSpaces(body.question.value, IsJsSpace);
    }
    assert QuestionRequiredMessage == "Question is " + "required" + "";
    ContainsInfix("Question is ", "required", "");
  }

  /** A question whose trimmed text is over the limit is rejected, naming the maximum length. */
  lemma LongQuestionRejected(body: ChatBody)
    requires body.question.Some? && |TrimJs(body.question.value)| > MaxQuestionLength
    ensures CheckInput(Some(body)) == Err(TooLongMessage())
    ensures Contains(TooLongMessage(), "maximum length")
  {
    TooLongNamesLimit();
  }

  lemma TooLongNamesLimit()
    ensures Contains(TooLongMessage(), "maximum length")
  {
    ExceedsNamesLimit(MaxQuestionLength);
  }

  lemma ExceedsNamesLimit(limit: nat)
    ensures Contains(ExceedsMessage(limit), "maximum length")
  {
    var s := ExceedsMessage(limit);
    assert s[17..31] == "maximum length";
    assert OccursAt(s, "maximum length", 17);
    ContainsIff(s, "maximum length");
  }

  /** A question of more than the limit with no surrounding white space is too long. */
  lemma OverlongWordRejected(s: string)
    requires |s| > MaxQuestionLength && !IsJsSpace(s[0]) && !IsJsSpace(s[|s| - 1])
    ensures CheckInput(Some(ChatBody(Some(s), None))) == Err(TooLongMessage())
  {
    TrimUnchanged(s, IsJsSpace);
  }

  // ---------------------------------------------------------------------------
  // Errors and audit
  // ---------------------------------------------------------------------------

  /**
   * What the client is shown for a failure with message `m`: the message itself exactly when it
   * mentions validation, otherwise the generic one.
   */
  function SafeMessage(m: string): (r: string)
    ensures r == m <==> Contains(m, "validation") || m == GenericFailureMessage
    ensures r != m ==> r == GenericFailureMessage
    ensures Contains(r, "validation") <==> Contains(m, "validation")
  {
    GenericMessageQuiet();
    if Contains(m, "validation") then m else GenericFailureMessage
  }

  lemma GenericMessageQuiet()
    ensures !Contains(GenericFailureMessage, "validation")
  {
    assert 'v' !in "Failed to process your question. " && 'v' !in "Please try rephrasing.";
    AbsentLeadNotContained(GenericFailureMessage, "validation");
  }

  /** The gate's rejection reasons are shown to the client in full. */
  lemma ValidationErrorsShown(errors: seq<string>)
    ensures SafeMessage(ValidationFailureMessage(errors)) == ValidationFailureMessage(errors)
    ensures forall e :: e in errors ==> Contains(SafeMessage(ValidationFailureMessage(errors)), e)
  {
    ValidationMessageListsErrors(errors);
  }

  /** An answer that could not be decoded is reported with the generic message. */
  lemma ParseFailureHidden()
    ensures SafeMessage(ParseFailureMessage) == GenericFailureMessage
  {
    assert 'v' !in ParseFailureMessage;
    AbsentLeadNotContained(ParseFailureMessage, "validation");
  }

  /** The audit entry for an answered or failed question. */
  function AuditOf(session: Session, question: string, r: Result<ChatResponse>): AuditEntry
  {
    match r
    case Ok(resp) =>
      AuditEntry(session.userId, session.tenantId, question, resp.sql, resp.metadata.rowCount,
                 resp.metadata.executionTimeMs, "success", None)
    case Err(m) => AuditEntry(session.userId, session.tenantId, question, "", 0, 0, "error", Some(m))
  }

  /**
   * The response for an answered or failed question: status 200 with the answer exactly when it
   * succeeded, otherwise status 500 with an error that mentions validation exactly when the
   * failure did.
   */
  function Reply(r: Result<ChatResponse>): (resp: HttpResponse)
    ensures resp.status == 200 <==> r.Ok?
    ensures r.Ok? ==> resp == Json(200, r.value)
    ensures r.Err? ==> resp.JsonError? && resp.status == 500
    ensures r.Err? ==> (Contains(resp.error, "validation") <==> Contains(r.message, "validation"))
  {
    match r
    case Ok(resp) => Json(200, resp)
    case Err(m) => JsonError(500, SafeMessage(m))
  }

  /**
   * Success and failure are told apart the same way by the client and by the audit: status 200
   * and "success" with the executed SQL, or status 500 and "error" with the full reason and nothing
   * executed.
   */
  lemma ReplyAndAuditAgree(session: Session, question: string, r: Result<ChatResponse>)
    ensures var resp := Reply(r); var e := AuditOf(session, question, r);
      (resp.status == 200 <==> e.status == "success")
      && (resp.status == 500 <==> e.status == "error")
      && (r.Ok? ==> resp.Json? && resp.body == r.value && e.sqlExecuted == r.value.sql)
      && (r.Err? ==> resp.JsonError? && e.rejectionReason == Some(r.message) && e.sqlExecuted == ""
                                     && e.rowCount == 0 && e.executionTimeMs == 0)
      && e.userId == session.userId && e.tenantId == session.tenantId && e.question == question
  {
  }

  /** SQL the gate accepts is run, and once it has returned rows the client gets a 200. */
  lemma AcceptedAnswered(text: string, parseJson: string -> Option<AgentResponse>, parseSql: string -> ParseOutcome,
                         rules: Rules, a: AgentResponse, id: string, rows: seq<Value>, rowCount: int, durationMs: int)
    requires parseJson(StripFences(text)) == Some(a) && !a.needsClarification
    requires Validate(a.sql, parseSql, rules).valid
    ensures Reply(Answer(Decide(text, parseJson, parseSql, rules, id), Returned(rows, rowCount), id, durationMs)).status == 200
  {
    var d := Decide(text, parseJson, parseSql, rules, id);
    assert d.Run?;
  }

  /** SQL the gate refuses gets a 500 whose error mentions validation. */
  lemma RefusedAnswered(text: string, parseJson: string -> Option<AgentResponse>, parseSql: string -> ParseOutcome,
                        rules: Rules, a: AgentResponse, id: string, outcome: Outcome, durationMs: int)
    requires parseJson(StripFences(text)) == Some(a) && !a.needsClarification
    requires !Validate(a.sql, parseSql, rules).valid
    ensures var resp := Reply(Answer(Decide(text, parseJson, parseSql, rules, id), outcome, id, durationMs));
      resp.status == 500 && resp.JsonError? && Contains(resp.error, "validation")
  {
    var errors := Validate(a.sql, parseSql, rules).errors;
    var d := Decide(text, parseJson, parseSql, rules, id);
    assert d == Rejected(ValidationFailureMessage(errors));
    ValidationMessageListsErrors(errors);
  }

  /**
   * The server's gate lets the model's `WITH pg_user AS (SELECT FROM pg_user) …` through: once the
   * query has run the client gets a 200 with the catalogue's rows, where the corrected gate
   * answers 500 with the validation error.
   */
  lemma ShadowedCatalogueAnswered(text: string, parseJson: string -> Option<AgentResponse>,
                                  parseSql: string -> ParseOutcome, a: AgentResponse, id: string,
                                  rows: seq<Value>, rowCount: int, durationMs: int)
    requires parseJson(StripFences(text)) == Some(a) && !a.needsClarification
    requires var sql := SqlText.StripComments(a.sql); sql != "" && SqlText.KeywordErrors(sql) == []
    requires parseSql(SqlText.StripComments(a.sql)) == Parsed([SqlGateExamples.Shadowing("pg_user")])
    ensures Reply(Answer(Decide(text, parseJson, parseSql, AsWritten, id), Returned(rows, rowCount), id, durationMs)).status == 200
    ensures var resp := Reply(Answer(Decide(text, parseJson, parseSql, Corrected, id), Returned(rows, rowCount), id, durationMs));
      resp.status == 500 && resp.JsonError? && Contains(resp.error, "validation")
  {
    SqlGateExamples.ShadowedCatalogueGate(a.sql, parseSql);
    AcceptedAnswered(text, parseJson, parseSql, AsWritten, a, id, rows, rowCount, durationMs);
    RefusedAnswered(text, parseJson, parseSql, Corrected, a, id, Returned(rows, rowCount), durationMs);
  }

  /**
   * The same for `SELECT pg_catalog.set_config('role', 'x', false) LIMIT 1`: 200 with the server's
   * gate, 500 with the corrected one.
   */
  lemma QualifiedBlockedCallAnswered(text: string, parseJson: string -> Option<AgentResponse>,
                                     parseSql: string -> ParseOutcome, a: AgentResponse, id: string,
                                     rows: seq<Value>, rowCount: int, durationMs: int)
    requires parseJson(StripFences(text)) == Some(a) && !a.needsClarification
    requires var sql := SqlText.StripComments(a.sql); sql != "" && SqlText.KeywordErrors(sql) == []
    requires parseSql(SqlText.StripComments(a.sql)) == Parsed([SqlGateExamples.QualifiedCall("pg_catalog", "set_config")])
    ensures Reply(Answer(Decide(text, parseJson, parseSql, AsWritten, id), Returned(rows, rowCount), id, durationMs)).status == 200
    ensures var resp := Reply(Answer(Decide(text, parseJson, parseSql, Corrected, id), Returned(rows, rowCount), id, durationMs));
      resp.status == 500 && resp.JsonError? && Contains(resp.error, "validation")
  {
    SqlGateExamples.QualifiedBlockedCallGate(a.sql, parseSql);
    AcceptedAnswered(text, parseJson, parseSql, AsWritten, a, id, rows, rowCount, durationMs);
    RefusedAnswered(text, parseJson, parseSql, Corrected, a, id, Returned(rows, rowCount), durationMs);
  }

  // ---------------------------------------------------------------------------
  // handleChat
  // ---------------------------------------------------------------------------

  /**
   * `handleChat(req)`. Returns the HTTP response and the audit entry handed to the (fire-and-forget)
   * audit recorder, if any. The agent's collaborators are parameters as in `ProcessQuestion`; the
   * server's route gates with `rules == AsWritten`.
   */
  method HandleChat(db: Client, cache: SchemaCache, meta: SchemaMeta, body: Option<ChatBody>,
                    llm: (string, string) -> string, parseJson: string -> Option<AgentResponse>,
                    parseSql: string -> ParseOutcome, rules: Rules, id: string, durationMs: int)
    returns (resp: HttpResponse, audit: Option<AuditEntry>)
    modifies db, cache
    ensures CheckInput(body).Err? ==>
      resp == JsonError(400, CheckInput(body).message) && audit == None
      && unchanged(db) && unchanged(cache)
    ensures CheckInput(body).Ok? ==>
      var q := CheckInput(body).value;
      var schema := if old(cache.Hit()) then old(cache.cached).value else SchemaText(meta);
      var d := Decide(llm(schema, q), parseJson, parseSql, rules, id);
      var r := Answer(d, OutcomeOf(old(db.replies)), id, durationMs);
      var sent := Issued(d, old(db.replies), DemoSession.tenantId);
      resp == Reply(r) && audit == Some(AuditOf(DemoSession, q, r))
      && db.issued == old(db.issued) + sent
      && db.replies == Drop(old(db.replies), |sent|)
      && db.releases == old(db.releases) + (if d.Run? then 1 else 0)
  {
    var session := DemoSession;
    var checked := CheckInput(body);
    if checked.Err? {
      return JsonError(400, checked.message), None;
    }
    var question := checked.value;
    var r := ProcessQuestion(db, cache, meta, question, session.tenantId, llm, parseJson, parseSql, rules, id, durationMs);
    audit := Some(AuditOf(session, question, r));
    resp := Reply(r);
  }
}
