/**
 * The NL2SQL agent: the language model's answer is unwrapped from Markdown fences and decoded, a
 * clarification request short-circuits, the generated SQL must pass the safety gate, and the
 * accepted statement (wrapped when it has no LIMIT) runs tenant-scoped; the rows are summarised in a short narrative. The schema
 * description put into the model's prompt is built once and then served from a cache.
 */
module Nl2SqlAgent {
  import opened Base
  import opened Text
  import opened Values
  import opened Registry
  import opened SqlAst
  import opened SqlText
  import opened SqlValidator
  import opened SqlGateProperties
  import opened TenantExecutor

  // ---------------------------------------------------------------------------
  // Markdown fences around the model's JSON
  // ---------------------------------------------------------------------------

  const Fence := "```"

  /** Removes an opening fence, an optional `json` tag and an optional newline after them. */
  function DropOpeningFence(s: string): (r: string)
    requires StartsWith(s, Fence)
    ensures |r| <= |s| && r == s[|s| - |r|..]
  {
    var u := s[3..];
    var v := if StartsWith(u, "json") then u[4..] else u;
    if StartsWith(v, "\n") then v[1..] else v
  }

  /** Removes a closing fence at the very end, with the newline before it when there is one. */
  function DropClosingFence(s: string): (r: string)
    ensures |r| <= |s| && r == s[..|r|]
  {
    if EndsWith(s, "\n" + Fence) then s[..|s| - 4]
    else if EndsWith(s, Fence) then s[..|s| - 3]
    else s
  }

  /** The model's text, trimmed, with the fences removed when it starts with one; nothing is added. */
  function StripFences(text: string): (r: string)
    ensures |r| <= |TrimJs(text)|
  {
    var t := TrimJs(text);
    if StartsWith(t, Fence) then DropClosingFence(DropOpeningFence(t)) else t
  }

  /** A fenced block, tagged `json` or not, gives back exactly the text between the fences. */
  lemma FencedRoundTrip(tag: string, body: string)
    requires tag == "" || tag == "json"
    ensures StripFences(Fence + tag + "\n" + body + "\n" + Fence) == body
  {
    var s := Fence + tag + "\n" + body + "\n" + Fence;
    assert s[0] == '`' && s[|s| - 1] == '`';
    TrimUnchanged(s, IsJsSpace);
    OpeningFenceDropped(s, tag, body + "\n" + Fence);
    ClosingFenceDropped(body + "\n" + Fence, body);
  }

  lemma OpeningFenceDropped(s: string, tag: string, rest: string)
    requires tag == "" || tag == "json"
    requires s == Fence + tag + "\n" + rest
    ensures StartsWith(s, Fence) && DropOpeningFence(s) == rest
  {
    assert s[..3] == Fence;
    var u := s[3..];
    assert u == tag + "\n" + rest;
    if tag == "json" {
      assert u[..4] == tag;
      assert u[4..] == "\n" + rest;
    } else {
      assert u == "\n" + rest;
      assert u[0] != 'j';
    }
  }

  lemma ClosingFenceDropped(w: string, body: string)
    requires w == body + "\n" + Fence
    ensures DropClosingFence(w) == body
  {
    assert w[|w| - 4..] == "\n" + Fence;
    assert w[..|w| - 4] == body;
  }

  /** JSON text in braces is only trimmed. */
  lemma PlainJsonKept(text: string)
    requires text != [] && text[0] == '{' && text[|text| - 1] == '}'
    ensures StripFences(text) == text
  {
    TrimUnchanged(text, IsJsSpace);
    assert TrimJs(text) == text;
    assert !StartsWith(text, Fence) by {
      if |text| >= 3 {
        assert text[..3][0] == '{';
      }
    }
  }

  // ---------------------------------------------------------------------------
  // The model's answer and the chat response
  // ---------------------------------------------------------------------------

  datatype QueryPlan = QueryPlan(description: string, tablesUsed: seq<string>, estimatedComplexity: string)

  /** The decoded answer; `None` is a field the model left out. */
  datatype AgentResponse = AgentResponse(
    queryPlan: Option<QueryPlan>,
    sql: string,
    explanation: string,
    followUpSuggestions: Option<seq<string>>,
    needsClarification: bool,
    clarificationMessage: Option<string>,
    clarificationOptions: Option<seq<string>>)

  datatype Clarification = Clarification(message: string, options: seq<string>)

  datatype Metadata = Metadata(tablesUsed: seq<string>, rowCount: int, executionTimeMs: int, cached: bool)

  datatype ChatResponse = ChatResponse(
    id: string,
    queryPlan: Option<QueryPlan>,
    sql: string,
    results: seq<Value>,
    narrative: string,
    explanation: string,
    metadata: Metadata,
    followUpSuggestions: seq<string>,
    clarificationNeeded: Option<Clarification>)

  /** `s || fallback` for an optional string: a missing or empty one gives the fallback. */
  function OrDefault(s: Option<string>, fallback: string): (r: string)
    ensures r == fallback || (s.Some? && r == s.value && r != "")
  {
    if s.Some? && s.value != "" then s.value else fallback
  }

  const ParseFailureMessage := "Failed to parse agent response as JSON"

  function ValidationFailureMessage(errors: seq<string>): string
  {
    "Generated SQL failed validation: " + Join(errors, "; ")
  }

  /** The answer to a clarification request: no SQL, no rows, and the model's question. */
  function ClarificationResponse(id: string, a: AgentResponse): ChatResponse
  {
    ChatResponse(
      id,
      Some(a.queryPlan.GetOr(QueryPlan("Clarification needed", [], "low"))),
      "",
      [],
      OrDefault(a.clarificationMessage, "Could you please clarify your question?"),
      "",
      Metadata([], 0, 0, false),
      a.followUpSuggestions.GetOr([]),
      Some(Clarification(OrDefault(a.clarificationMessage, "Please clarify"), a.clarificationOptions.GetOr([]))))
  }

  /** What the agent decides once the model has answered. */
  datatype Decision =
    | Unparseable
    | Clarify(response: ChatResponse)
    | Rejected(message: string)
    | Run(agent: AgentResponse, verdict: Verdict, sql: string)

  /**
   * The branch logic of `processQuestion` after the completion: decode (the JSON decoder is a
   * parameter), answer a clarification request at once, reject SQL the gate refuses, and
   * otherwise run the gate's sanitised SQL, or the model's own when there is none.
   */
  function Decide(text: string, parseJson: string -> Option<AgentResponse>, parseSql: string -> ParseOutcome,
                  rules: Rules, id: string): (d: Decision)
    ensures d.Run? ==> parseJson(StripFences(text)) == Some(d.agent) && !d.agent.needsClarification
                       && d.verdict == Validate(d.agent.sql, parseSql, rules) && d.verdict.valid
    ensures d.Rejected? ==> var a := parseJson(StripFences(text));
      a.Some? && !a.value.needsClarification && !Validate(a.value.sql, parseSql, rules).valid
  {
    match parseJson(StripFences(text))
    case None => Unparseable
    case Some(a) =>
      if a.needsClarification then Clarify(ClarificationResponse(id, a))
      else
        var v := Validate(a.sql, parseSql, rules);
        if !v.valid then Rejected(ValidationFailureMessage(v.errors))
        else Run(a, v, if v.sanitisedSql.Some? && v.sanitisedSql.value != "" then v.sanitisedSql.value else a.sql)
  }

  /** The commands a decision sends to the database. */
  function Issued(d: Decision, replies: seq<Reply>, tenantId: string): seq<Command>
  {
    if d.Run? then Transcript(replies, tenantId, d.sql, [], DefaultTimeoutMs) else []
  }

  /** The response, or the error `processQuestion` throws, given what the executor produced. */
  function Answer(d: Decision, outcome: Outcome, id: string, durationMs: int): Result<ChatResponse>
  {
    match d
    case Unparseable => Err(ParseFailureMessage)
    case Clarify(response) => Ok(response)
    case Rejected(message) => Err(message)
    case Run(a, v, _) =>
      match outcome
      case Threw(e) => Err(e)
      case Returned(rows, rowCount) =>
        Ok(ChatResponse(id, a.queryPlan, a.sql, rows, Narrative(rows, rowCount, a.explanation), a.explanation,
                        Metadata(v.tablesReferenced.GetOr([]), rowCount, durationMs, false),
                        a.followUpSuggestions.GetOr([]), None))
  }

  /** Text that does not decode is an error, and nothing runs. */
  lemma UnparseableFails(text: string, parseJson: string -> Option<AgentResponse>, parseSql: string -> ParseOutcome, rules: Rules,
                         id: string, outcome: Outcome, durationMs: int, replies: seq<Reply>, tenantId: string)
    requires parseJson(StripFences(text)).None?
    ensures var d := Decide(text, parseJson, parseSql, rules, id);
      Answer(d, outcome, id, durationMs) == Err(ParseFailureMessage) && Issued(d, replies, tenantId) == []
  {
  }

  /**
   * A clarification request returns no SQL and no rows, with the model's message or the default
   * ones, and neither consults the gate nor runs anything.
   */
  lemma ClarificationShortCircuits(text: string, parseJson: string -> Option<AgentResponse>,
                                   parseSql: string -> ParseOutcome, otherParse: string -> ParseOutcome,
                                   rules: Rules, otherRules: Rules,
                                   id: string, replies: seq<Reply>, tenantId: string)
    requires var a := parseJson(StripFences(text)); a.Some? && a.value.needsClarification
    ensures var a := parseJson(StripFences(text)).value;
      var d := Decide(text, parseJson, parseSql, rules, id);
      d.Clarify?
      && d == Decide(text, parseJson, otherParse, otherRules, id)
      && Issued(d, replies, tenantId) == []
      && d.response.sql == "" && d.response.results == [] && d.response.metadata.rowCount == 0
      && d.response.metadata.tablesUsed == []
      && d.response.narrative == OrDefault(a.clarificationMessage, "Could you please clarify your question?")
      && d.response.clarificationNeeded == Some(Clarification(OrDefault(a.clarificationMessage, "Please clarify"),
                                                              a.clarificationOptions.GetOr([])))
  {
  }

  /** SQL the gate refuses is never run, and the error lists every one of the gate's errors. */
  lemma RejectedNeverRuns(text: string, parseJson: string -> Option<AgentResponse>, parseSql: string -> ParseOutcome, rules: Rules,
                          id: string, outcome: Outcome, durationMs: int, replies: seq<Reply>, tenantId: string)
    requires var a := parseJson(StripFences(text));
      a.Some? && !a.value.needsClarification && !Validate(a.value.sql, parseSql, rules).valid
    ensures var v := Validate(parseJson(StripFences(text)).value.sql, parseSql, rules);
      var d := Decide(text, parseJson, parseSql, rules, id);
      Issued(d, replies, tenantId) == []
      && Answer(d, outcome, id, durationMs) == Err(ValidationFailureMessage(v.errors))
      && (forall i :: 0 <= i < |v.errors| ==> Contains(ValidationFailureMessage(v.errors), v.errors[i]))
      && Contains(ValidationFailureMessage(v.errors), "validation")
  {
    var v := Validate(parseJson(StripFences(text)).value.sql, parseSql, rules);
    ValidationMessageListsErrors(v.errors);
  }

  /** The validation error names every error of the gate, and says `validation`. */
  lemma ValidationMessageListsErrors(errors: seq<string>)
    ensures forall i :: 0 <= i < |errors| ==> Contains(ValidationFailureMessage(errors), errors[i])
    ensures Contains(ValidationFailureMessage(errors), "validation")
  {
    var m := ValidationFailureMessage(errors);
    var j := Join(errors, "; ");
    forall i | 0 <= i < |errors| ensures Contains(m, errors[i]) {
      JoinContainsPart(errors, "; ", i);
      ContainsWithin("Generated SQL failed validation: ", j, "", errors[i]);
      assert "Generated SQL failed validation: " + j + "" == m;
    }
    assert m == "Generated SQL failed " + "validation" + (": " + j);
    ContainsInfix("Generated SQL failed ", "validation", ": " + j);
  }

  /**
   * What runs has passed the gate: the single statement parsed from the stripped text, rewritten
   * (as is when it has a LIMIT, as the bounded outer query otherwise).
   */
  lemma RunIsRewritten(text: string, parseJson: string -> Option<AgentResponse>, parseSql: string -> ParseOutcome, rules: Rules,
                       id: string, a: AgentResponse)
    requires parseJson(StripFences(text)) == Some(a) && !a.needsClarification
    requires Validate(a.sql, parseSql, rules).valid
    ensures var o := parseSql(StripComments(a.sql));
      o.Parsed? && |o.stmts| == 1
      && Decide(text, parseJson, parseSql, rules, id)
         == Run(a, Validate(a.sql, parseSql, rules), SanitisedSql(StripComments(a.sql), o.stmts[0]))
  {
    ValidPassedEarlyStages(a.sql, parseSql, rules);
    var sql := StripComments(a.sql);
    var root := parseSql(sql).stmts[0];
    SingleStatement(parseSql(sql));
    ValidIsAstVerdict(a.sql, parseSql, root, rules);
    DecideRunsRewritten(text, parseJson, parseSql, rules, id, a, root);
  }

  /**
   * What the gate reports for the statement that runs is safe under either rules: every reported
   * table is allowed and outside the system catalogues, and no call is blocked. Under the
   * corrected rules that covers every relation the statement reads; under the server's rules it
   * need not (see `ShadowedCatalogueAccepted`).
   */
  lemma RunReadsAllowedTables(a: AgentResponse, parseSql: string -> ParseOutcome, rules: Rules)
    requires Validate(a.sql, parseSql, rules).valid
    ensures var o := parseSql(StripComments(a.sql));
      o.Parsed? && |o.stmts| == 1
      && Validate(a.sql, parseSql, rules).tablesReferenced == Some(TablesReferenced(o.stmts[0], rules))
      && (forall t :: t in TablesReferenced(o.stmts[0], rules) ==> IsAllowedTable(t) && !HasBlockedPrefix(t))
      && (forall f :: f in FunctionsUsed(o.stmts[0]) ==> !IsBlockedFunction(f, rules))
      && (rules == Corrected ==>
            forall t :: t in RelationRefs(o.stmts[0], {}) ==> IsAllowedTable(t) && !HasBlockedPrefix(t))
  {
    ValidPassedEarlyStages(a.sql, parseSql, rules);
    var sql := StripComments(a.sql);
    var root := parseSql(sql).stmts[0];
    SingleStatement(parseSql(sql));
    ValidIsAstVerdict(a.sql, parseSql, root, rules);
    AstValidReportedSafe(sql, root, rules);
    if rules == Corrected {
      AstValidTablesSafe(sql, root);
    }
  }

  /** Decoded SQL whose verdict is the statement's own is run as the statement's rewrite. */
  lemma DecideRunsRewritten(text: string, parseJson: string -> Option<AgentResponse>, parseSql: string -> ParseOutcome, rules: Rules,
                            id: string, a: AgentResponse, root: Node)
    requires parseJson(StripFences(text)) == Some(a) && !a.needsClarification
    requires StripComments(a.sql) != ""
    requires Validate(a.sql, parseSql, rules) == AstVerdict(StripComments(a.sql), root, rules)
    requires AstVerdict(StripComments(a.sql), root, rules).valid
    ensures Decide(text, parseJson, parseSql, rules, id)
      == Run(a, Validate(a.sql, parseSql, rules), SanitisedSql(StripComments(a.sql), root))
  {
    var sql := StripComments(a.sql);
    SanitisedNotEmpty(sql, root);
    assert AstVerdict(sql, root, rules).sanitisedSql == Some(SanitisedSql(sql, root));
    DecideRuns(text, parseJson, parseSql, rules, id, a);
  }

  /** Decoded SQL that the gate accepts with a non-empty rewrite is run as rewritten. */
  lemma DecideRuns(text: string, parseJson: string -> Option<AgentResponse>, parseSql: string -> ParseOutcome, rules: Rules,
                   id: string, a: AgentResponse)
    requires parseJson(StripFences(text)) == Some(a) && !a.needsClarification
    requires var v := Validate(a.sql, parseSql, rules);
      v.valid && v.sanitisedSql.Some? && v.sanitisedSql.value != ""
    ensures var v := Validate(a.sql, parseSql, rules);
      Decide(text, parseJson, parseSql, rules, id) == Run(a, v, v.sanitisedSql.value)
  {
  }

  lemma SanitisedNotEmpty(sql: string, root: Node)
    requires sql != ""
    ensures SanitisedSql(sql, root) != ""
  {
    if !HasLimitClause(root) {
      assert LimitWrapped(sql)[0] == 'S';
    }
  }

  /** A successful run reports the model's own SQL, the gate's tables and the executor's rows. */
  lemma RunResponse(d: Decision, rows: seq<Value>, rowCount: int, id: string, durationMs: int)
    requires d.Run?
    ensures var r := Answer(d, Returned(rows, rowCount), id, durationMs);
      r.Ok? && r.value.sql == d.agent.sql && r.value.results == rows
      && r.value.metadata == Metadata(d.verdict.tablesReferenced.GetOr([]), rowCount, durationMs, false)
      && r.value.narrative == Narrative(rows, rowCount, d.agent.explanation)
      && r.value.clarificationNeeded.None?
  {
  }

  // ---------------------------------------------------------------------------
  // Narrative
  // ---------------------------------------------------------------------------

  const NoResultsNarrative :=
    "No results found matching your query. "
    + "This could mean the access does not exist, or the search terms need adjusting."

  /** `n word`, with an `s` unless `n` is 1. */
  function Counted(n: int, word: string): string
  {
    IntToString(n) + " " + word + (if n == 1 then "" else "s")
  }

  /** The plural `s` is there exactly when the count is not 1. */
  lemma CountedPlural(n: int, word: string)
    requires word != "" && word[|word| - 1] != 's'
    ensures EndsWith(Counted(n, word), "s") <==> n != 1
  {
    var c := Counted(n, word);
    if n == 1 {
      assert c[|c| - 1] == word[|word| - 1];
    }
  }

  /** How `Array.prototype.join` writes a value: `null` and `undefined` as nothing. */
  function JoinText(v: Value): string
  {
    match v
    case Null => ""
    case Bool(b) => if b then "true" else "false"
    case Num(n) => IntToString(n)
    case Str(s) => s
    case Arr(items) => Join(seq(|items|, i requires 0 <= i < |items| => JoinText(items[i])), ",")
    case Obj(_) => "[object Object]"
  }

  function OptText(v: Option<Value>): string
  {
    if v.Some? then JoinText(v.value) else ""
  }

  /** Column `key` of every row (`undefined` where a row lacks it). */
  function ColumnValues(rows: seq<Value>, key: string): (r: seq<Option<Value>>)
    ensures |r| == |rows| && forall i :: 0 <= i < |r| ==> r[i] == Get(rows[i], key)
  {
    seq(|rows|, i requires 0 <= i < |rows| => Get(rows[i], key))
  }

  function ProviderSentence(values: seq<Option<Value>>): string
  {
    var distinct := Distinct(values);
    "Across " + Counted(|distinct|, "provider") + ": "
      + Join(seq(|distinct|, i requires 0 <= i < |distinct| => OptText(distinct[i])), ", ") + "."
  }

  /** The number of rows whose column `key` is exactly the boolean `b`. */
  function CountFlag(rows: seq<Value>, key: string, b: bool): nat
  {
    if rows == [] then 0
    else CountFlag(rows[..|rows| - 1], key, b) + (if Get(rows[|rows| - 1], key) == Some(Bool(b)) then 1 else 0)
  }

  predicate HasKey(row: Value, key: string)
  {
    key in Keys(row)
  }

  function ExplanationPart(explanation: string): seq<string>
  {
    if explanation != "" then [explanation] else []
  }

  /** The provider summary, when the first row has column `key`. */
  function ProviderPart(rows: seq<Value>, key: string): seq<string>
    requires rows != []
  {
    if HasKey(rows[0], key) then [ProviderSentence(ColumnValues(rows, key))] else []
  }

  /** Members and outside collaborators, when the first row has the flag and some row sets it. */
  function CollaboratorPart(rows: seq<Value>): seq<string>
    requires rows != []
  {
    var external := CountFlag(rows, "is_outside_collaborator", true);
    var members := CountFlag(rows, "is_outside_collaborator", false);
    if HasKey(rows[0], "is_outside_collaborator") && (external > 0 || members > 0)
    then [Counted(members, "member") + " and " + Counted(external, "external collaborator") + "."]
    else []
  }

  /** The sentences `generateNarrative` joins, for a non-zero row count. */
  function NarrativeParts(rows: seq<Value>, rowCount: int, explanation: string): seq<string>
  {
    var opening := ["Found " + Counted(rowCount, "result") + "."] + ExplanationPart(explanation);
    if rows == [] then opening
    else opening + ProviderPart(rows, "provider_type") + ProviderPart(rows, "provider") + CollaboratorPart(rows)
  }

  /** `generateNarrative`: a summary opening with the count exactly when there are rows. */
  function Narrative(rows: seq<Value>, rowCount: int, explanation: string): (r: string)
    ensures StartsWith(r, "Found ") <==> rowCount != 0
  {
    if rowCount == 0 then
      NoResultsNotFound();
      NoResultsNarrative
    else
      JoinedPartsOpen(rows, rowCount, explanation);
      Join(NarrativeParts(rows, rowCount, explanation), " ")
  }

  lemma NoResultsNotFound()
    ensures !StartsWith(NoResultsNarrative, "Found ")
  {
    assert NoResultsNarrative[0] == 'N';
  }

  lemma JoinedPartsOpen(rows: seq<Value>, rowCount: int, explanation: string)
    ensures StartsWith(Join(NarrativeParts(rows, rowCount, explanation), " "), "Found ")
  {
    var parts := NarrativeParts(rows, rowCount, explanation);
    JoinStartsWith(parts, " ");
    var rest := Counted(rowCount, "result") + ".";
    assert parts[0] == "Found " + rest;
    StartsWithFront(Join(parts, " "), "Found ", rest);
  }

  /** `generateNarrative(question, rows, rowCount, explanation)`, pushing one sentence at a time. */
  method GenerateNarrative(rows: seq<Value>, rowCount: int, explanation: string) returns (text: string)
    ensures text == Narrative(rows, rowCount, explanation)
  {
    if rowCount == 0 {
      return NoResultsNarrative;
    }
    var parts := ["Found " + Counted(rowCount, "result") + "."];
    if explanation != "" {
      parts := parts + [explanation];
    }
    ghost var opening := parts;
    assert opening == ["Found " + Counted(rowCount, "result") + "."] + ExplanationPart(explanation);
    if |rows| > 0 {
      var first := rows[0];
      if HasKey(first, "provider_type") {
        parts := parts + [ProviderSentence(ColumnValues(rows, "provider_type"))];
      }
      ghost var typed := parts;
      assert typed == opening + ProviderPart(rows, "provider_type");
      if HasKey(first, "provider") {
        parts := parts + [ProviderSentence(ColumnValues(rows, "provider"))];
      }
      ghost var named := parts;
      assert named == typed + ProviderPart(rows, "provider");
      if HasKey(first, "is_outside_collaborator") {
        var external := CountFlag(rows, "is_outside_collaborator", true);
        var members := CountFlag(rows, "is_outside_collaborator", false);
        if external > 0 || members > 0 {
          parts := parts + [Counted(members, "member") + " and " + Counted(external, "external collaborator") + "."];
        }
      }
      assert parts == named + CollaboratorPart(rows);
    }
    assert parts == NarrativeParts(rows, rowCount, explanation);
    text := Join(parts, " ");
  }

  /** A non-empty result opens with the row count, followed by the explanation when there is one. */
  lemma NarrativeOpening(rows: seq<Value>, rowCount: int, explanation: string)
    requires rowCount != 0
    ensures var n := Narrative(rows, rowCount, explanation);
      StartsWith(n, "Found " + Counted(rowCount, "result") + ".")
      && (explanation != "" ==> Contains(n, explanation))
  {
    var parts := NarrativeParts(rows, rowCount, explanation);
    JoinStartsWith(parts, " ");
    if explanation != "" {
      assert parts[1] == explanation;
      JoinContainsPart(parts, " ", 1);
    }
  }

  /**
   * When the first row has a `provider_type` column the narrative counts the different values of
   * that column and names every one of them.
   */
  lemma NarrativeNamesProviders(rows: seq<Value>, rowCount: int, explanation: string, j: nat)
    requires rowCount != 0 && rows != [] && HasKey(rows[0], "provider_type") && j < |rows|
    ensures var values := ColumnValues(rows, "provider_type");
      var n := Narrative(rows, rowCount, explanation);
      Contains(n, "Across " + Counted(|set v | v in values|, "provider") + ": ")
      && Contains(n, OptText(values[j]))
  {
    var values := ColumnValues(rows, "provider_type");
    var parts := NarrativeParts(rows, rowCount, explanation);
    var k := if explanation != "" then 2 else 1;
    var sentence := ProviderSentence(values);
    assert parts[k] == sentence;
    JoinContainsPart(parts, " ", k);
    SentenceNamesProviders(values, j);
    ContainsTransitive(Join(parts, " "), sentence, "Across " + Counted(|set v | v in values|, "provider") + ": ");
    ContainsTransitive(Join(parts, " "), sentence, OptText(values[j]));
  }

  /** The provider sentence counts the different values and names each of them. */
  lemma SentenceNamesProviders(values: seq<Option<Value>>, j: nat)
    requires j < |values|
    ensures var sentence := ProviderSentence(values);
      Contains(sentence, "Across " + Counted(|set v | v in values|, "provider") + ": ")
      && Contains(sentence, OptText(values[j]))
  {
    var sentence := ProviderSentence(values);
    var distinct := Distinct(values);
    DistinctCount(values);
    var head := "Across " + Counted(|distinct|, "provider") + ": ";
    var names := seq(|distinct|, i requires 0 <= i < |distinct| => OptText(distinct[i]));
    ContainsInfix("", head, Join(names, ", ") + ".");
    assert "" + head + (Join(names, ", ") + ".") == sentence;
    assert values[j] in distinct;
    var i :| 0 <= i < |distinct| && distinct[i] == values[j];
    JoinContainsPart(names, ", ", i);
    ContainsWithin(head, Join(names, ", "), ".", names[i]);
  }

  lemma TwoProviders()
    ensures Counted(2, "provider") == "2 providers"
  {
    assert IntToString(2) == "2";
  }

  lemma InnerContained(n: string, a: string, c: string, b: string)
    requires Contains(n, a + c + b)
    ensures Contains(n, c)
  {
    ContainsInfix(a, c, b);
    ContainsTransitive(n, a + c + b, c);
  }

  /** A row with a single `provider_type` column. */
  function ProviderRow(p: string): Value
  {
    Obj([Field("provider_type", Str(p))])
  }

  /**
   * The repository's provider-breakdown scenario: three rows over two different providers give
   * a narrative that counts two providers and names both.
   */
  lemma ProviderBreakdown(g: string, w: string, explanation: string)
    requires g != w
    ensures var n := Narrative([ProviderRow(g), ProviderRow(w), ProviderRow(g)], 3, explanation);
      Contains(n, "2 providers") && Contains(n, g) && Contains(n, w)
  {
    var rows := [ProviderRow(g), ProviderRow(w), ProviderRow(g)];
    var n := Narrative(rows, 3, explanation);
    BreakdownNames(g, w, explanation);
    assert Contains(n, "Across " + Counted(2, "provider") + ": ") by {
      BreakdownCount(g, w);
      assert HasKey(rows[0], "provider_type") by {
        assert Keys(rows[0]) == ["provider_type"];
      }
      NarrativeNamesProviders(rows, 3, explanation, 0);
    }
    InnerContained(n, "Across ", Counted(2, "provider"), ": ");
    TwoProviders();
  }

  lemma BreakdownNames(g: string, w: string, explanation: string)
    ensures var n := Narrative([ProviderRow(g), ProviderRow(w), ProviderRow(g)], 3, explanation);
      Contains(n, g) && Contains(n, w)
  {
    var rows := [ProviderRow(g), ProviderRow(w), ProviderRow(g)];
    assert HasKey(rows[0], "provider_type") by {
      assert Keys(rows[0]) == ["provider_type"];
    }
    var values := ColumnValues(rows, "provider_type");
    assert OptText(values[0]) == g && OptText(values[1]) == w;
    NarrativeNamesProviders(rows, 3, explanation, 0);
    NarrativeNamesProviders(rows, 3, explanation, 1);
  }

  lemma BreakdownCount(g: string, w: string)
    requires g != w
    ensures |set v | v in ColumnValues([ProviderRow(g), ProviderRow(w), ProviderRow(g)], "provider_type")| == 2
  {
    var values := ColumnValues([ProviderRow(g), ProviderRow(w), ProviderRow(g)], "provider_type");
    assert values == [Some(Str(g)), Some(Str(w)), Some(Str(g))];
    assert (set v | v in values) == {Some(Str(g)), Some(Str(w))};
  }

  lemma ContainsTransitive(s: string, t: string, u: string)
    requires Contains(s, t) && Contains(t, u)
    ensures Contains(s, u)
  {
    ContainsIff(s, t);
    ContainsIff(t, u);
    var i :| OccursAt(s, t, i);
    var j :| OccursAt(t, u, j);
    forall k | 0 <= k < |u| ensures s[i + j + k] == u[k] {
      assert s[i..i + |t|][j + k] == t[j + k];
      assert t[j..j + |u|][k] == u[k];
    }
    assert s[i + j..i + j + |u|] == u;
    assert OccursAt(s, u, i + j);
    ContainsIff(s, u);
  }

  // ---------------------------------------------------------------------------
  // Schema description and its cache
  // ---------------------------------------------------------------------------

  datatype ColumnMeta = ColumnMeta(tableName: string, columnName: string, dataType: string, isNullable: string,
                                   description: Option<string>)

  datatype ForeignKeyMeta = ForeignKeyMeta(tableName: string, columnName: string, foreignTableName: string,
                                           foreignColumnName: string)

  /** What `getSchemaMetadata` reports about the database. */
  datatype SchemaMeta = SchemaMeta(tables: seq<string>, columns: seq<ColumnMeta>, foreignKeys: seq<ForeignKeyMeta>,
                                   materializedViews: seq<string>)

  const SchemaHeader := "-- Database Schema for Cloud Account & Identity Intelligence\n"

  /** The columns of one table, in the order reported. */
  function ColumnsOf(columns: seq<ColumnMeta>, table: string): (r: seq<ColumnMeta>)
    ensures forall c :: c in r <==> c in columns && c.tableName == table
  {
    if columns == [] then []
    else
      var last := columns[|columns| - 1];
      ColumnsOf(columns[..|columns| - 1], table) + (if last.tableName == table then [last] else [])
  }

  function ForeignKeysOf(fks: seq<ForeignKeyMeta>, table: string): (r: seq<ForeignKeyMeta>)
    ensures forall f :: f in r <==> f in fks && f.tableName == table
  {
    if fks == [] then []
    else
      var last := fks[|fks| - 1];
      ForeignKeysOf(fks[..|fks| - 1], table) + (if last.tableName == table then [last] else [])
  }

  function ColumnLine(c: ColumnMeta): string
  {
    "--   " + c.columnName + " " + c.dataType + " " + (if c.isNullable == "YES" then "NULL" else "NOT NULL")
      + (if c.description.Some? && c.description.value != "" then " -- " + c.description.value else "")
  }

  function ForeignKeyLine(f: ForeignKeyMeta): string
  {
    "--   FK: " + f.columnName + " -> " + f.foreignTableName + "(" + f.foreignColumnName + ")"
  }

  function ViewColumnLine(c: ColumnMeta): string
  {
    "--   " + c.columnName + " " + c.dataType
  }

  function ColumnLines(cs: seq<ColumnMeta>): (r: seq<string>)
    ensures |r| == |cs|
  {
    if cs == [] then [] else ColumnLines(cs[..|cs| - 1]) + [ColumnLine(cs[|cs| - 1])]
  }

  function ForeignKeyLines(fs: seq<ForeignKeyMeta>): (r: seq<string>)
    ensures |r| == |fs|
  {
    if fs == [] then [] else ForeignKeyLines(fs[..|fs| - 1]) + [ForeignKeyLine(fs[|fs| - 1])]
  }

  function ViewColumnLines(cs: seq<ColumnMeta>): (r: seq<string>)
    ensures |r| == |cs|
  {
    if cs == [] then [] else ViewColumnLines(cs[..|cs| - 1]) + [ViewColumnLine(cs[|cs| - 1])]
  }

  function TableBlock(meta: SchemaMeta, table: string): seq<string>
  {
    ["-- Table: " + table] + ColumnLines(ColumnsOf(meta.columns, table))
      + ForeignKeyLines(ForeignKeysOf(meta.foreignKeys, table)) + [""]
  }

  function ViewBlock(meta: SchemaMeta, view: string): seq<string>
  {
    ["-- Materialised View: " + view] + ViewColumnLines(ColumnsOf(meta.columns, view)) + [""]
  }

  function TableBlocks(meta: SchemaMeta, tables: seq<string>): seq<string>
  {
    if tables == [] then [] else TableBlocks(meta, tables[..|tables| - 1]) + TableBlock(meta, tables[|tables| - 1])
  }

  function ViewBlocks(meta: SchemaMeta, views: seq<string>): seq<string>
  {
    if views == [] then [] else ViewBlocks(meta, views[..|views| - 1]) + ViewBlock(meta, views[|views| - 1])
  }

  function SchemaLines(meta: SchemaMeta): seq<string>
  {
    [SchemaHeader] + TableBlocks(meta, meta.tables) + ViewBlocks(meta, meta.materializedViews)
  }

  /** The description always opens with the header, so it is never empty and a cached copy is always used. */
  function SchemaText(meta: SchemaMeta): (r: string)
    ensures StartsWith(r, SchemaHeader) && r != ""
  {
    JoinStartsWith(SchemaLines(meta), "\n");
    Join(SchemaLines(meta), "\n")
  }

  /** Every column of a listed table is described under it. */
  lemma TableColumnsDescribed(meta: SchemaMeta, table: string, c: ColumnMeta)
    requires c in meta.columns && c.tableName == table
    ensures ColumnLine(c) in TableBlock(meta, table)
  {
    ColumnLinesHave(ColumnsOf(meta.columns, table), c);
  }

  lemma {:induction false} ColumnLinesHave(cs: seq<ColumnMeta>, c: ColumnMeta)
    requires c in cs
    ensures ColumnLine(c) in ColumnLines(cs)
  {
    if cs[|cs| - 1] != c {
      ColumnLinesHave(cs[..|cs| - 1], c);
    }
  }

  /** The columns grouped by table, as the `Map` of lists the loop fills. */
  function Lookup<T>(m: map<string, seq<T>>, key: string): seq<T>
  {
    if key in m then m[key] else []
  }

  method GroupColumns(columns: seq<ColumnMeta>) returns (groups: map<string, seq<ColumnMeta>>)
    ensures forall t :: Lookup(groups, t) == ColumnsOf(columns, t)
  {
    groups := map[];
    for i := 0 to |columns|
      invariant forall t :: Lookup(groups, t) == ColumnsOf(columns[..i], t)
    {
      var c := columns[i];
      assert columns[..i + 1][..i] == columns[..i];
      groups := groups[c.tableName := Lookup(groups, c.tableName) + [c]];
    }
    assert columns[..|columns|] == columns;
  }

  method GroupForeignKeys(fks: seq<ForeignKeyMeta>) returns (groups: map<string, seq<ForeignKeyMeta>>)
    ensures forall t :: Lookup(groups, t) == ForeignKeysOf(fks, t)
  {
    groups := map[];
    for i := 0 to |fks|
      invariant forall t :: Lookup(groups, t) == ForeignKeysOf(fks[..i], t)
    {
      var f := fks[i];
      assert fks[..i + 1][..i] == fks[..i];
      groups := groups[f.tableName := Lookup(groups, f.tableName) + [f]];
    }
    assert fks[..|fks|] == fks;
  }

  /** The lines of one table: its title, its columns, its foreign keys and a blank line. */
  method TableBlockLines(table: string, cols: seq<ColumnMeta>, fks: seq<ForeignKeyMeta>) returns (block: seq<string>)
    ensures block == ["-- Table: " + table] + ColumnLines(cols) + ForeignKeyLines(fks) + [""]
  {
    block := ["-- Table: " + table];
    for j := 0 to |cols|
      invariant block == ["-- Table: " + table] + ColumnLines(cols[..j])
    {
      assert cols[..j + 1][..j] == cols[..j];
      block := block + [ColumnLine(cols[j])];
    }
    assert cols[..|cols|] == cols;
    for j := 0 to |fks|
      invariant block == ["-- Table: " + table] + ColumnLines(cols) + ForeignKeyLines(fks[..j])
    {
      assert fks[..j + 1][..j] == fks[..j];
      block := block + [ForeignKeyLine(fks[j])];
    }
    assert fks[..|fks|] == fks;
    block := block + [""];
  }

  /** The lines of one materialised view: its title, its columns and a blank line. */
  method ViewBlockLines(view: string, cols: seq<ColumnMeta>) returns (block: seq<string>)
    ensures block == ["-- Materialised View: " + view] + ViewColumnLines(cols) + [""]
  {
    block := ["-- Materialised View: " + view];
    for j := 0 to |cols|
      invariant block == ["-- Materialised View: " + view] + ViewColumnLines(cols[..j])
    {
      assert cols[..j + 1][..j] == cols[..j];
      block := block + [ViewColumnLine(cols[j])];
    }
    assert cols[..|cols|] == cols;
    block := block + [""];
  }

  lemma TableBlocksStep(meta: SchemaMeta, tables: seq<string>, i: nat)
    requires i < |tables|
    ensures TableBlocks(meta, tables[..i + 1]) == TableBlocks(meta, tables[..i]) + TableBlock(meta, tables[i])
  {
    assert tables[..i + 1][..i] == tables[..i];
  }

  lemma ViewBlocksStep(meta: SchemaMeta, views: seq<string>, i: nat)
    requires i < |views|
    ensures ViewBlocks(meta, views[..i + 1]) == ViewBlocks(meta, views[..i]) + ViewBlock(meta, views[i])
  {
    assert views[..i + 1][..i] == views[..i];
  }

  /** The loop over the tables. */
  method TableSection(meta: SchemaMeta, tableColumns: map<string, seq<ColumnMeta>>,
                      tableFks: map<string, seq<ForeignKeyMeta>>) returns (lines: seq<string>)
    requires forall t :: Lookup(tableColumns, t) == ColumnsOf(meta.columns, t)
    requires forall t :: Lookup(tableFks, t) == ForeignKeysOf(meta.foreignKeys, t)
    ensures lines == TableBlocks(meta, meta.tables)
  {
    lines := [];
    var tables := meta.tables;
    for i := 0 to |tables|
      invariant lines == TableBlocks(meta, tables[..i])
    {
      var block := TableBlockLines(tables[i], Lookup(tableColumns, tables[i]), Lookup(tableFks, tables[i]));
      TableBlocksStep(meta, tables, i);
      lines := lines + block;
    }
    assert tables[..|tables|] == tables;
  }

  /** The loop over the materialised views. */
  method ViewSection(meta: SchemaMeta, tableColumns: map<string, seq<ColumnMeta>>) returns (lines: seq<string>)
    requires forall t :: Lookup(tableColumns, t) == ColumnsOf(meta.columns, t)
    ensures lines == ViewBlocks(meta, meta.materializedViews)
  {
    lines := [];
    var views := meta.materializedViews;
    for i := 0 to |views|
      invariant lines == ViewBlocks(meta, views[..i])
    {
      var block := ViewBlockLines(views[i], Lookup(tableColumns, views[i]));
      ViewBlocksStep(meta, views, i);
      lines := lines + block;
    }
    assert views[..|views|] == views;
  }

  /** The loops of `getSchemaContext` that build the description from the metadata. */
  method BuildSchemaText(meta: SchemaMeta) returns (text: string)
    ensures text == SchemaText(meta)
  {
    var tableColumns := GroupColumns(meta.columns);
    var tableFks := GroupForeignKeys(meta.foreignKeys);
    var tableLines := TableSection(meta, tableColumns, tableFks);
    var viewLines := ViewSection(meta, tableColumns);
    text := Join([SchemaHeader] + tableLines + viewLines, "\n");
  }

  /** The module-level cache of the schema description and how often the metadata was fetched. */
  class SchemaCache {
    var cached: Option<string>
    var fetches: nat

    constructor ()
      ensures cached == None && fetches == 0
    {
      cached := None;
      fetches := 0;
    }

    /** A cached description is used only when it is a non-empty string. */
    predicate Hit()
      reads this
    {
      cached.Some? && cached.value != ""
    }

    /** `getSchemaContext()`: the cached description, or a fresh one from the given metadata. */
    method GetSchemaContext(meta: SchemaMeta) returns (schema: string)
      modifies this
      ensures old(Hit()) ==> schema == old(cached).value && cached == old(cached) && fetches == old(fetches)
      ensures !old(Hit()) ==> schema == SchemaText(meta) && cached == Some(schema) && fetches == old(fetches) + 1
      ensures Hit()
    {
      if cached.Some? && cached.value != "" {
        return cached.value;
      }
      fetches := fetches + 1;
      schema := BuildSchemaText(meta);
      cached := Some(schema);
    }

    /** `clearSchemaCache()`. */
    method ClearSchemaCache()
      modifies this
      ensures cached == None && fetches == old(fetches)
    {
      cached := None;
    }
  }

  // ---------------------------------------------------------------------------
  // processQuestion
  // ---------------------------------------------------------------------------

  /**
   * `processQuestion(request, tenantId, role)` outside mock mode. The completion is `llm`, applied
   * to the schema description and the question; `id` stands for the random message id and
   * `durationMs` for the executor's measured time. The server gates with `rules == AsWritten`;
   * `Corrected` gives the same pipeline behind the repaired gate.
   */
  method ProcessQuestion(db: Client, cache: SchemaCache, meta: SchemaMeta, question: string, tenantId: string,
                         llm: (string, string) -> string, parseJson: string -> Option<AgentResponse>,
                         parseSql: string -> ParseOutcome, rules: Rules, id: string, durationMs: int)
    returns (r: Result<ChatResponse>)
    modifies db, cache
    ensures var schema := if old(cache.Hit()) then old(cache.cached).value else SchemaText(meta);
      var d := Decide(llm(schema, question), parseJson, parseSql, rules, id);
      var sent := Issued(d, old(db.replies), tenantId);
      r == Answer(d, OutcomeOf(old(db.replies)), id, durationMs)
      && db.issued == old(db.issued) + sent
      && db.replies == Drop(old(db.replies), |sent|)
      && db.releases == old(db.releases) + (if d.Run? then 1 else 0)
    ensures cache.Hit() && cache.fetches == old(cache.fetches) + (if old(cache.Hit()) then 0 else 1)
  {
    var schema := cache.GetSchemaContext(meta);
    r := Respond(db, llm(schema, question), parseJson, parseSql, rules, tenantId, id, durationMs);
  }

  /** Everything `processQuestion` does once the model has answered with `text`, gated by `rules`. */
  method Respond(db: Client, text: string, parseJson: string -> Option<AgentResponse>, parseSql: string -> ParseOutcome,
                 rules: Rules, tenantId: string, id: string, durationMs: int)
    returns (r: Result<ChatResponse>)
    modifies db
    ensures var d := Decide(text, parseJson, parseSql, rules, id);
      var sent := Issued(d, old(db.replies), tenantId);
      r == Answer(d, OutcomeOf(old(db.replies)), id, durationMs)
      && db.issued == old(db.issued) + sent
      && db.replies == Drop(old(db.replies), |sent|)
      && db.releases == old(db.releases) + (if d.Run? then 1 else 0)
  {
    ghost var d := Decide(text, parseJson, parseSql, rules, id);
    var parsed := parseJson(StripFences(text));
    if parsed.None? {
      assert d == Unparseable;
      return Err(ParseFailureMessage);
    }
    var a := parsed.value;
    if a.needsClarification {
      assert d == Clarify(ClarificationResponse(id, a));
      return Ok(ClarificationResponse(id, a));
    }
    var v := ValidateSql(a.sql, parseSql, rules);
    if !v.valid {
      assert d == Rejected(ValidationFailureMessage(v.errors));
      return Err(ValidationFailureMessage(v.errors));
    }
    var sqlToExecute := if v.sanitisedSql.Some? && v.sanitisedSql.value != "" then v.sanitisedSql.value else a.sql;
    assert d == Run(a, v, sqlToExecute);
    r := RunQuery(db, a, v, sqlToExecute, tenantId, id, durationMs);
  }

  /** Runs the accepted statement and builds the response from its rows. */
  method RunQuery(db: Client, a: AgentResponse, v: Verdict, sqlToExecute: string, tenantId: string, id: string,
                  durationMs: int)
    returns (r: Result<ChatResponse>)
    modifies db
    ensures var sent := Transcript(old(db.replies), tenantId, sqlToExecute, [], DefaultTimeoutMs);
      r == Answer(Run(a, v, sqlToExecute), OutcomeOf(old(db.replies)), id, durationMs)
      && db.issued == old(db.issued) + sent
      && db.replies == Drop(old(db.replies), |sent|)
      && db.releases == old(db.releases) + 1
  {
    var out := ExecuteWithTenant(db, tenantId, sqlToExecute, [], DefaultTimeoutMs);
    if out.Threw? {
      return Err(out.error);
    }
    var narrative := GenerateNarrative(out.rows, out.rowCount, a.explanation);
    r := Ok(ChatResponse(id, a.queryPlan, a.sql, out.rows, narrative, a.explanation,
                         Metadata(v.tablesReferenced.GetOr([]), out.rowCount, durationMs, false),
                         a.followUpSuggestions.GetOr([]), None));
  }
}
