# ALXnderia NL2SQL gate and ingestion, modelled in Dafny

ALXnderia answers natural-language questions about identity and access data gathered from
GitHub, Google Cloud and AWS IAM Identity Center. A language model writes a SQL query plan. A
SQL safety gate decides whether that string may run at all. The accepted query then runs inside
a transaction scoped to one tenant. Python providers fill the store from the cloud APIs in
batches. The batches are tracked in sync-run rows and are scheduled with retries.

This project models that core and proves properties of it.

- **Allow/block registry** (`registry.dfy`): the allowed tables, the blocked functions, the
  blocked catalogue prefixes, the blocked keywords and the row and time limits.
- **SQL gate**: comment stripping and the keyword screen on the text (`sql_text.dfy`); the
  parsed statement tree and how tables, CTE names and function calls are collected from it
  (`sql_ast.dfy`); and the validator with its stages, error messages and row-limit wrapping
  (`sql_validator.dfy`). The gate takes its rules as a parameter: `Rules.AsWritten` is the gate
  the server runs, and `Rules.Corrected` repairs the two gate findings below.
  - `sql_gate_properties.dfy` proves that a statement accepted under either rules is one
    `SELECT` that either carries its own top-level LIMIT clause, of any value (`LIMIT ALL`
    included), or runs inside the 500-row wrapper. It also proves that the tables and calls the
    gate reports for it are allowed.
    Only for the corrected gate does it prove that every relation the statement reads is allowed
    and that no call of a blocked function, qualified or not, is accepted.
  - `sql_gate_examples.dfy` proves those facts for the repository's own test cases, and shows
    one statement for each finding that the server's gate accepts and the corrected gate refuses.
- **Tenant executor** (`tenant_executor.dfy`): the exact command protocol sent to a pooled
  client, which is `BEGIN`, two `set_config` calls, the query and `COMMIT`, or `ROLLBACK` at
  the first failure. It covers the tenant-id sanitising and the single release of the client.
  `query_builder.dfy` models the parameter builder, the search filter and the paginated count
  and data queries.
- **Agent and HTTP route**: how a model reply becomes a clarification, a rejection or a run of
  the gated query, plus the narrative summary and the schema text (`nl2sql_agent.dfy`). The
  `/api/chat` request checks are in `chat_route.dfy`. The agent and the route take the gate's
  rules too; the server's route is the `AsWritten` instance. Provider selection from the
  environment is in `llm_factory.dfy`.
- **Client helpers**: sorting, paging, column choice and cell formatting of the results table
  (`results_table.dfy`), and the person page's account-access rows (`buildAccountAccessRows`) and
  badge colours (`person_detail.dfy`).
- **Ingestion**
  - `base_provider.py`: batching, the rate-limit delay formula and the sync-run bookkeeping
    (`base_provider.dfy`). The retry loop itself is the scheduler's.
  - `db.py`: the upsert statement text, the tracked runs and their state changes
    (`ingestion_db.dfy`).
  - Configuration from the environment (`ingestion_config.dfy`) and secret references
    (`secrets.dfy`).
  - The command line (`cli.dfy`) and the scheduler's jobs and retries (`scheduler.dfy`).
  - The three providers' pure record mappings and their pagination: `github_org.dfy`,
    `gcp_resource_manager.dfy` and `aws_identity_center.dfy`.
- **Shared modules**: `base.dfy` holds insertion-ordered sets, batching windows and
  `Option`/`Result`. `text.dfy` holds ASCII case mapping, trimming, splitting and decimal
  rendering. `values.dfy` holds JSON-like values and `rows.dfy` holds record-to-row mapping.

Everything the code reaches outside itself is a parameter of the model:

- the SQL parser (`libpg-query`), written `string -> ParseOutcome`;
- JSON decoding of the model's reply;
- the database client, modelled as a sequence of replies, one per command sent;
- the clock and `randomUUID`, passed in as values;
- the environment, as a map from variable names to values;
- the HTTP replies of the cloud APIs, as sequences of replies.

The JavaScript `Set` and the Python dict used as an ordered set are both modelled as
duplicate-free sequences in insertion order.

The model follows these details of the code:

- The row-limit wrapper is `SELECT * FROM (<sql>) AS _inner LIMIT <MAX_ROWS>`. It goes around
  the comment-stripped text and is not built from the parse tree
  (app/src/server/validators/sql-validator.ts:275-279).
- The top-level CTE names are removed from the referenced tables everywhere in the statement,
  including inside a CTE's own body (app/src/server/validators/sql-validator.ts:226-242). A real
  table can therefore hide behind a CTE of the same name (see Findings).
- A blocked function is matched only by its whole, possibly schema-qualified, lower-cased name
  (app/src/server/validators/sql-validator.ts:258-263; see Findings).
- The tenant id keeps only the characters `a-f`, `0-9` and `-`, so upper-case hexadecimal digits
  are removed as well (app/src/server/db/pool.ts:55).
- When `ROLLBACK` itself fails, its error is thrown in place of the original one
  (app/src/server/db/pool.ts:66-68). The client is still released exactly once
  (app/src/server/db/pool.ts:70).

## Model

| member | source | states |
|---|---|---|
| Registry.PiiTablesAllowed | app/src/shared/constants/index.ts:13-66 | every PII table and every redacted view is on the table allow-list, and every PII table except `aws_iam_user` has a redacted view |
| Registry.SynonymsWellFormed | app/src/shared/constants/index.ts:123-140 | every synonym key is an allowed table whose synonym list is non-empty and has no entry that trims to nothing |
| Registry.SynonymKeysAllowed | app/src/shared/constants/index.ts:123-140 | every synonym key is on the allow-list and has at least one synonym |
| Registry.SynonymsStartWithLetter | app/src/shared/constants/index.ts:123-140 | every synonym is non-empty and starts with a lower-case letter |
| Registry.SystemTablesNotAllowed | app/src/shared/constants/index.ts:13-88 | a name with a blocked catalogue prefix (`pg_`, `information_schema.`, `pg_catalog.`) is never on the allow-list, so it fails both table checks |
| Registry.BlockedInitials | app/src/shared/constants/index.ts:86-88 | a name with a blocked prefix starts with `i` or with `pg` |
| Registry.NoBlockedPrefix | app/src/shared/constants/index.ts:86-88 | a name starting with neither `i` nor `pg` has no blocked prefix |
| Registry.AllowedInitials | app/src/shared/constants/index.ts:13-44 | no allowed table starts with `i`, and those starting with `p` continue with `e` |
| Registry.BlockedFunctionsUnqualified | app/src/shared/constants/index.ts:73-83 | no blocked function name contains a dot |
| Registry.LimitsInRange | app/src/shared/constants/index.ts:103-112 | `MAX_ROWS` is in (0, 10000], `QUERY_TIMEOUT_MS` in [1000, 60000], and the question length and rate limits are positive |
| Registry.BlockListsCoverDangerousOperations | app/src/shared/constants/index.ts:73-96 | the function block-list holds pg_sleep, pg_read_file, pg_read_binary_file, pg_ls_dir, dblink, lo_import, lo_export, pg_terminate_backend, pg_cancel_backend and set_config; the keyword list holds GRANT, REVOKE, SET, RESET, VACUUM, ANALYZE and REINDEX |
| SqlText.FromNewline | app/src/server/validators/sql-validator.ts:51 | the part of the text a `--[^\n]*` match leaves after the comment: the suffix from the first newline (kept), with no newline before it |
| SqlText.StripLineLeavesNoDashes | app/src/server/validators/sql-validator.ts:51 | after the line-comment pass no `--` is left anywhere in the text |
| SqlText.StripLineFixesDashFree | app/src/server/validators/sql-validator.ts:51 | text without a dash is left unchanged by the line-comment pass |
| SqlText.StripLineComment | app/src/server/validators/sql-validator.ts:51 | a `--` comment running to the next newline is deleted and the newline kept, with comment-free text before it kept as it is |
| SqlText.StripBlockAtOpener | app/src/server/validators/sql-validator.ts:53 | a block comment at the start is deleted up to its first closer (non-greedy) |
| SqlText.StripBlockKeepsPrefix | app/src/server/validators/sql-validator.ts:53 | text containing no `/*`, in front of an opener, is kept unchanged |
| SqlText.StripBlockComment | app/src/server/validators/sql-validator.ts:53 | `a /* b */ c`, with no opener in `a` and no closer in `b`, strips to `a` followed by the stripped `c` |
| SqlText.TrailingSemicolonFrom | app/src/server/validators/sql-validator.ts:80 | the leftmost position where `;\s*$` matches: a semicolon followed only by white space, and none earlier |
| SqlText.CheckBlockedKeywords | app/src/server/validators/sql-validator.ts:66-86 | the loop over the keyword list returns exactly the keyword errors followed by the multiple-statement error, as `KeywordErrors` defines them |
| SqlText.StripComments | app/src/server/validators/sql-validator.ts:49-55 | line comments, then block comments, then surrounding white space are removed: a non-empty result neither starts nor ends with white space |
| SqlText.KeywordErrors | app/src/server/validators/sql-validator.ts:66-86 | the screen's errors in reporting order; the multiple-statement error is among them exactly when there is a second statement |
| SqlText.KeywordHitsNotSemicolon | app/src/server/validators/sql-validator.ts:70-83 | a keyword message is never the multiple-statement message |
| SqlText.KeywordMessageInjective | app/src/server/validators/sql-validator.ts:75 | two keyword messages are equal only for the same keyword |
| SqlText.KeywordHitsIff | app/src/server/validators/sql-validator.ts:70-77 | a keyword's message is reported iff the keyword is in the list and occurs as a whole word; at most one message per keyword |
| SqlText.KeywordHitsEmpty | app/src/server/validators/sql-validator.ts:70-77 | no keyword message iff no listed keyword occurs as a whole word |
| SqlText.KeywordErrorsEmptyIff | app/src/server/validators/sql-validator.ts:66-86 | the screen passes iff no blocked keyword occurs as a whole word in the upper-cased text and there is no second statement |
| SqlText.MultipleStatementsIff | app/src/server/validators/sql-validator.ts:79-83 | the multiple-statement error is raised iff some semicolon is followed later by a non-space character |
| SqlText.TrailingSemicolonAccepted | app/tests/server/sql-validator.test.ts:153-163 | a statement with no semicolon of its own, one trailing semicolon and trailing white space passes the semicolon test |
| SqlText.SecondStatementRejected | app/tests/server/sql-validator.test.ts:153-163 | text after a semicolon that is not only white space is a second statement |
| SqlText.WholeWordExamples | app/src/server/validators/sql-validator.ts:71-74 | `SET` is not a whole word of `OFFSET` or `SET_CONFIG`, but is one of `UPDATE PERSON SET X` |
| SqlAst.TableRefsIff | app/src/server/validators/sql-validator.ts:95-120 | the collected names are exactly the lower-cased `schema.rel` names of the table references, anywhere in the subtree, that the scope does not bind |
| SqlAst.TableRefsFromIff | app/src/server/validators/sql-validator.ts:110-119 | the names collected from the kids from position `i` on are the names of the references in those kids' subtrees |
| SqlAst.RelationRefsAntitone | app/src/server/validators/sql-validator.ts:226-242 | more CTE names in scope can only hide references to stored relations |
| SqlAst.RelationRefsCollected | app/src/server/validators/sql-validator.ts:95-120 | every reference that resolves to a stored relation is among the names the walk collects with the same outer scope |
| SqlAst.FuncRefsIff | app/src/server/validators/sql-validator.ts:125-156 | the collected function names are exactly the non-empty dot-joined, lower-cased names of the calls anywhere in the subtree |
| SqlAst.FuncRefsFromIff | app/src/server/validators/sql-validator.ts:147-155 | the names collected from the kids from position `i` on are those of the calls in those kids' subtrees |
| SqlValidator.InsertAllContents | app/src/server/validators/sql-validator.ts:107 | adding to a JavaScript `Set`: the set holds exactly the old and the new elements, each once, old ones first in their old order |
| SqlValidator.DedupContents | app/src/server/validators/sql-validator.ts:242 | `Array.from(set)` holds exactly the inserted elements, without duplicates |
| SqlValidator.Without | app/src/server/validators/sql-validator.ts:242 | `filter(t => !cteNames.has(t))` keeps exactly the names that are not CTE names |
| SqlValidator.OrderedSet.Add | app/src/server/validators/sql-validator.ts:107 | `Set.add` on the set object: the item list becomes the old list with the element inserted, still without duplicates |
| SqlValidator.ExtractTableRefs | app/src/server/validators/sql-validator.ts:95-120 | the recursive walk adds to the caller's set, in traversal order, the name of every table reference of the subtree not bound by the scope |
| SqlValidator.ExtractStatementTables | app/src/server/validators/sql-validator.ts:222-242 | step 5's collection under either rules, equal to `TablesReferenced`: as written (the server), every table reference of the tree with the top-level CTE names filtered out afterwards; corrected, each kid of the root given the CTE names PostgreSQL has in scope there |
| SqlValidator.ExtractFunctionCalls | app/src/server/validators/sql-validator.ts:125-156 | the recursive walk adds to the caller's set, in traversal order, the name of every call with a non-empty name |
| SqlValidator.CheckTables | app/src/server/validators/sql-validator.ts:243-252 | the loop over the tables appends, table by table, the system-table error then the allow-list error, as `TableErrors` defines them |
| SqlValidator.CheckFunctions | app/src/server/validators/sql-validator.ts:258-263 | the loop over the functions appends one error per blocked function, as `FunctionErrors` defines them: looked up by the whole dotted name as written (the server), by its unqualified part when corrected |
| SqlValidator.ValidateStatement | app/src/server/validators/sql-validator.ts:222-288 | steps 5 to 7 computed step by step, under either rules, equal the statement-level verdict `AstVerdict` for the same rules |
| SqlValidator.ValidateSql | app/src/server/validators/sql-validator.ts:178-289 | the gate computed step by step, under either rules, equals the verdict `Validate` defines; the server runs it with `AsWritten` |
| SqlValidator.TablesReferenced | app/src/server/validators/sql-validator.ts:222-242 | `tablesReferenced` lists each name once, under either rules |
| SqlValidator.WithoutNoDup | app/src/server/validators/sql-validator.ts:242 | filtering out the CTE names keeps the list duplicate-free |
| SqlValidator.HasLimitClause | app/src/server/validators/sql-validator.ts:161-165 | only a `SelectStmt` has a LIMIT clause |
| SqlValidator.LimitWrapped | app/src/server/validators/sql-validator.ts:276-279 | the wrapper contains the statement and is longer than it |
| SqlValidator.ExtractScopedTables | app/src/server/validators/sql-validator.ts:222-224 | the corrected collection adds the name of every table reference that the CTE names in scope where it stands do not bind |
| SqlValidator.CollectCteNames | app/src/server/validators/sql-validator.ts:226-240 | the loop over the WITH list collects exactly the lower-cased names of the top-level CTEs |
| SqlValidator.Validate | app/src/server/validators/sql-validator.ts:178-289 | `validateSql` under either rules: a verdict is valid iff its error list is empty, iff it carries SQL to run, and a valid verdict is for a `SelectStmt` |
| SqlValidator.ParsedVerdict | app/src/server/validators/sql-validator.ts:193-220 | the verdict once the parser has answered, under either rules: valid iff no errors, iff SQL to run, and only for a `SelectStmt` |
| SqlValidator.AstVerdict | app/src/server/validators/sql-validator.ts:222-288 | steps 5 to 7 on one parsed statement, under either rules: valid iff no errors, iff SQL to run; the statement type is always the root's kind |
| SqlGateProperties.PreScreenIgnoresParser | app/src/server/validators/sql-validator.ts:182-191 | an empty stripped text or a failed keyword screen rejects before parsing: the verdict does not depend on the parser, and its errors are exactly the empty message or the screen's errors |
| SqlGateProperties.SingleErrorRejections | app/src/server/validators/sql-validator.ts:195-220 | a parse error, no statement, several statements or a non-SELECT each reject with exactly one error and no statement details; for one statement the error names its kind |
| SqlGateProperties.MessagesDistinct | app/src/server/validators/sql-validator.ts:246-261 | system-table, not-allowed and function messages never coincide, and each determines the name it reports |
| SqlGateProperties.TableErrorsIff | app/src/server/validators/sql-validator.ts:243-252 | a message is among the table errors iff it is the system-table message of a listed table with a blocked prefix or the not-allowed message of a listed table off the allow-list |
| SqlGateProperties.FunctionErrorsIff | app/src/server/validators/sql-validator.ts:259-263 | a message is among the function errors iff it is the message of a listed blocked function |
| SqlGateProperties.AstErrorsIff | app/src/server/validators/sql-validator.ts:243-273 | every violation is reported and every report is a violation: both table errors and the function error, each in both directions, accumulated in one verdict |
| SqlGateProperties.SystemErrorIff | app/src/server/validators/sql-validator.ts:245-246 | the system-table message of `t` is among the errors iff `t` is a referenced table with a blocked prefix |
| SqlGateProperties.NotAllowedErrorIff | app/src/server/validators/sql-validator.ts:249-250 | the not-allowed message of `t` is among the errors iff `t` is a referenced table off the allow-list |
| SqlGateProperties.FunctionErrorIff | app/src/server/validators/sql-validator.ts:260-261 | the function message of `f` is among the errors iff `f` is a used function that is blocked |
| SqlGateProperties.TableErrorsEmpty | app/src/server/validators/sql-validator.ts:243-252 | no table errors means every listed table is allowed and has no blocked prefix |
| SqlGateProperties.FunctionErrorsEmpty | app/src/server/validators/sql-validator.ts:259-263 | no function errors means no listed function is blocked |
| SqlGateProperties.RelationRefsReported | app/src/server/validators/sql-validator.ts:222-242 | every reference PostgreSQL resolves to a stored relation is in the corrected `tablesReferenced` |
| SqlGateProperties.LimitWrappedBound | app/src/server/validators/sql-validator.ts:276-279 | the wrapper is `SELECT * FROM (<sql>) AS _inner LIMIT 500` and so contains `LIMIT 500` |
| SqlGateProperties.ValidMeansSafe | app/src/server/validators/sql-validator.ts:178-289 | a valid verdict (corrected rules) means: the text passed the screen, it parsed to one SELECT, every relation it reads is allowed and outside the catalogues, no call's unqualified name is blocked, and the SQL to run is the stripped text or its bounded wrapper |
| SqlGateProperties.ValidIsAstVerdict | app/src/server/validators/sql-validator.ts:204-288 | a valid verdict is the statement-level verdict on the single parsed statement, which is a SELECT |
| SqlGateProperties.AstValidTablesSafe | app/src/server/validators/sql-validator.ts:242-252 | a statement the corrected checks accept reads only allowed relations outside the system catalogues |
| SqlGateProperties.AstValidCallsSafe | app/src/server/validators/sql-validator.ts:254-263 | a statement the corrected checks accept calls no function whose unqualified name is blocked |
| SqlGateProperties.AstValidReportedSafe | app/src/server/validators/sql-validator.ts:243-273 | under either rules, an accepted statement reports only allowed tables outside the system catalogues, and none of its calls is refused by those rules |
| SqlGateProperties.AsWrittenSkipsCteNames | app/src/server/validators/sql-validator.ts:226-242 | the repository's `tablesReferenced` never contains a lower-cased top-level CTE name |
| SqlGateProperties.KidScopeWithinCteNames | app/src/server/validators/sql-validator.ts:226-240 | the names in scope anywhere below the root are among the root's CTE names |
| SqlGateProperties.AsWrittenTablesWithinCorrected | app/src/server/validators/sql-validator.ts:242 | the corrected table list contains every name of the repository's list |
| SqlGateProperties.LastSegmentQualified | app/src/server/validators/sql-validator.ts:136-142 | the unqualified name of `schema.name` (name without dots) is `name` |
| SqlValidator.BlockedNameUnqualified | app/src/shared/constants/index.ts:73-83 | a blocked name contains no dot, so it is its own unqualified name |
| SqlGateProperties.AstCorrectedIsStricter | app/src/server/validators/sql-validator.ts:222-288 | a statement the corrected checks accept is accepted as written too, with the same SQL to run |
| SqlGateProperties.ValidateReachesAst | app/src/server/validators/sql-validator.ts:204-222 | once the screen passes and one SELECT parses, the statement-level checks decide the verdict |
| SqlGateProperties.ValidPassedEarlyStages | app/src/server/validators/sql-validator.ts:182-220 | only a non-empty text that passed the screen and parsed to exactly one SELECT can be valid |
| SqlGateProperties.CorrectedIsStricter | app/src/server/validators/sql-validator.ts:178-289 | whatever the corrected gate accepts, the repository's gate accepts too, with the same SQL to run |
| SqlGateExamples.ShadowingChecks | app/src/server/validators/sql-validator.ts:226-242 | for `WITH c AS (SELECT FROM c) SELECT FROM c` the repository drops both references, although PostgreSQL reads the stored `c` in the CTE's body; the corrected list keeps it |
| SqlGateExamples.ShadowingAsWritten | app/src/server/validators/sql-validator.ts:242 | the repository's `tablesReferenced` for that statement is empty |
| SqlGateExamples.ShadowingRootRefs | app/src/server/validators/sql-validator.ts:222-242 | with PostgreSQL's scoping only the reference in the CTE body is collected |
| SqlGateExamples.ShadowingReadsRelation | app/src/server/validators/sql-validator.ts:226-242 | the reference inside the CTE body resolves to the stored relation |
| SqlGateExamples.ShadowedCatalogueAccepted | app/src/server/validators/sql-validator.ts:226-273 | `WITH pg_user AS (SELECT FROM pg_user) SELECT FROM pg_user LIMIT 5` reads the catalogue view `pg_user` and is accepted with no tables reported; the corrected checks reject it with both table errors |
| SqlGateExamples.ShadowedVerdicts | app/src/server/validators/sql-validator.ts:226-273 | the same for any name `c`: accepted as written, rejected with the table errors of `c` once corrected |
| SqlGateExamples.ShadowedCatalogueGate | app/src/server/validators/sql-validator.ts:178-289 | through the whole gate: accepted as written, rejected when corrected, whenever the screen passes and the text parses to that tree |
| SqlGateExamples.QualifiedCallRefs | app/src/server/validators/sql-validator.ts:132-145 | a call of `schema.name` is collected as the lower-cased dotted name and reads no table |
| SqlGateExamples.QualifiedBlockedCallAccepted | app/src/server/validators/sql-validator.ts:258-263 | `SELECT pg_catalog.set_config('role', 'x', false) LIMIT 1` is accepted as written because the whole dotted name is looked up; the corrected check rejects it |
| SqlGateExamples.QualifiedNameErrors | app/src/server/validators/sql-validator.ts:258-263 | the dotted name `pg_catalog.set_config` gives no function error as written and one when corrected |
| SqlGateExamples.QualifiedBlockedCallGate | app/src/server/validators/sql-validator.ts:178-289 | through the whole gate: accepted as written, rejected when corrected |
| SqlGateExamples.AstVerdictErrors | app/src/server/validators/sql-validator.ts:243-273 | the statement-level errors are the table errors followed by the function errors, and the verdict is valid iff there are none |
| SqlGateExamples.CteJoinTables | app/tests/server/sql-validator.test.ts:39-50 | for a CTE joined with a table, both rules report the two base tables in traversal order, without the CTE name |
| SqlGateExamples.AdminsCteAccepted | app/tests/server/sql-validator.test.ts:39-50 | the `admins` CTE test statement is accepted under both rules, reporting `person` and `mv_effective_access`, with its LIMIT kept |
| SqlGateExamples.SingleTableRefs | app/src/server/validators/sql-validator.ts:102-107 | `SELECT FROM schema.rel` reports exactly that table and no function |
| SqlGateExamples.LimitAddedWhenAbsent | app/tests/server/sql-validator.test.ts:54-58 | `SELECT * FROM person` is accepted and wrapped in an outer query limited to 500 rows |
| SqlGateExamples.LimitKeptWhenPresent | app/tests/server/sql-validator.test.ts:60-64 | `SELECT * FROM person LIMIT 10` is accepted and left as written |
| SqlGateExamples.OwnLimitKept | app/src/server/validators/sql-validator.ts:161-165 | a statement with its own LIMIT constant, whatever its value and `LIMIT ALL` included, is accepted and run as written, without the 500-row wrapper |
| SqlGateExamples.SingleTableBlocked | app/src/server/validators/sql-validator.ts:243-247 | a single table with a blocked prefix is rejected with its system-table error |
| SqlGateExamples.CatalogueRejected | app/tests/server/sql-validator.test.ts:111-115 | `SELECT * FROM pg_catalog.pg_tables LIMIT 10` is rejected with an error naming `pg_catalog` |
| SqlGateExamples.SystemMessageNamesSchema | app/src/server/validators/sql-validator.ts:246 | the system-table message names the schema of the table |
| SqlGateProperties.TableErrorsSubset | app/src/server/validators/sql-validator.ts:243-252 | a table list contained in one with no table errors has none either |
| SqlValidator.IsBlockedFunction | app/src/server/validators/sql-validator.ts:258-263 | a listed name is refused under either rules, so whatever the server's lookup refuses the corrected one refuses too; the server's lookup never refuses a dotted name |
| SqlGateProperties.FunctionErrorsWeaker | app/src/server/validators/sql-validator.ts:258-263 | function names that pass the corrected check pass the repository's check |
| SqlValidator.OrderedSet.constructor | app/src/server/validators/sql-validator.ts:230 | `new Set<string>()` starts with no items |
| SqlGateExamples.ShadowingTables | app/src/server/validators/sql-validator.ts:95-120 | the walk over `WITH c AS (SELECT FROM c) SELECT FROM c` collects `c` twice and the statement's CTE names are `{c}` |
| TenantExecutor.SanitizeTenantId | app/src/server/db/pool.ts:55 | the sanitised tenant id holds only characters of `[a-f0-9-]` and is no longer than the input |
| TenantExecutor.SanitizeAppend | app/src/server/db/pool.ts:55 | the global replace works character by character: sanitising a concatenation concatenates the sanitised parts |
| TenantExecutor.SanitizeCounts | app/src/server/db/pool.ts:55 | exactly the permitted characters survive, each as often as it occurred: the input with every other character deleted |
| TenantExecutor.SanitizeFixedIff | app/src/server/db/pool.ts:55 | the filter leaves a string unchanged iff every character of it is permitted |
| TenantExecutor.SanitizeIdempotent | app/src/server/db/pool.ts:55 | sanitising twice is sanitising once |
| TenantExecutor.Protocol | app/src/server/db/pool.ts:53-59 | a transaction that goes through sends five commands |
| TenantExecutor.FirstFailure | app/src/server/db/pool.ts:52-68 | the position of the first error answer among the first `n`, every earlier one answered; `n` when none failed |
| TenantExecutor.Transcript | app/src/server/db/pool.ts:52-68 | the client always receives BEGIN first and the transaction is always closed: by COMMIT exactly when all five commands were answered, otherwise by ROLLBACK |
| TenantExecutor.OutcomeOf | app/src/server/db/pool.ts:52-68 | the transaction returns exactly when all five commands are answered, and throws otherwise |
| TenantExecutor.Client.constructor | app/src/server/db/pool.ts:49 | a connected client has issued nothing and released nothing, and its answers are the server's |
| TenantExecutor.Client.Query | app/src/server/db/pool.ts:53-59 | `client.query` appends the command to the trace and takes the server's next answer, an exhausted server answering with an error |
| TenantExecutor.Client.Release | app/src/server/db/pool.ts:70 | `client.release()` counts one release and changes nothing else |
| TenantExecutor.Step | app/src/server/db/pool.ts:53-59 | sending the `n`-th command appends it and consumes the `n`-th answer |
| TenantExecutor.ExecuteWithTenant | app/src/server/db/pool.ts:43-72 | the client receives exactly `Transcript` (the protocol up to the first failure, then ROLLBACK), is released exactly once, and the outcome is `OutcomeOf` the server's answers |
| TenantExecutor.ReadOnly | app/src/server/db/pool.ts:84-90 | `executeReadOnly` returns the rows and the row count, null read as 0, or rethrows the pool's error |
| TenantExecutor.TranscriptCases | app/src/server/db/pool.ts:52-68 | the transaction returns iff the server answers all five commands, and then the client receives exactly BEGIN, the timeout, the tenant id, the query and COMMIT; it throws iff some command fails, and then receives the protocol up to that command followed by ROLLBACK |
| TenantExecutor.FailureRollsBack | app/src/server/db/pool.ts:66-68 | a failed transaction ends with ROLLBACK right after the failing command, sends nothing after it, and throws the ROLLBACK's own error if that fails, otherwise the original |
| TenantExecutor.OnlyFixedTexts | app/src/server/db/pool.ts:53-59 | only the fixed texts and the caller's query are sent as statements; the timeout and the sanitised tenant id travel as bind parameters of `SELECT set_config($1, $2, true)` |
| TenantExecutor.SameRowCountRule | app/src/server/db/pool.ts:61-65 | on success the tenant executor reads the query's answer exactly as `executeReadOnly` does, a null row count becoming 0 |
| TenantExecutor.TimeoutSettings | app/src/server/db/pool.ts:47-54 | the timeout setting is the number followed by `ms`, and the default timeout is `QUERY_TIMEOUT_MS` |
| TenantExecutor.UuidUnchanged | app/tests/server/db-pool.test.ts:93-112 | the lower-case hyphenated UUIDs used as tenant ids pass the filter unchanged |
| TenantExecutor.InjectionFiltered | app/tests/server/db-pool.test.ts:93-112 | the injection attempt of the tests loses every quote, semicolon, space and capital letter and becomes `e--` |
| TenantExecutor.BeginFails | app/tests/server/db-pool.test.ts:75-91 | a failing BEGIN: the client receives BEGIN then ROLLBACK and the error is rethrown |
| QueryBuilder.PlaceholderInjective | app/src/server/lib/query-builder.ts:15 | distinct indices give distinct `$k` placeholders |
| QueryBuilder.ParamBuilder.constructor | app/src/server/lib/query-builder.ts:9-10 | a new builder has no parameters and next index 1 |
| QueryBuilder.ParamBuilder.Add | app/src/server/lib/query-builder.ts:13-16 | `add(v)` appends `v` and returns `$k` with `k` the new parameter count, keeping `nextIndex == params.length + 1` |
| QueryBuilder.ParamBuilder.NextIndex | app/src/server/lib/query-builder.ts:19-21 | `nextIndex` is one more than the number of parameters |
| QueryBuilder.AddAll | app/src/server/lib/query-builder.ts:13-16 | successive `add` calls number their values `$1, $2, ...` after those already present, in insertion order |
| QueryBuilder.Conditions | app/src/server/lib/query-builder.ts:36 | one `c ILIKE $k` per column, in column order, all with the same placeholder |
| QueryBuilder.BuildSearchFilter | app/src/server/lib/query-builder.ts:28-38 | a missing or empty search adds no parameter and returns ``; otherwise exactly one parameter `%search%` is added and every column is compared with its placeholder, joined by ` OR ` inside the prefix's brackets |
| QueryBuilder.SingleColumnFilter | app/src/server/lib/query-builder.ts:36-37 | a filter over one column is that column's comparison in brackets after the prefix |
| QueryBuilder.FilterExtends | app/src/server/lib/query-builder.ts:36-37 | one more column appends ` OR c ILIKE $k` inside the brackets |
| QueryBuilder.ParsePagination | app/src/server/lib/query-builder.ts:53-58 | page at least 1 (default 1), limit clamped to [1, 100] (default 50), offset `(page - 1) * limit`, never negative |
| QueryBuilder.ParsePaginationIdempotent | app/src/server/lib/query-builder.ts:53-58 | reading back the page and limit it produced gives the same result |
| QueryBuilder.CeilDiv | app/src/server/lib/query-builder.ts:89 | `Math.ceil(a / b)` for a non-zero divisor: the least `q` with `a <= q * b` for a positive `b` |
| QueryBuilder.LeadingDigits | app/src/server/lib/query-builder.ts:82 | the longest prefix of decimal digits |
| QueryBuilder.ParseIntJs | app/src/server/lib/query-builder.ts:55-56 | `parseInt` gives a number only when the text has a digit |
| QueryBuilder.ParseIntRoundTrip | app/src/server/lib/query-builder.ts:55-56 | `parseInt` reads back every rendered natural number |
| QueryBuilder.DataParams | app/src/server/lib/query-builder.ts:83 | the data query's parameters are the count query's followed by the limit and the offset |
| QueryBuilder.ExecutePaginatedQuery | app/src/server/lib/query-builder.ts:72-91 | the count query runs first, tenant-scoped; its failure is returned and sends nothing more; otherwise the data query runs with the extended parameters and the envelope carries its rows, the parsed total, the page, the limit and the page count |
| QueryBuilder.TotalPagesCover | app/src/server/lib/query-builder.ts:53-58 | with a parsed page size the page count is the exact ceiling of total over limit, so the pages cover the total |
| QueryBuilder.TotalOfRendered | app/src/server/lib/query-builder.ts:82 | a count row whose `total` is a rendered natural gives that number as the total |
| QueryBuilder.TotalOf | app/src/server/lib/query-builder.ts:82 | a missing row, or a missing or null total, counts as 0; there is no count only for a total that is present and truthy but not a number |
| Nl2SqlAgent.DropOpeningFence | app/src/server/agents/nl2sql-agent.ts:314 | removing an opening fence leaves a suffix of the text |
| Nl2SqlAgent.DropClosingFence | app/src/server/agents/nl2sql-agent.ts:315 | removing a closing fence leaves a prefix of the text |
| Nl2SqlAgent.FencedRoundTrip | app/src/server/agents/nl2sql-agent.ts:311-316 | a fenced block, tagged `json` or not, gives back exactly the text between the fences |
| Nl2SqlAgent.OpeningFenceDropped | app/src/server/agents/nl2sql-agent.ts:312-314 | an opening fence with or without the `json` tag and its newline is recognised and removed, leaving the rest |
| Nl2SqlAgent.ClosingFenceDropped | app/src/server/agents/nl2sql-agent.ts:315 | a closing fence at the very end is removed with the newline before it |
| Nl2SqlAgent.PlainJsonKept | app/src/server/agents/nl2sql-agent.ts:311-316 | trimmed JSON text in braces is left as it is |
| Nl2SqlAgent.StripFences | app/src/server/agents/nl2sql-agent.ts:311-316 | the text is trimmed and its fences removed, with nothing added: the result is never longer than the trimmed text |
| Nl2SqlAgent.Decide | app/src/server/agents/nl2sql-agent.ts:310-368 | for either gate, a run is of decoded SQL that needs no clarification and that the gate accepts, carrying the gate's verdict; a rejection is of decoded SQL the gate refuses |
| Nl2SqlAgent.OrDefault | app/src/server/agents/nl2sql-agent.ts:337-349 | `s \|\| fallback`: the fallback, or the value when it is present and not empty |
| Nl2SqlAgent.UnparseableFails | app/src/server/agents/nl2sql-agent.ts:318-323 | text that does not decode as JSON is the parse error, and nothing is sent to the database |
| Nl2SqlAgent.ClarificationShortCircuits | app/src/server/agents/nl2sql-agent.ts:326-352 | a clarification request returns no SQL, no rows and row count 0, does not depend on the SQL parser (the gate is not consulted) and sends nothing to the database |
| Nl2SqlAgent.RejectedNeverRuns | app/src/server/agents/nl2sql-agent.ts:354-360 | for either gate (the server's is `AsWritten`), SQL the gate refuses is never run, and the error says `validation` and names every one of the gate's errors |
| Nl2SqlAgent.ValidationMessageListsErrors | app/src/server/agents/nl2sql-agent.ts:357-359 | the validation message contains every error and the word `validation` |
| Nl2SqlAgent.RunIsRewritten | app/src/server/agents/nl2sql-agent.ts:354-368 | for either gate, what runs has passed it: the single statement parsed from the stripped text, kept when it has a LIMIT and wrapped otherwise |
| Nl2SqlAgent.RunReadsAllowedTables | app/src/server/agents/nl2sql-agent.ts:354-368 | for either gate, the tables the gate reports for the statement that runs are allowed and outside the system catalogues, and none of its calls is refused; with the corrected gate that covers every relation the statement reads, with the server's gate it need not |
| Nl2SqlAgent.DecideRunsRewritten | app/src/server/agents/nl2sql-agent.ts:362-368 | for either gate, decoded SQL whose verdict is the statement's own runs as that statement's rewrite |
| Nl2SqlAgent.DecideRuns | app/src/server/agents/nl2sql-agent.ts:362 | for either gate, accepted SQL runs as the gate's non-empty rewrite, so the `\|\| agentResponse.sql` fallback never applies |
| Nl2SqlAgent.SanitisedNotEmpty | app/src/server/agents/nl2sql-agent.ts:362 | the rewrite is never empty |
| Nl2SqlAgent.RunResponse | app/src/server/agents/nl2sql-agent.ts:370-392 | a successful run reports the model's own SQL, the gate's tables, the executor's rows, row count and duration, and the narrative of those rows |
| Nl2SqlAgent.CountedPlural | app/src/server/agents/nl2sql-agent.ts:419 | the plural `s` is there exactly when the count is not 1 |
| Nl2SqlAgent.ColumnValues | app/src/server/agents/nl2sql-agent.ts:430 | `rows.map(r => r[key])`: one value per row, `undefined` where a row lacks the column |
| Nl2SqlAgent.GenerateNarrative | app/src/server/agents/nl2sql-agent.ts:405-460 | pushing one sentence at a time and joining by spaces gives the narrative `Narrative` defines |
| Nl2SqlAgent.Narrative | app/src/server/agents/nl2sql-agent.ts:405-460 | the summary opens with `Found ` exactly when the row count is not zero |
| Nl2SqlAgent.NarrativeOpening | app/src/server/agents/nl2sql-agent.ts:418-423 | a non-empty result opens with `Found n result(s).` and contains the explanation when there is one |
| Nl2SqlAgent.NarrativeNamesProviders | app/src/server/agents/nl2sql-agent.ts:429-434 | when the first row has `provider_type`, the narrative counts the distinct values of that column and names every one of them |
| Nl2SqlAgent.SentenceNamesProviders | app/src/server/agents/nl2sql-agent.ts:430-433 | the provider sentence counts the distinct values and names each of them |
| Nl2SqlAgent.ProviderBreakdown | app/tests/server/nl2sql-agent.test.ts:265-304 | three rows over two providers give a narrative that says `2 providers` and names both |
| Nl2SqlAgent.ColumnsOf | app/src/server/agents/nl2sql-agent.ts:46-50 | the grouped columns of a table are exactly that table's columns, in the order reported |
| Nl2SqlAgent.ForeignKeysOf | app/src/server/agents/nl2sql-agent.ts:61-65 | the grouped foreign keys of a table are exactly that table's foreign keys |
| Nl2SqlAgent.ColumnLines | app/src/server/agents/nl2sql-agent.ts:70-74 | one line per column |
| Nl2SqlAgent.ForeignKeyLines | app/src/server/agents/nl2sql-agent.ts:76-80 | one line per foreign key |
| Nl2SqlAgent.ViewColumnLines | app/src/server/agents/nl2sql-agent.ts:87-89 | one line per view column |
| Nl2SqlAgent.SchemaText | app/src/server/agents/nl2sql-agent.ts:31-93 | the description opens with the header, so it is never empty and a cached copy is always used |
| Nl2SqlAgent.TableColumnsDescribed | app/src/server/agents/nl2sql-agent.ts:67-82 | every column of a listed table is described in that table's block |
| Nl2SqlAgent.GroupColumns | app/src/server/agents/nl2sql-agent.ts:37-50 | the grouping loop maps every table to exactly its columns, in order |
| Nl2SqlAgent.GroupForeignKeys | app/src/server/agents/nl2sql-agent.ts:53-65 | the grouping loop maps every table to exactly its foreign keys, in order |
| Nl2SqlAgent.TableBlockLines | app/src/server/agents/nl2sql-agent.ts:67-82 | one table's lines: its title, its columns, its foreign keys and a blank line |
| Nl2SqlAgent.ViewBlockLines | app/src/server/agents/nl2sql-agent.ts:84-91 | one view's lines: its title, its columns and a blank line |
| Nl2SqlAgent.TableSection | app/src/server/agents/nl2sql-agent.ts:67-82 | the loop over the tables gives the blocks of all tables, in order |
| Nl2SqlAgent.ViewSection | app/src/server/agents/nl2sql-agent.ts:84-91 | the loop over the materialised views gives their blocks, in order |
| Nl2SqlAgent.BuildSchemaText | app/src/server/agents/nl2sql-agent.ts:31-93 | the loops build exactly the description `SchemaText` defines |
| Nl2SqlAgent.SchemaCache.constructor | app/src/server/agents/nl2sql-agent.ts:22 | the cache starts empty, with no fetch made |
| Nl2SqlAgent.SchemaCache.GetSchemaContext | app/src/server/agents/nl2sql-agent.ts:28-95 | a hit returns the cached text without fetching; a miss fetches once, builds the description and caches it; afterwards the cache is full |
| Nl2SqlAgent.SchemaCache.ClearSchemaCache | app/src/server/agents/nl2sql-agent.ts:470-472 | clearing empties the cache and fetches nothing |
| Nl2SqlAgent.ProcessQuestion | app/src/server/agents/nl2sql-agent.ts:254-393 | for either gate (the server's is `AsWritten`), the answer is decided from the model's reply to the schema (cached or fresh) and the question; the database receives exactly the transaction of the accepted statement, or nothing |
| Nl2SqlAgent.Respond | app/src/server/agents/nl2sql-agent.ts:310-393 | for either gate, once the model has answered, the response is `Answer` of the decision, the database receives exactly the decision's commands, and a client is released only if a query ran |
| Nl2SqlAgent.RunQuery | app/src/server/agents/nl2sql-agent.ts:362-392 | the accepted statement runs in one tenant transaction with the default timeout, and the response is built from its outcome |
| ChatRoute.CheckInput | app/src/server/routes/chat.ts:31-40 | an accepted question is the non-empty trimmed text, at most `MAX_QUESTION_LENGTH` long |
| ChatRoute.InputAcceptedIff | app/src/server/routes/chat.ts:31-40 | a question is accepted exactly when it is present and trims to something non-empty within the limit, and the trimmed text is what goes on |
| ChatRoute.BlankQuestionRejected | app/tests/server/routes-chat.test.ts:25-35 | a missing question, or one of white space only, is rejected as `Question is required` |
| ChatRoute.LongQuestionRejected | app/src/server/routes/chat.ts:35-40 | a question whose trimmed text is over the limit is rejected with a message naming the maximum length |
| ChatRoute.ExceedsNamesLimit | app/src/server/routes/chat.ts:37 | the too-long message mentions `maximum length` whatever the limit |
| ChatRoute.OverlongWordRejected | app/tests/server/routes-chat.test.ts:37-42 | a question of 1001 non-space characters is too long |
| ChatRoute.GenericMessageQuiet | app/src/server/routes/chat.ts:79-81 | the generic message does not mention validation |
| ChatRoute.SafeMessage | app/src/server/routes/chat.ts:79-81 | the client gets the failure message itself exactly when it mentions `validation` (or already is the generic text), otherwise the generic message; the result mentions validation exactly when the failure did |
| ChatRoute.Reply | app/src/server/routes/chat.ts:61-83 | status 200 with the answer exactly when the question succeeded; otherwise a 500 error that mentions validation exactly when the failure did |
| ChatRoute.ValidationErrorsShown | app/src/server/routes/chat.ts:79-81 | the gate's rejection reasons are shown to the client in full |
| ChatRoute.ParseFailureHidden | app/src/server/routes/chat.ts:79-81 | a model answer that could not be decoded is reported with the generic message |
| ChatRoute.ReplyAndAuditAgree | app/src/server/routes/chat.ts:42-84 | client and audit tell success and failure apart the same way: 200 and `success` with the executed SQL, or 500 and `error` with the failure reason, no SQL and zero counts |
| ChatRoute.HandleChat | app/src/server/routes/chat.ts:18-85 | an invalid question is a 400 with its message, no audit entry and no database or cache change; a valid one is answered by the agent with the given gate (the server's is `AsWritten`) on the trimmed question and the session's tenant, and both the reply and the audit entry are built from that answer |
| ChatRoute.AcceptedAnswered | app/src/server/routes/chat.ts:42-61 | for either gate, decoded SQL the gate accepts is run, and once it has returned rows the client gets a 200 |
| ChatRoute.RefusedAnswered | app/src/server/routes/chat.ts:62-83 | for either gate, decoded SQL the gate refuses gets a 500 whose error mentions validation, so the reason is shown |
| ChatRoute.ShadowedCatalogueAnswered | app/src/server/routes/chat.ts:42-83 | a model reply whose SQL is `WITH pg_user AS (SELECT FROM pg_user) … LIMIT 5` is run and answered 200 with the server's gate; the corrected gate answers 500 with the validation error |
| ChatRoute.QualifiedBlockedCallAnswered | app/src/server/routes/chat.ts:42-83 | the same for `SELECT pg_catalog.set_config('role', 'x', false) LIMIT 1` |
| LlmFactory.KindOf | app/src/server/llm/index.ts:33-54 | exactly `anthropic`, `openai` and `gemini` select a provider kind, each its own |
| LlmFactory.KindNameRoundTrip | app/src/server/llm/index.ts:33-48 | every kind is selected by its own name |
| LlmFactory.RequestedName | app/src/server/llm/index.ts:27 | an unset or empty `LLM_PROVIDER` selects `anthropic`; otherwise the variable's value is used |
| LlmFactory.UnsupportedMessageNames | app/src/server/llm/index.ts:49-53 | the error starts `Unsupported LLM_PROVIDER: `, names the rejected value in quotes and lists the supported ones |
| LlmFactory.ProviderCache.constructor | app/src/server/llm/index.ts:18-19 | nothing is cached and nothing built at start |
| LlmFactory.ProviderCache.GetLLMProvider | app/src/server/llm/index.ts:26-58 | a request for the cached name returns the cached object and changes nothing; a supported new name builds a fresh object and caches it with the name; an unsupported one fails with its message and leaves the cache as it was |
| LlmFactory.ProviderCache.ResetProvider | app/src/server/llm/index.ts:61-64 | the reset forgets the cached provider and name |
| LlmFactory.SameSettingSameInstance | app/src/server/llm/index.ts:26-58 | two calls with the same setting return the very same object, or the same error |
| LlmFactory.SwitchBuildsNewInstance | app/src/server/llm/index.ts:26-58 | switching to another supported name builds a new object of the new kind |
| LlmFactory.ResetForgets | app/src/server/llm/index.ts:26-64 | after a reset a provider is built afresh, even for the name that was cached |
| ResultsTable.FormatValue | app/src/client/components/ResultsTable.tsx:10-15 | a missing or null value shows as an em dash and a string as itself |
| ResultsTable.FormatValueDash | app/src/client/components/ResultsTable.tsx:10-15 | a present non-null value shows as an em dash only when it is the em-dash string itself |
| ResultsTable.SpaceUnderscores | app/src/client/components/ResultsTable.tsx:19 | every underscore becomes a space; the length is kept |
| ResultsTable.FormatHeader | app/src/client/components/ResultsTable.tsx:17-21 | a header has its key's length and no underscore |
| ResultsTable.FormatHeaderShape | app/src/client/components/ResultsTable.tsx:17-21 | a header has spaces exactly where the key had underscores or spaces, equals the spaced key up to letter case, and has no lower-case letter at a word start |
| ResultsTable.FormatHeaderIdempotent | app/src/client/components/ResultsTable.tsx:17-21 | formatting a header again changes nothing |
| ResultsTable.ShownKeys | app/src/client/components/ResultsTable.tsx:57 | the shown keys are exactly the keys not ending in `_id`, plus `account_or_project_id` |
| ResultsTable.Columns | app/src/client/components/ResultsTable.tsx:54-58 | no rows give no columns; otherwise the columns are exactly the first row's shown keys |
| ResultsTable.ShownKeysOrdered | app/src/client/components/ResultsTable.tsx:57 | the columns keep the order of the first row's keys |
| ResultsTable.DrilldownLink | app/src/client/components/ResultsTable.tsx:27-28 | only a non-empty string cell can become a link |
| ResultsTable.DrilldownRules | app/src/client/components/ResultsTable.tsx:27-47 | a cell links exactly under the four rules (a person name with a truthy `person_id`, an AWS or GCP account id, a group name), to the page each rule names, the first rule that applies winning |
| ResultsTable.RowOrderPreorder | app/src/client/components/ResultsTable.tsx:62-66 | comparing rows on one column's text, ascending or descending, is a total preorder |
| ResultsTable.Insert | app/src/client/components/ResultsTable.tsx:62-66 | inserting adds exactly the one element |
| ResultsTable.SortBy | app/src/client/components/ResultsTable.tsx:62-66 | sorting is a permutation of the rows |
| ResultsTable.InsertOrdered | app/src/client/components/ResultsTable.tsx:62-66 | inserting into ordered rows keeps them ordered |
| ResultsTable.SortByOrdered | app/src/client/components/ResultsTable.tsx:62-66 | sorting orders the rows |
| ResultsTable.SortedData | app/src/client/components/ResultsTable.tsx:60-67 | the rows shown are a permutation of the data, and the data itself when there is no sort key |
| ResultsTable.SortedDataSpec | app/src/client/components/ResultsTable.tsx:60-67 | without a sort key the rows are the data as given; with one they are a permutation of it ordered in the chosen direction |
| ResultsTable.HandleSort | app/src/client/components/ResultsTable.tsx:72-79 | a click sorts by that header and leaves the page alone |
| ResultsTable.HandleSortToggles | app/src/client/components/ResultsTable.tsx:72-79 | clicking the current header twice restores the direction; a new header starts ascending, and a second click makes it descending |
| ResultsTable.PageCount | app/src/client/components/ResultsTable.tsx:69 | the page count is the ceiling of rows over page size |
| ResultsTable.PageData | app/src/client/components/ResultsTable.tsx:70 | a page holds at most `pageSize` rows: the slice from `page * pageSize` to `(page + 1) * pageSize`, clipped to the data |
| ResultsTable.PagesCover | app/src/client/components/ResultsTable.tsx:69-70 | reading every page in turn shows every row exactly once, in order |
| ResultsTable.ShowingRange | app/src/client/components/ResultsTable.tsx:140 | on an existing page the numbers in `Showing a–b of n` span exactly the rows on that page |
| ResultsTable.PageButtonsStayInRange | app/src/client/components/ResultsTable.tsx:143-156 | with at least one page the buttons keep the page among the existing ones, moving it by one at most and stopping at either end |
| PersonDetail.NormalizeArray | app/src/client/components/PersonDetail.tsx:102-104 | the list, or no items when it is null |
| PersonDetail.Or | app/src/client/components/PersonDetail.tsx:113-146 | `a \|\| b`: the value when it is present and not empty, else the fallback |
| PersonDetail.BuildAccountAccessRows | app/src/client/components/PersonDetail.tsx:106-154 | the three loops push exactly the rows `AccessRows` defines |
| PersonDetail.AccessRows | app/src/client/components/PersonDetail.tsx:106-154 | one row per identity, the Google ones first, then AWS, then GitHub, each built by its provider's rule, labelled with its provider and in the order of its list |
| PersonDetail.NoIdentitiesNoRows | app/src/client/components/PersonDetail.tsx:102-154 | a person with null identity lists has no rows |
| PersonDetail.GoogleRowRules | app/src/client/components/PersonDetail.tsx:110-122 | Google status is a dash when unknown, otherwise `Suspended` or `Active`; only admins are flagged; the account is the Google id |
| PersonDetail.AwsRowRules | app/src/client/components/PersonDetail.tsx:126-138 | the AWS account is the user name when there is one, else the id; status is `Active`, `Disabled` or a dash; no login time or flags |
| PersonDetail.GithubRowRules | app/src/client/components/PersonDetail.tsx:142-150 | GitHub shows the login (else the id), the e-mail (else the login, else a dash) and the account type (else a dash) |
| PersonDetail.BadgeClass | app/src/client/components/PersonDetail.tsx:171-172 | the badge class is the colour of the lower-cased caption, or slate when it has none |
| PersonDetail.BadgeIgnoresCase | app/src/client/components/PersonDetail.tsx:171-172 | the colour does not depend on the caption's letter case |
| PersonDetail.BadgeFromMap | app/src/client/components/PersonDetail.tsx:156-172 | every class either comes from the map or is the slate fallback |
| BaseProvider.EffectiveSize | scripts/ingestion/base_provider.py:85 | `size or self.batch_size`: an absent or zero size falls back to the configured batch size |
| BaseProvider.BatchRows | scripts/ingestion/base_provider.py:83-86 | a zero step is the error `range` raises and a negative step gives no batches |
| BaseProvider.BatchRowsRoundTrip | scripts/ingestion/base_provider.py:83-86 | with a positive size the batches concatenate back to the rows; each is non-empty and at most `size` long, all but the last exactly `size` |
| BaseProvider.NoRowsNoBatches | scripts/ingestion/base_provider.py:83-86 | no rows give no batches, whatever non-zero size is used |
| BaseProvider.RateLimitDelay | scripts/ingestion/base_provider.py:76-81 | the delay is `base * 2^attempt`, capped at 60 seconds |
| BaseProvider.RateLimitDelayMonotone | scripts/ingestion/base_provider.py:76-81 | a later attempt never waits less |
| BaseProvider.DefaultDelays | scripts/ingestion/base_provider.py:76-81 | with the default one-second base the delays run 1, 2, 4, …, 32 and then stay at 60 |
| BaseProvider.TotalAppend | scripts/ingestion/base_provider.py:40 | the total of the counts adds up entry by entry |
| BaseProvider.TotalNonNegative | scripts/ingestion/base_provider.py:40 | with non-negative counts the total is non-negative and at least every single count |
| BaseProvider.Truncate | scripts/ingestion/base_provider.py:61 | `s[:n]`: the prefix of length `min(n, len(s))` |
| BaseProvider.TruncateIdempotent | scripts/ingestion/base_provider.py:61 | truncating twice is truncating once |
| BaseProvider.FailedEndRecords | scripts/ingestion/base_provider.py:56-63 | a failed run's end row is FAILED for the same run and tenant, keeps the first 1000 characters of the message (all of a shorter one) and the traceback |
| BaseProvider.SucceededEndRecords | scripts/ingestion/base_provider.py:39-46 | a successful run's end row is SUCCESS with the total of the counts and no error |
| BaseProvider.SyncWithTracking | scripts/ingestion/base_provider.py:32-69 | the database receives the RUNNING row's transaction then the end row's, and the sync's result or error is passed on unchanged |
| BaseProvider.TrackingRows | scripts/ingestion/base_provider.py:32-69 | both rows name the same run and tenant, and the run is marked SUCCESS exactly when the sync succeeded |
| IngestionDb.OutstandingAppend | scripts/ingestion/db.py:33-39 | borrowed connections add up over a concatenated event log |
| IngestionDb.OutstandingOfRuns | scripts/ingestion/db.py:42-51 | executing statements borrows and returns nothing |
| IngestionDb.Runs | scripts/ingestion/db.py:46-47 | one execution event per statement of the body, in order |
| IngestionDb.TransactionShape | scripts/ingestion/db.py:33-51 | a transaction borrows one connection and returns it last, runs the body's statements in order, commits exactly when nothing is raised and rolls back exactly when something is |
| IngestionDb.EndingShape | scripts/ingestion/db.py:45-51 | the ending finishes with a commit exactly when nothing is raised and with a rollback exactly when something is |
| IngestionDb.Database.constructor | scripts/ingestion/db.py:23-28 | a new database has logged nothing |
| IngestionDb.Database.Close | scripts/ingestion/db.py:30-31 | `close()` closes every pooled connection |
| IngestionDb.Database.Transaction | scripts/ingestion/db.py:41-51 | the log grows by exactly the transaction's events, on a fresh connection, and the error raised is the body's or else the commit's |
| IngestionDb.Database.RecordRunStart | scripts/ingestion/db.py:89-111 | one transaction inserting the RUNNING row; the run id is returned unless the commit fails |
| IngestionDb.Database.RecordRunEnd | scripts/ingestion/db.py:113-143 | one transaction updating the run's row; the commit's error is raised |
| IngestionDb.RunStartStatement | scripts/ingestion/db.py:98-110 | the start row binds the run id and tenant first and stores the metadata, or `{}` when it is missing or empty |
| IngestionDb.RunEndStatement | scripts/ingestion/db.py:124-143 | the end row is matched on both the run id and the tenant, and an empty error detail is stored as null |
| IngestionDb.SetClauseAssigns | scripts/ingestion/db.py:71-75 | every update column is overwritten from the proposed row and the timestamps are refreshed last; with no update columns the clause starts with a stray `, ` |
| IngestionDb.SetClause | scripts/ingestion/db.py:71-75 | the clause always ends by refreshing both timestamps |
| IngestionDb.UpsertSqlLayout | scripts/ingestion/db.py:69-80 | the statement names the table and its columns in order, the conflict target, and ends with the set clause |
| IngestionDb.UpsertSql | scripts/ingestion/db.py:69-80 | the statement opens `INSERT INTO <table> (` and ends with the timestamp refresh |
| IngestionDb.RowValues | scripts/ingestion/db.py:82 | one value per row, in order |
| IngestionDb.UpsertStatementsCover | scripts/ingestion/db.py:66-82 | no rows send nothing; otherwise every statement carries between one and 500 rows, all but the last exactly 500, and together they carry every row once, in order |
| IngestionDb.UpsertCountAsWritten | scripts/ingestion/db.py:66-83 | as written, the count returned is the cursor's row count, which is the last statement's only |
| IngestionDb.UndercountExample | scripts/ingestion/db.py:82-83 | 501 rows go out as two statements, and the count returned is 1 instead of 501 |
| IngestionDb.UpsertCount | scripts/ingestion/db.py:62-67 | the corrected count: no rows give 0, and with non-negative counts the result is at least every statement's count |
| IngestionDb.UpsertCountAgrees | scripts/ingestion/db.py:82-83 | with at most one statement's worth of rows the two counts agree |
| IngestionConfig.EnvOpt | scripts/ingestion/config.py:109-110 | `os.environ.get(key)`: present exactly when the variable is set, with its value |
| IngestionConfig.ParseInt | scripts/ingestion/config.py:102-103 | a text `int()` refuses fails with Python's `invalid literal` message for that text |
| IngestionConfig.ParseIntRoundTrip | scripts/ingestion/config.py:102-103 | every number's decimal rendering reads back as that number |
| IngestionConfig.IntSetting | scripts/ingestion/config.py:102-103 | a set numeric variable is parsed; an unset one takes its default |
| IngestionConfig.NonBlankPieces | scripts/ingestion/config.py:149 | the comprehension keeps at most every piece, and never a blank one |
| IngestionConfig.NonBlankFrom | scripts/ingestion/config.py:149 | every login kept is the stripped form of one of the comma-separated pieces |
| IngestionConfig.OrgLoginsRoundTrip | scripts/ingestion/config.py:148-149 | a login list written with commas and no surrounding blanks reads back as itself |
| IngestionConfig.OrgLoginsStripped | scripts/ingestion/config.py:148-149 | every login kept is non-blank, has no white space at either end and no comma |
| IngestionConfig.StripWithin | scripts/ingestion/config.py:149 | stripping adds no character |
| IngestionConfig.GoogleSection | scripts/ingestion/config.py:108-116 | the Google section exists exactly when both its variables are set and non-empty, and carries their values and the optional key file |
| IngestionConfig.AwsIdcSection | scripts/ingestion/config.py:120-128 | the Identity Center section exists exactly when both its variables are set, and carries them and the region |
| IngestionConfig.AwsOrgsSection | scripts/ingestion/config.py:132-141 | the Organizations section exists exactly when credentials, a profile, a Lambda name or the `true` flag is present, and carries the region |
| IngestionConfig.AwsOrgsFlagIgnoresCase | scripts/ingestion/config.py:137 | the flag is read without regard to letter case |
| IngestionConfig.GithubSection | scripts/ingestion/config.py:144-154 | no token gives no section; a token is resolved as a secret, its failure propagated, and the section carries the resolved token, the parsed logins and the API URL |
| IngestionConfig.GcpSection | scripts/ingestion/config.py:158-164 | the GCP section exists exactly when `GCP_ORG_ID` is set, with the optional key file |
| IngestionConfig.LoadConfig | scripts/ingestion/config.py:86-175 | a missing or empty `TENANT_ID` is the `required` error; a loaded configuration has that tenant, the default scheduler and the resolved database URL |
| IngestionConfig.LoadConfigSections | scripts/ingestion/config.py:100-175 | a loaded configuration holds exactly the provider sections and the parsed numeric settings |
| IngestionConfig.SectionsIff | scripts/ingestion/config.py:108-164 | each provider section is present exactly when its variables are set |
| IngestionConfig.NumericDefaults | scripts/ingestion/config.py:100-104 | unset numeric variables take their defaults: 2 and 10 connections and batches of 500 |
| IngestionConfig.RegionDefault | scripts/ingestion/config.py:127-140 | the region defaults to `us-east-1` in both AWS sections |
| Secrets.EnvGet | scripts/ingestion/secrets.py:49 | `os.environ.get(key, default)`: the value when set, else the default |
| Secrets.AwsRef | scripts/ingestion/secrets.py:45-47 | `ref.split("#", 1)`: a name without `#` and, after the first `#`, the key; they join back to the reference |
| Secrets.AwsRefRoundTrip | scripts/ingestion/secrets.py:45-47 | the name and key are read back from `name#key` for any name without `#` |
| Secrets.ResolveAws | scripts/ingestion/secrets.py:38-58 | the secret is fetched by its name in the configured region (default `us-east-1`); a non-empty key selects a JSON field, an empty one (`name#`) is ignored, a fetch error propagates, and a reference without `#` is the name itself |
| Secrets.GcpProject | scripts/ingestion/secrets.py:74-77 | the project is `GCP_PROJECT_ID` when set and non-empty, else the metadata server's answer, whose failure is the `Cannot determine` error |
| Secrets.GcpName | scripts/ingestion/secrets.py:71-78 | a full `projects/…` name is used as is; a short one becomes the latest version in the project, or the project's error |
| Secrets.GcpNameIdempotent | scripts/ingestion/secrets.py:71-78 | every name produced is a full name, so naming it again changes nothing |
| Secrets.ResolveGcp | scripts/ingestion/secrets.py:61-81 | the secret is read under the computed name, or the naming error is raised |
| Secrets.ResolveSecret | scripts/ingestion/secrets.py:22-35 | an `aws-secret://` reference goes to AWS, a `gcp-secret://` one to GCP, with the prefix removed |
| Secrets.PlainValueUnchanged | scripts/ingestion/secrets.py:22-35 | a value that is not a reference is its own secret, whatever the backends do |
| Secrets.AwsReferenceRead | scripts/ingestion/secrets.py:31-58 | a reference to a named AWS secret without a key reads exactly that secret |
| Secrets.ResolveDatabaseUrl | scripts/ingestion/secrets.py:101-117 | a set `DATABASE_URL` is resolved as a secret; otherwise the URL is assembled from the `PG_*` variables and their defaults, the password resolved as a secret and its failure propagated |
| Secrets.LocalDefaultUrl | scripts/ingestion/secrets.py:101-117 | with nothing set the URL is the local development one, without calling any backend |
| Cli.GetProvider | scripts/ingestion/cli.py:36-51 | a provider is returned exactly when the name is registered and its configuration section is present |
| Cli.SectionOfEachProvider | scripts/ingestion/cli.py:26-33 | GCP is looked up under its `gcp` section and the others under their own names; `all` and `post-process` are not providers |
| Cli.PostProcessResults | scripts/ingestion/cli.py:54-69 | the resolver's counts updated with the backfill's, the backfill winning on shared keys |
| Cli.ProvidersToSync | scripts/ingestion/cli.py:78-92 | `all` walks the five providers in registry order; any other choice but `post-process` walks only itself |
| Cli.CmdSync | scripts/ingestion/cli.py:72-109 | `post-process` runs only post-processing; otherwise the providers are synced in order until one raises; `all` then post-processes; the database is always closed last and the first error propagates |
| Cli.SyncAllStartsConfigured | scripts/ingestion/cli.py:94-100 | the providers started are the first configured ones, in the order given, and all of them when nothing is raised; for pairwise different names no provider starts twice |
| Cli.SyncAllRunsAll | scripts/ingestion/cli.py:94-100 | with every provider configured and nothing failing, every name is started, in order |
| Cli.SyncAll | scripts/ingestion/cli.py:94-100 | no more providers start than are named; when a sync raises, that provider is the last one started and its error is the one raised |
| Cli.SyncAllCleanRun | scripts/ingestion/cli.py:94-100 | a walk that raises nothing started only providers whose sync succeeded |
| Cli.SyncProviders | scripts/ingestion/cli.py:94-100 | the `for name in providers_to_sync` loop starts the providers and raises the error that `SyncAll` defines |
| Cli.AllSyncsFiveThenPostProcesses | scripts/ingestion/cli.py:79-106 | `sync --provider all` with everything configured and working starts the five providers in order |
| Cli.SingleChoiceSyncsOnlyIt | scripts/ingestion/cli.py:91-100 | a single provider choice syncs that provider, or nothing when it is not configured |
| Cli.StatusFilter | scripts/ingestion/cli.py:132 | `all` lists every provider's runs; any other choice filters on itself |
| Cli.CmdStatus | scripts/ingestion/cli.py:124-160 | one query for the tenant's recent runs with the filter and limit, then the database is closed |
| Scheduler.RetryDelay | scripts/ingestion/scheduler.py:22-33 | the delay after a failed attempt is at least the 30-second base |
| Scheduler.AttemptCountAppend | scripts/ingestion/scheduler.py:24 | attempts add up over a concatenated trace |
| Scheduler.RetryBounded | scripts/ingestion/scheduler.py:24-43 | at least one and at most `max_retries + 1` attempts are made, and the run ends with a success or a give-up |
| Scheduler.RetryTrace | scripts/ingestion/scheduler.py:24-43 | a run from attempt `k` opens with attempt `k` |
| Scheduler.RetryEscapesOnBuild | scripts/ingestion/scheduler.py:24-27 | the first attempt whose provider cannot be built ends the run with that error escaping, with no give-up logged, even when attempts remain |
| Scheduler.RetryStopsAtSuccess | scripts/ingestion/scheduler.py:28-30 | the first attempt that succeeds is the last one made, and nothing is given up |
| Scheduler.RetryGivesUp | scripts/ingestion/scheduler.py:39-43 | when every attempt fails, all `max_retries + 1` are made and the last error is logged |
| Scheduler.SleepOnlyBeforeRetry | scripts/ingestion/scheduler.py:31-38 | a sleep of `30 * 2^attempt` seconds follows exactly the failed attempts that are not the last |
| Scheduler.SyncProvider | scripts/ingestion/scheduler.py:17-43 | an unconfigured provider does nothing; a configured one follows the retry trace: a failed sync is retried and only the last failure is logged, while an error raised building the provider escapes the job at once |
| Scheduler.PostProcessJob | scripts/ingestion/scheduler.py:46-53 | the outcome is logged, as counts on success and as the message on failure, and nothing is raised |
| Scheduler.ProviderJobs | scripts/ingestion/scheduler.py:71-129 | there are no more provider jobs than provider names |
| Scheduler.ProviderJobsAreConfigured | scripts/ingestion/scheduler.py:71-129 | one job per configured provider of the names, in the order given, each with its own interval |
| Scheduler.StartScheduler | scripts/ingestion/scheduler.py:65-144 | the `add_job` calls made are exactly the jobs `ScheduledJobs` lists |
| Scheduler.ProviderJobsOfAll | scripts/ingestion/scheduler.py:71-129 | the provider jobs come in registry order |
| Scheduler.JobIfEach | scripts/ingestion/scheduler.py:71-129 | each configured provider gets its job with its interval (minutes for three, hours for two) |
| Scheduler.JobsForConfigured | scripts/ingestion/scheduler.py:71-129 | a provider has a job exactly when it is configured, and every job runs alone with the same grace time |
| Scheduler.ScheduledJobsIff | scripts/ingestion/scheduler.py:65-140 | the jobs are the configured providers' and, always last, post-processing every 15 minutes by default |
| Scheduler.ScheduledJobs | scripts/ingestion/scheduler.py:65-140 | the configured providers' jobs in the fixed order, each with its interval, then post-processing last |
| Scheduler.ScheduledJobsDistinct | scripts/ingestion/scheduler.py:65-140 | no two scheduled jobs share an id: at most one job per provider, and post-processing's id is none of theirs |
| GithubOrg.RankFrom | scripts/ingestion/providers/github_org.py:365-369 | the level picked is one of the levels tried, or `read` |
| GithubOrg.RankFromFirst | scripts/ingestion/providers/github_org.py:365-369 | the ranking picks the first level granted, and `read` exactly when none is |
| GithubOrg.HighestPermissionIsFirstGranted | scripts/ingestion/providers/github_org.py:364-369 | the recorded permission is the first of admin, maintain, push, triage and pull that is granted, and `read` exactly when none is |
| GithubOrg.PickPermission | scripts/ingestion/providers/github_org.py:365-369 | the `for level … break` loop picks the highest permission |
| GithubOrg.HighestPermission | scripts/ingestion/providers/github_org.py:364-369 | the recorded permission is `read` or one of the levels tried, and a level other than `read` is granted |
| GithubOrg.OutsideCollaboratorRules | scripts/ingestion/providers/github_org.py:375-376 | users and admins are never outside collaborators; an admin flag that is merely falsy (null, 0) does not count as `False`; an entry with neither permissions nor type is one |
| GithubOrg.IsOutsideCollaborator | scripts/ingestion/providers/github_org.py:375-376 | an outside collaborator is not of type `User` and is not granted admin |
| GithubOrg.CollaboratorRowOf | scripts/ingestion/providers/github_org.py:370-379 | a collaborator without `node_id` raises; otherwise its row carries that id, the highest permission and the outside-collaborator flag |
| GithubOrg.CollaboratorRows | scripts/ingestion/providers/github_org.py:360-379 | the loop over a batch builds the rows of its collaborators in order, or raises at the first one without `node_id` |
| GithubOrg.TeamPermissionRowOf | scripts/ingestion/providers/github_org.py:336-344 | a team without `node_id` raises; a missing permission defaults to `pull` |
| GithubOrg.NextOfNone | scripts/ingestion/providers/github_org.py:63-69 | without a part mentioning `rel="next"` there is no next page |
| GithubOrg.FollowLink | scripts/ingestion/providers/github_org.py:63-69 | the loop over the `Link` header's parts finds the URL `NextUrl` defines |
| GithubOrg.NextUrl | scripts/ingestion/providers/github_org.py:63-69 | a next link found has no angle bracket at either end |
| GithubOrg.LinkTarget | scripts/ingestion/providers/github_org.py:67-68 | `strip("<>")` leaves no angle bracket at either end of a non-empty target |
| GithubOrg.NextPartTarget | scripts/ingestion/providers/github_org.py:67-68 | a part `<url>; rel="next"` mentions `rel="next"` and names `url` |
| GithubOrg.NextUrlFound | scripts/ingestion/providers/github_org.py:63-69 | the next link is found wherever it stands in the header, after parts that do not mention it |
| GithubOrg.NextOfAt | scripts/ingestion/providers/github_org.py:66-69 | the first part that mentions `rel="next"` names the target |
| GithubOrg.FirstParams | scripts/ingestion/providers/github_org.py:40-41 | the first request's parameters are the caller's with `per_page` defaulting to `100` |
| GithubOrg.MentionsRateLimitIff | scripts/ingestion/providers/github_org.py:46 | a 403 is a rate limit exactly when the lower-cased body contains `rate limit` |
| GithubOrg.RateLimitWait | scripts/ingestion/providers/github_org.py:47-50 | the wait is between 1 and 300 seconds, and is the time to the reset when that lies in range |
| GithubOrg.PageItems | scripts/ingestion/providers/github_org.py:57-60 | a list body contributes its items, any other body itself |
| GithubOrg.PaginateRateLimited | scripts/ingestion/providers/github_org.py:46-54 | a rate-limited reply waits, then retries the same request with the same parameters, unless it is the sixth in a row, which raises |
| GithubOrg.PaginatePage | scripts/ingestion/providers/github_org.py:55-71 | a good page's items are kept and the walk goes on at the next link, with no parameters and the counter reset |
| GithubOrg.PaginateHttpError | scripts/ingestion/providers/github_org.py:55 | any other error status ends the walk with that status |
| GithubOrg.HandleReply | scripts/ingestion/providers/github_org.py:44-70 | one turn of the `while url:` loop, its events and its state, agrees with the walk `Paginate` defines |
| GithubOrg.GetPaginated | scripts/ingestion/providers/github_org.py:37-71 | the loop's requests, waits and result are exactly those of the walk `Paginate` defines, starting from the first parameters |
| GithubOrg.Paginate | scripts/ingestion/providers/github_org.py:37-71 | a walk only adds to what was fetched before: the items fetched so far are a prefix of the results, or of the partial results of a walk cut short |
| GithubOrg.FollowPage | scripts/ingestion/providers/github_org.py:63-70 | the same after a good page, when the walk goes on at the page the `Link` header names |
| GithubOrg.PaginateParams | scripts/ingestion/providers/github_org.py:40-64 | the first parameters go with every request until a page arrives and with none after it |
| GithubOrg.RateLimitRetriesSameRequest | scripts/ingestion/providers/github_org.py:46-54 | fewer than six rate limits in a row retry the same request with the same parameters after each wait and fetch nothing |
| GithubOrg.SixthRateLimitRaises | scripts/ingestion/providers/github_org.py:51-53 | the sixth rate limit in a row raises after its wait, with nothing returned |
| GithubOrg.CounterResetsAfterPage | scripts/ingestion/providers/github_org.py:70 | a page resets the counter: six rate limits in a row after a page raise, whatever came before it |
| GithubOrg.TwoPages | scripts/ingestion/providers/github_org.py:37-71 | two good pages, the first linking to the second: both are fetched in order, `per_page` goes with the first request only, and the results are the two pages' items in order |
| GithubOrg.OrgKeyRoundTrip | scripts/ingestion/providers/github_org.py:78 | an org login never holds a `/`, so the key `login/k` names its org and entity |
| GithubOrg.PrefixedCountsKeys | scripts/ingestion/providers/github_org.py:77-78 | one org's keys are its entity names, prefixed with the login |
| GithubOrg.SyncResultsKeys | scripts/ingestion/providers/github_org.py:73-79 | the result holds exactly the prefixed keys of every org |
| GithubOrg.Sync | scripts/ingestion/providers/github_org.py:73-79 | the loop stores each org's counts under `"{org_login}/{k}"`, in order |
| GcpResourceManager.OrgName | scripts/ingestion/providers/gcp_resource_manager.py:50-52 | the organisation's resource name starts with `organizations/` and ends with the configured id, and equals it exactly when the id already had the prefix |
| GcpResourceManager.OrgNameIdempotent | scripts/ingestion/providers/gcp_resource_manager.py:50-52 | normalising twice is normalising once |
| GcpResourceManager.StateName | scripts/ingestion/providers/gcp_resource_manager.py:73-80 | `state.name if state else "ACTIVE"`: the zero state reads as `ACTIVE`, and only a deletion request as `DELETE_REQUESTED` |
| GcpResourceManager.OrgToSync | scripts/ingestion/providers/gcp_resource_manager.py:54-61 | the organisation synced is the one fetched by name, else the first one a search finds, else none |
| GcpResourceManager.OrgRows | scripts/ingestion/providers/gcp_resource_manager.py:48-88 | no row when no organisation is found, else exactly one row carrying its name and state |
| GcpResourceManager.ParentIds | scripts/ingestion/providers/gcp_resource_manager.py:118-120 | the parent counts as organisation or as folder by its prefix, and is stored as is |
| GcpResourceManager.ParentNeverBoth | scripts/ingestion/providers/gcp_resource_manager.py:119-120 | a parent is never both an organisation and a folder |
| GcpResourceManager.ProjectNumber | scripts/ingestion/providers/gcp_resource_manager.py:133 | the project number holds no `/`, and is the name itself when it has none |
| GcpResourceManager.ProjectNumberOf | scripts/ingestion/providers/gcp_resource_manager.py:133 | the number of `projects/123` is `123`: whatever follows the last slash |
| GcpResourceManager.ProjectRowClassified | scripts/ingestion/providers/gcp_resource_manager.py:117-141 | a project's organisation id is set exactly when its parent is an organisation, its folder id exactly when the parent is a folder, never both |
| GcpResourceManager.ProjectRows | scripts/ingestion/providers/gcp_resource_manager.py:115-141 | the loop builds one row per project of the batch, in order |
| GcpResourceManager.ParseMember | scripts/ingestion/providers/gcp_resource_manager.py:190-194 | a member `type:id` is split at its first colon; a member without a colon is both type and id |
| GcpResourceManager.MemberRoundTrip | scripts/ingestion/providers/gcp_resource_manager.py:190-191 | `type:id` is read back as its type and id for any type without a colon |
| GcpResourceManager.MemberRowsShape | scripts/ingestion/providers/gcp_resource_manager.py:182-207 | one row per member, in order, each with the binding's role and the condition's expression and title, `None` without a condition |
| GcpResourceManager.MemberRows | scripts/ingestion/providers/gcp_resource_manager.py:188-207 | one row per member, each of the tenant, the project and the binding's role |
| GcpResourceManager.PolicyRows | scripts/ingestion/providers/gcp_resource_manager.py:181-207 | every row of a policy belongs to the tenant and the project |
| GcpResourceManager.PolicyRowsAppend | scripts/ingestion/providers/gcp_resource_manager.py:181-207 | the rows of consecutive bindings follow each other |
| GcpResourceManager.CollectMembers | scripts/ingestion/providers/gcp_resource_manager.py:188-207 | the `for member in binding.members` loop builds one row per member |
| GcpResourceManager.CollectBindings | scripts/ingestion/providers/gcp_resource_manager.py:181-207 | the `for binding in policy.bindings` loop builds the rows of one project's policy |
| GcpResourceManager.SyncIamBindings | scripts/ingestion/providers/gcp_resource_manager.py:171-214 | the loop over the active projects builds exactly the rows `IamRows` defines |
| GcpResourceManager.IamRows | scripts/ingestion/providers/gcp_resource_manager.py:171-207 | every row belongs to the tenant and to a listed project whose policy was read |
| GcpResourceManager.IamRowsAppend | scripts/ingestion/providers/gcp_resource_manager.py:171-207 | the rows of consecutive projects follow each other |
| GcpResourceManager.FailedProjectSkipped | scripts/ingestion/providers/gcp_resource_manager.py:172-179 | a project whose policy fetch fails is skipped and leaves the other projects' rows as they are |
| GcpResourceManager.ReadProjectContributes | scripts/ingestion/providers/gcp_resource_manager.py:171-207 | a project whose policy is read contributes that policy's rows, in place |
| GcpResourceManager.SyncResults | scripts/ingestion/providers/gcp_resource_manager.py:41-46 | `sync()` reports the three counts under `organisations`, `projects` and `iam_bindings`, in that order, and their total |
| AwsIdentityCenter.ListOf | scripts/ingestion/providers/aws_identity_center.py:43 | `page.get(key, [])`: the list under the key, or none when the key is missing |
| AwsIdentityCenter.CollectPages | scripts/ingestion/providers/aws_identity_center.py:38-44 | the loop over the paginator's pages collects exactly the items `PagedItems` defines |
| AwsIdentityCenter.PagedItems | scripts/ingestion/providers/aws_identity_center.py:38-44 | the first page's items come first, and every item comes from some page |
| AwsIdentityCenter.PagedItemsAppend | scripts/ingestion/providers/aws_identity_center.py:42-43 | collecting goes page by page: the items of earlier pages come first |
| AwsIdentityCenter.PagedItemsOne | scripts/ingestion/providers/aws_identity_center.py:42-43 | a single page contributes exactly its list |
| AwsIdentityCenter.PrimaryEmailOf | scripts/ingestion/providers/aws_identity_center.py:68-75 | no emails give `None`, and any email picked is the value of one of the user's emails |
| AwsIdentityCenter.PickPrimaryEmail | scripts/ingestion/providers/aws_identity_center.py:68-75 | the `for e in emails: … break` loop and the fallback after it pick the email `PrimaryEmailOf` defines |
| AwsIdentityCenter.PrimaryEmailFlagged | scripts/ingestion/providers/aws_identity_center.py:70-73 | the first flagged email wins when its value is truthy |
| AwsIdentityCenter.PrimaryEmailFallback | scripts/ingestion/providers/aws_identity_center.py:74-75 | otherwise the first email's value is used: when no email is flagged |
| AwsIdentityCenter.PrimaryEmailFlaggedEmpty | scripts/ingestion/providers/aws_identity_center.py:70-75 | and also when the first flagged email has an empty or missing value |
| AwsIdentityCenter.UserRowOf | scripts/ingestion/providers/aws_identity_center.py:67-91 | a user without `UserId` raises `KeyError`; otherwise the row has that id and the primary email, is active unless it says otherwise, and has an empty user name unless it gives one |
| AwsIdentityCenter.GroupRowOf | scripts/ingestion/providers/aws_identity_center.py:116-125 | a group without `GroupId` raises; the display name defaults to `""` and the description to `None` |
| AwsIdentityCenter.MemberUserId | scripts/ingestion/providers/aws_identity_center.py:161-162 | the member is `MemberId.UserId`, or `""` when either is missing |
| AwsIdentityCenter.MembershipRowOf | scripts/ingestion/providers/aws_identity_center.py:160-171 | a membership without `MembershipId` raises; otherwise the row carries it, the group and the member |
| AwsIdentityCenter.DescribedName | scripts/ingestion/providers/aws_identity_center.py:191-198 | the name of a permission set is the ARN itself when describing fails or the reply has no `PermissionSet` |
| AwsIdentityCenter.NamesOfLookup | scripts/ingestion/providers/aws_identity_center.py:189-198 | every listed ARN gets its described name, and no other ARN gets one |
| AwsIdentityCenter.ResolveNames | scripts/ingestion/providers/aws_identity_center.py:189-198 | the `for arn in ps_arns: try … except` loop builds exactly the name map `NamesOf` defines |
| AwsIdentityCenter.NamesOf | scripts/ingestion/providers/aws_identity_center.py:189-198 | the name table names exactly the listed ARNs |
| AwsIdentityCenter.NameLookup | scripts/ingestion/providers/aws_identity_center.py:244 | `ps_names.get(arn, "")` |
| AwsIdentityCenter.AssignmentRowOf | scripts/ingestion/providers/aws_identity_center.py:238-249 | an assignment gives a row exactly when its four keys are present, with the looked-up name; the first missing key, in the row's order, is the one reported |
| AwsIdentityCenter.AssignmentName | scripts/ingestion/providers/aws_identity_center.py:189-244 | an assignment's permission-set name is the described name of a listed set, the ARN when describing it failed, and `""` for a set that was not listed |
| AwsIdentityCenter.SyncResults | scripts/ingestion/providers/aws_identity_center.py:30-36 | `sync()` reports the four counts under `users`, `groups`, `memberships` and `account_assignments`, in that order, and their total |
| Rows.GetOr | scripts/ingestion/providers/aws_identity_center.py:43 | `d.get(key, default)`: the field's value when present, the default otherwise |
| Rows.Required | scripts/ingestion/providers/aws_identity_center.py:81 | `d[key]` succeeds exactly when the key is present, with its value, and otherwise raises `KeyError` naming the key |
| Rows.BuildRows | scripts/ingestion/providers/aws_identity_center.py:77-91 | the `rows.append(…)` loops compute what `AllRows` defines |
| Rows.AllRowsOk | scripts/ingestion/providers/aws_identity_center.py:77-91 | the rows are built exactly when every record gives one; then one row per record, in order |
| Rows.AllRowsFirstError | scripts/ingestion/providers/aws_identity_center.py:77-91 | a failure is the error of the first record that fails, every earlier one having succeeded |
| Values.Get | scripts/ingestion/providers/aws_identity_center.py:43 | a present field's value is the value stored under that name; absent means no field has the name or the value is not an object |
| Values.Keys | app/src/client/components/ResultsTable.tsx:57 | `Object.keys(row)`: one key per field, in field order; none for a non-object |
| Text.Lower | scripts/ingestion/providers/github_org.py:46 | lower-casing keeps the length |
| Text.LowerIdempotent | app/src/server/validators/sql-validator.ts:107 | lower-casing twice is lower-casing once, so lower-cased table names compare stably |
| Text.LowerAppend | app/src/server/validators/sql-validator.ts:107 | lower-casing a qualified name is lower-casing its parts |
| Text.IndexOfFrom | app/src/server/validators/sql-validator.ts:81 | the search finds the first occurrence at or after the start, or reports that there is none |
| Text.ContainsIff | scripts/ingestion/providers/github_org.py:46 | `sub in s` holds exactly when `sub` occurs at some position |
| Text.IndexOfChar | scripts/ingestion/secrets.py:45 | the first position holding the character, or none exactly when the character is absent |
| Text.LastIndexOfChar | scripts/ingestion/providers/gcp_resource_manager.py:133 | the last position holding the character, or none exactly when it is absent |
| Text.TrimEnds | app/src/server/routes/chat.ts:31 | `trim()` leaves no space at either end, and trims to nothing only a string made of spaces |
| Text.TrimStartRemovesSpaces | app/src/server/routes/chat.ts:31 | everything removed at the start is space |
| Text.TrimEndRemovesSpaces | app/src/server/routes/chat.ts:31 | everything removed at the end is space |
| Text.TrimIdempotent | scripts/ingestion/config.py:149 | trimming a trimmed string changes nothing |
| Text.TrimUnchanged | scripts/ingestion/config.py:149 | a string with no space at either end is its own trim |
| Text.Split | scripts/ingestion/config.py:149 | `s.split(c)` gives at least one piece and no piece holds the separator |
| Text.JoinSplit | scripts/ingestion/config.py:149 | splitting and joining back with the separator gives the string back |
| Text.SplitJoin | scripts/ingestion/config.py:149 | joining pieces free of the separator and splitting again gives the pieces back |
| Text.SplitOnce | scripts/ingestion/secrets.py:45 | `s.split(c, 1)`: the whole string when `c` is absent; otherwise the text before the first `c`, and the rest after it |
| Text.NatToStringRoundTrip | scripts/ingestion/config.py:102-103 | reading back the decimal rendering of a number gives the number, so the rendering is faithful |
| Base.Distinct | app/src/server/validators/sql-validator.ts:223 | an insertion-ordered set holds exactly the elements added, and no more of them than were added |
| Base.DistinctNoDup | app/src/server/validators/sql-validator.ts:223 | the set holds each element once |
| Base.DistinctCount | app/src/server/agents/nl2sql-agent.ts:430-431 | `new Set(xs).size` is the number of different elements |
| Base.WindowCount | scripts/ingestion/base_provider.py:86 | the number of batches is the ceiling of the row count over the batch size |
| Base.Windows | scripts/ingestion/base_provider.py:86 | batch `i` is the clamped slice from `i * size` of length `size` |
| Base.WindowsPrefix | scripts/ingestion/base_provider.py:86 | the batches, put back together, give the rows back in order |

## Left out

- **SQL parsing**: `libpg-query` (app/src/server/validators/sql-validator.ts:29-36) is foreign code. The model takes its result as a parameter and abstracts its tree to the node kinds the gate inspects.
- **Regular expressions**: JavaScript `\b` and `\s` are modelled for ASCII only. Case mapping is ASCII-only in both languages, with no Unicode case folding. String lengths count characters, not UTF-16 code units.
- **JSON**: `JSON.parse` of the model's reply is a parameter, and `JSON.stringify` of raw responses is not modelled.
- **Model providers**: the LLM SDK wrappers (anthropic.ts, openai.ts, gemini.ts) and what `complete` does are opaque. Building the system prompt and the synonym context is not modelled.
- **Mock mode**: the MOCK_MODE branch of `processQuestion` is not modelled.
- **Identifiers and timing**: `randomUUID`, `Date.now`, `time.time` and `time.sleep` become values passed in or recorded events. The sleeps are whole seconds, not floats.
- **Audit logging**: the audit calls in chat.ts are fire-and-forget, so the model records what they would log and never lets them change the response. The console-only audit middleware is not modelled.
- **Chat request body**: JSON decoding of the body is a parameter. A body that does not decode is `None`, which `ChatRoute.CheckInput` answers with the 400 `Invalid request body` (app/src/server/routes/chat.ts:24-29). `conversationId` is passed through and not modelled.
- **Session**: `getSession` always returns the fixed demonstration session, so the 401 branch (app/src/server/routes/chat.ts:19-22) cannot occur and is not modelled.
- **Pool plumbing**: pool construction, `getSchemaMetadata`, `healthCheck` and pool exhaustion are not modelled. The schema metadata is given as a value.
- **Route handlers**: the route handlers other than `/api/chat`, and the thin route files, are SQL text and database calls. Only their pagination arithmetic, in query-builder.ts, is modelled.
- **React rendering**: JSX and the other React components are not modelled.
  - `toLocaleDateString` in `formatValue` is not modelled.
  - `localeCompare` is an abstract comparison parameter. The sort is proved to be a permutation and ordered; its stability is not stated.
  - `pageSize` is taken as positive.
- **Badge colours**: the lookup treats only the listed labels as keys. Prototype property names such as `constructor` are not modelled.
- **JavaScript values**: `undefined` and `null` are one "missing" case, except where the code tells them apart. `parseInt` yielding NaN is not modelled; the pagination inputs are integers. Object keys keep insertion order. JavaScript's `Object.keys` (app/src/client/components/ResultsTable.tsx:57) lists integer-like keys such as `2024` first, in ascending order; that reordering of the result columns is not modelled.
- **`MAX_ROWS` as a bound**: app/src/shared/constants/index.ts:102 describes `MAX_ROWS` as the most rows any single query returns. The code does not keep that promise, and neither does the model. The gate wraps only a statement without a top-level LIMIT (app/src/server/validators/sql-validator.ts:161-165, 275-279). A statement with its own LIMIT runs as written, whatever the value: `LIMIT 100000` returns up to 100000 rows and `LIMIT ALL` returns every row. The parse tree here does not carry the LIMIT's value, and `SqlGateExamples.OwnLimitKept` proves that such a statement is kept. No row bound is proved for these statements.
- **Constants tests**: the expectations in app/tests/shared/constants.test.ts:22-50 and 173-178 disagree with the constants themselves, so the model follows the constants.
- **SQL-only ingestion logic**: identity_resolver.py, grants_backfill.py and seed_cloud_resources.py are SQL text run by PostgreSQL. Post-processing is modelled only as two result dictionaries merged in order.
- **Other providers and entrypoints**: the google_workspace and aws_organizations providers, the Lambda and Cloud Run entrypoints and the logging configuration are not modelled.
- **Scheduler**: APScheduler's threads, its trigger timing and its job error listener are not modelled. Only the retry loop and which jobs are registered are modelled.
- **CLI**: `main` argument parsing, the `scheduler` command and `load_dotenv` are not modelled.
- Cli.GetProvider: a provider constructor that raises (a missing key file, a client error) is not modelled as a separate outcome. In `cmd_sync` its error propagates exactly as a failing sync's does, so the `fails` parameter of `Cli.SyncAll` covers it. In the scheduler, where the difference matters, `Scheduler.SyncProvider` models it as an escaping error.
- **Ingestion database**: a failing commit of a sync-run tracking row is not modelled. `get_recent_runs` is modelled only as the query the `status` command asks for (tenant, provider filter, limit). Its SQL and the printing of its rows are not modelled.
- **Python `int()`**: only optional sign, digits and surrounding white space are modelled. Underscores and non-ASCII digits are not.
- **Error plumbing**: exception chaining, log messages and the wording of HTTP errors raised by `raise_for_status` are not modelled.
- **Post-process results**: results are maps, merged with later keys winning. The key order of the Python dict is not modelled.
- **Cloud API calls**: the requests session, boto3 and the Google clients are sequences of replies given to the model. The counts returned by the upsert loops are not modelled.
- **GitHub**
  - `GithubOrg.Paginate`: the replies are a finite sequence, and a walk that runs out of them ends as `Unfinished`. Pagination against an endless server is not modelled.
  - The `X-RateLimit-Reset` header is given as an already parsed number.
  - Non-dict `permissions` values are not modelled.
  - The upsert mappers of `_sync_org` other than the permission and collaborator rules are not modelled.
- **AWS**
  - Records are JSON-like objects. Non-dict records, and `Emails` or pages that are not lists, are not modelled.
  - The `TypeError` an unhashable ARN would raise is not modelled.
  - The per-group and per-account API loops are sequences of replies.
- **GCP**
  - A binding's condition counts as present exactly when the reply has one, so proto truthiness is not modelled.
  - Labels and the raw JSON of projects are not modelled.
  - Credentials are not modelled.
  - `_sync_projects`' search call and the `SELECT` of project ids are given as values.
- **Ingestion defaults**: the defaults are modelled through `IngestionConfig.IntSetting`, whose default text is the decimal rendering of the default number.

## Findings

| source | as written | input that shows it | evidently intended | confidence | as-written member | corrected member |
|---|---|---|---|---|---|---|
| app/src/server/validators/sql-validator.ts:226-242 | every top-level CTE name is removed from the referenced tables, including a reference in the CTE's own non-recursive body, where the name still means the real table | `WITH pg_user AS (SELECT FROM pg_user) SELECT FROM pg_user LIMIT 5` reads the catalogue view `pg_user` and is accepted | a name is excluded only where it refers to the CTE, so a real table read inside the body is checked | not executed | SqlGateExamples.ShadowedCatalogueAccepted | SqlGateProperties.RelationRefsReported |
| app/src/server/validators/sql-validator.ts:258-263 | the block-list is compared with the whole dotted function name | `SELECT pg_catalog.set_config('role','x',false) LIMIT 1` calls the blocked `set_config` and is accepted | a schema-qualified call of a blocked function is blocked too | not executed | SqlGateExamples.QualifiedBlockedCallAccepted | SqlGateProperties.AstValidCallsSafe |
| scripts/ingestion/db.py:82-83 | `upsert_batch` returns `cur.rowcount` after `execute_values`, which sends one statement per 500 rows, so only the last statement is counted | 501 rows whose statements affect 500 and 1 rows return 1 | the number of rows affected by all the statements | not executed | IngestionDb.UndercountExample | IngestionDb.UpsertCount |

The gate, the agent and the chat route take the rules as a parameter. `Rules.AsWritten` is the code as written, and the server's route is that instance. `Rules.Corrected` repairs both gate findings. The properties that need the repair say so and are stated for `Corrected` only: `ValidMeansSafe`, `RelationRefsReported`, `AstValidTablesSafe` and `AstValidCallsSafe`. `ChatRoute.ShadowedCatalogueAnswered` and `ChatRoute.QualifiedBlockedCallAnswered` follow both findings to the HTTP reply: 200 with the server's gate, 500 with the corrected one. For the upsert count, `IngestionDb.UpsertCountAgrees` proves that both definitions agree up to 500 rows.
