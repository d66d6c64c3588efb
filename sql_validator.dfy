/**
 * The SQL safety gate: the verdict on a model-generated statement before it may run against the
 * tenant database. The stages are comment stripping, the pre-parse keyword screen, parsing (an
 * external parser, passed in as a function), the single-SELECT check, the table allow-list and
 * system-prefix checks, the function block-list, and the wrapper added when there is no LIMIT.
 *
 * Two stages are given in two versions, selected by `Rules`: `AsWritten` follows the
 * repository's code exactly; `Corrected` repairs the two gaps recorded under Findings in the
 * README (CTE names hiding real relations, and schema-qualified blocked functions). Every
 * operation of the gate, and every caller of it, takes the rules as a parameter: with `AsWritten`
 * it is the server's gate, with `Corrected` the proposed repair.
 */
module SqlValidator {
  import opened Base
  import opened Text
  import opened SqlText
  import opened SqlAst
  import opened Registry

  /** What the parser returns: an error (with its message, when it is an Error object) or the statements. */
  datatype ParseOutcome = ParseError(message: Option<string>) | Parsed(stmts: seq<Node>)

  datatype Rules = AsWritten | Corrected

  /** The validation result; absent fields are `None`. */
  datatype Verdict = Verdict(
    valid: bool,
    errors: seq<string>,
    sanitisedSql: Option<string>,
    statementType: Option<string>,
    tablesReferenced: Option<seq<string>>,
    functionsUsed: Option<seq<string>>)

  function Reject(errors: seq<string>): Verdict
  {
    Verdict(false, errors, None, None, None, None)
  }

  // ---------------------------------------------------------------------------
  // Insertion-ordered sets (JavaScript `Set`)
  // ---------------------------------------------------------------------------

  function Insert(items: seq<string>, x: string): seq<string>
  {
    if x in items then items else items + [x]
  }

  /** Inserting the elements of `xs` one after the other. */
  function InsertAll(items: seq<string>, xs: seq<string>): seq<string>
    decreases |xs|
  {
    if xs == [] then items else InsertAll(Insert(items, xs[0]), xs[1..])
  }

  /** `Array.from(new Set(xs))`: first occurrences, in order. */
  function Dedup(xs: seq<string>): seq<string>
  {
    InsertAll([], xs)
  }

  lemma {:induction false} InsertAllAppend(items: seq<string>, a: seq<string>, b: seq<string>)
    ensures InsertAll(items, a + b) == InsertAll(InsertAll(items, a), b)
    decreases |a|
  {
    if a == [] {
      assert a + b == b;
    } else {
      assert (a + b)[0] == a[0];
      assert (a + b)[1..] == a[1..] + b;
      InsertAllAppend(Insert(items, a[0]), a[1..], b);
    }
  }

  /** The inserted set holds exactly the old elements and the new ones, each once, old ones first. */
  lemma {:induction false} InsertAllContents(items: seq<string>, xs: seq<string>)
    ensures forall x :: x in InsertAll(items, xs) <==> x in items || x in xs
    ensures NoDup(items) ==> NoDup(InsertAll(items, xs))
    ensures |items| <= |InsertAll(items, xs)| && InsertAll(items, xs)[..|items|] == items
    decreases |xs|
  {
    if xs != [] {
      var next := Insert(items, xs[0]);
      InsertAllContents(next, xs[1..]);
      assert xs == [xs[0]] + xs[1..];
      assert next[..|items|] == items;
      var r := InsertAll(next, xs[1..]);
      assert r[..|items|] == r[..|next|][..|items|];
    }
  }

  lemma DedupContents(xs: seq<string>)
    ensures forall x :: x in Dedup(xs) <==> x in xs
    ensures NoDup(Dedup(xs))
  {
    InsertAllContents([], xs);
  }

  /** The elements of `xs` not in `excluded`, in order: `xs.filter(t => !excluded.has(t))`. */
  function Without(xs: seq<string>, excluded: set<string>): (r: seq<string>)
    ensures forall x :: x in r <==> x in xs && x !in excluded
  {
    if xs == [] then [] else
      var x := xs[|xs| - 1];
      Without(xs[..|xs| - 1], excluded) + (if x in excluded then [] else [x])
  }

  /** A JavaScript `Set<string>` filled in place. */
  class OrderedSet {
    var items: seq<string>

    ghost predicate Valid()
      reads this
    {
      NoDup(items)
    }

    constructor()
      ensures items == [] && Valid()
    {
      items := [];
    }

    method Add(x: string)
      requires Valid()
      modifies this
      ensures items == Insert(old(items), x) && Valid()
    {
      if x !in items {
        items := items + [x];
      }
    }
  }

  // ---------------------------------------------------------------------------
  // What the gate collects
  // ---------------------------------------------------------------------------

  /** The CTE names of a top-level SELECT, lower-cased, as the repository collects them. */
  function LowerCteNames(root: Node): set<string>
  {
    if root.SelectStmt? then set c | c in CteNames(root.ctes) :: Lower(c) else {}
  }

  /** Table names of the root's subtree, each kid with the CTE names PostgreSQL has in scope there. */
  function RootTableRefs(root: Node): seq<string>
  {
    OwnTable(root, {}) + RootTableRefsFrom(root, 0)
  }

  function RootTableRefsFrom(root: Node, i: nat): seq<string>
    requires i <= |Kids(root)|
    decreases |Kids(root)| - i
  {
    if i == |Kids(root)| then []
    else TableRefs(Kids(root)[i], KidScope(root, {}, i)) + RootTableRefsFrom(root, i + 1)
  }

  /**
   * `tablesReferenced`: the collected table names with CTE names taken out (as written) or with
   * each reference resolved in its own scope (corrected); either way each name is listed once.
   */
  function TablesReferenced(root: Node, rules: Rules): (r: seq<string>)
    ensures NoDup(r)
  {
    match rules
    case AsWritten =>
      var d := Dedup(TableRefs(root, {}));
      DedupContents(TableRefs(root, {}));
      WithoutNoDup(d, LowerCteNames(root));
      Without(d, LowerCteNames(root))
    case Corrected =>
      DedupContents(RootTableRefs(root));
      Dedup(RootTableRefs(root))
  }

  /** Taking names out keeps a list duplicate-free. */
  lemma {:induction false} WithoutNoDup(xs: seq<string>, excluded: set<string>)
    requires NoDup(xs)
    ensures NoDup(Without(xs, excluded))
    decreases |xs|
  {
    if xs != [] {
      var init := xs[..|xs| - 1];
      var x := xs[|xs| - 1];
      assert x !in init && NoDup(init);
      WithoutNoDup(init, excluded);
      var w := Without(init, excluded);
      if x !in excluded {
        assert x !in w;
        NoDupSnoc(w, x);
        assert Without(xs, excluded) == w + [x];
      } else {
        assert Without(xs, excluded) == w;
      }
    }
  }

  /** `functionsUsed`: the collected function names. */
  function FunctionsUsed(root: Node): seq<string>
  {
    Dedup(FuncRefs(root))
  }

  /** The unqualified part of a dotted name. */
  function LastSegment(f: string): string
  {
    match LastIndexOfChar(f, '.')
    case None => f
    case Some(i) => f[i + 1..]
  }

  /** No blocked name contains a dot, so each is its own unqualified part. */
  lemma BlockedNameUnqualified(f: string)
    ensures IsBlockedFunctionName(f) ==> '.' !in f && LastSegment(f) == f
  {
    if IsBlockedFunctionName(f) {
      BlockedFunctionsUnqualified(f);
    }
  }

  /**
   * Whether a call is refused: a listed name itself is refused under either rules, and the
   * server's rules never refuse a schema-qualified name.
   */
  predicate IsBlockedFunction(f: string, rules: Rules): (b: bool)
    ensures IsBlockedFunctionName(f) ==> b
    ensures rules == AsWritten && b ==> '.' !in f
  {
    BlockedNameUnqualified(f);
    match rules
    case AsWritten => IsBlockedFunctionName(f)
    case Corrected => IsBlockedFunctionName(LastSegment(f))
  }

  function SystemTableMessage(t: string): string
  {
    "Access to system table '" + t + "' is not permitted"
  }

  function NotAllowedMessage(t: string): string
  {
    "Table '" + t + "' is not in the allowed list"
  }

  function FunctionMessage(f: string): string
  {
    "Function '" + f + "' is not permitted"
  }

  /** The table errors, table by table: the system-prefix error before the allow-list error. */
  function TableErrors(ts: seq<string>): seq<string>
  {
    if ts == [] then []
    else
      var t := ts[|ts| - 1];
      TableErrors(ts[..|ts| - 1])
      + (if HasBlockedPrefix(t) then [SystemTableMessage(t)] else [])
      + (if !IsAllowedTable(t) then [NotAllowedMessage(t)] else [])
  }

  function FunctionErrors(fs: seq<string>, rules: Rules): seq<string>
  {
    if fs == [] then []
    else
      var f := fs[|fs| - 1];
      FunctionErrors(fs[..|fs| - 1], rules)
      + (if IsBlockedFunction(f, rules) then [FunctionMessage(f)] else [])
  }

  /** Only a SELECT statement carries a LIMIT. */
  predicate HasLimitClause(root: Node): (b: bool)
    ensures b ==> Kind(root) == "SelectStmt"
  {
    root.SelectStmt? && root.limitCount.Some?
  }

  /** The bounded outer query put around a statement without LIMIT. */
  function LimitWrapped(sql: string): (r: string)
    ensures Contains(r, sql) && |r| > |sql|
  {
    var tail := ") AS _inner LIMIT " + NatToString(MaxRows);
    ContainsInfix("SELECT * FROM (", sql, tail);
    assert "SELECT * FROM (" + sql + tail == "SELECT * FROM (" + sql + ") AS _inner LIMIT " + NatToString(MaxRows);
    "SELECT * FROM (" + sql + ") AS _inner LIMIT " + NatToString(MaxRows)
  }

  function SanitisedSql(sql: string, root: Node): string
  {
    if HasLimitClause(root) then sql else LimitWrapped(sql)
  }

  /**
   * The verdict on a single SELECT statement, from its tree onwards: valid exactly when there are
   * no errors, and exactly then with SQL to run; the statement's kind is always reported.
   */
  function AstVerdict(sql: string, root: Node, rules: Rules): (v: Verdict)
    ensures v.valid <==> v.errors == []
    ensures v.valid <==> v.sanitisedSql.Some?
    ensures v.statementType == Some(Kind(root))
  {
    var tables := TablesReferenced(root, rules);
    var funcs := FunctionsUsed(root);
    var errors := TableErrors(tables) + FunctionErrors(funcs, rules);
    if errors != [] then Verdict(false, errors, None, Some(Kind(root)), Some(tables), Some(funcs))
    else Verdict(true, [], Some(SanitisedSql(sql, root)), Some(Kind(root)), Some(tables), Some(funcs))
  }

  function ParseErrorMessage(m: Option<string>): string
  {
    "SQL parse error: " + m.GetOr("Unknown parse error")
  }

  function NotSelectMessage(kind: string): string
  {
    "Only SELECT statements are permitted (got " + kind + ")"
  }

  /** The verdict once the parser has answered. */
  function ParsedVerdict(sql: string, outcome: ParseOutcome, rules: Rules): (v: Verdict)
    ensures v.valid <==> v.errors == []
    ensures v.valid <==> v.sanitisedSql.Some?
    ensures v.valid ==> v.statementType == Some("SelectStmt")
  {
    match outcome
    case ParseError(m) => Reject([ParseErrorMessage(m)])
    case Parsed(stmts) =>
      if |stmts| == 0 then Reject(["No valid SQL statement found"])
      else if |stmts| > 1 then Reject([MultipleStatementsMessage])
      else if Kind(stmts[0]) != "SelectStmt" then Reject([NotSelectMessage(Kind(stmts[0]))])
      else AstVerdict(sql, stmts[0], rules)
  }

  const EmptyMessage := "Empty SQL after stripping comments"

  /**
   * `validateSql(rawSql)`, with the parser given as `parse`: valid exactly when there are no
   * errors, and exactly then with SQL to run; only a SELECT is ever valid.
   */
  function Validate(raw: string, parse: string -> ParseOutcome, rules: Rules): (v: Verdict)
    ensures v.valid <==> v.errors == []
    ensures v.valid <==> v.sanitisedSql.Some?
    ensures v.valid ==> v.statementType == Some("SelectStmt")
  {
    var sql := StripComments(raw);
    if sql == "" then Reject([EmptyMessage])
    else
      var keywordErrors := KeywordErrors(sql);
      if keywordErrors != [] then Reject(keywordErrors)
      else ParsedVerdict(sql, parse(sql), rules)
  }

  // ---------------------------------------------------------------------------
  // The gate, step by step
  // ---------------------------------------------------------------------------

  lemma InsertAllOne(items: seq<string>, x: string)
    ensures InsertAll(items, [x]) == Insert(items, x)
  {
    assert [x][1..] == [];
  }

  /** Inserting a node's own name, then those of its kids, is inserting all of its names. */
  lemma TableRefsStart(items: seq<string>, n: Node, scope: set<string>)
    ensures InsertAll(InsertAll(items, OwnTable(n, scope)), TableRefsFrom(n, scope, 0))
      == InsertAll(items, TableRefs(n, scope))
  {
    InsertAllAppend(items, OwnTable(n, scope), TableRefsFrom(n, scope, 0));
  }

  /** Inserting the names of kid `i`, then those of the later kids, is inserting those from `i`. */
  lemma TableRefsStep(items: seq<string>, n: Node, scope: set<string>, i: nat)
    requires i < |Kids(n)|
    ensures InsertAll(InsertAll(items, TableRefs(Kids(n)[i], scope)), TableRefsFrom(n, scope, i + 1))
      == InsertAll(items, TableRefsFrom(n, scope, i))
  {
    InsertAllAppend(items, TableRefs(Kids(n)[i], scope), TableRefsFrom(n, scope, i + 1));
  }

  lemma RootTableRefsStart(items: seq<string>, root: Node)
    ensures InsertAll(InsertAll(items, OwnTable(root, {})), RootTableRefsFrom(root, 0))
      == InsertAll(items, RootTableRefs(root))
  {
    InsertAllAppend(items, OwnTable(root, {}), RootTableRefsFrom(root, 0));
  }

  lemma RootTableRefsStep(items: seq<string>, root: Node, i: nat)
    requires i < |Kids(root)|
    ensures InsertAll(InsertAll(items, TableRefs(Kids(root)[i], KidScope(root, {}, i))), RootTableRefsFrom(root, i + 1))
      == InsertAll(items, RootTableRefsFrom(root, i))
  {
    InsertAllAppend(items, TableRefs(Kids(root)[i], KidScope(root, {}, i)), RootTableRefsFrom(root, i + 1));
  }

  lemma FuncRefsStart(items: seq<string>, n: Node)
    ensures InsertAll(InsertAll(items, OwnFunction(n)), FuncRefsFrom(n, 0)) == InsertAll(items, FuncRefs(n))
  {
    InsertAllAppend(items, OwnFunction(n), FuncRefsFrom(n, 0));
  }

  lemma FuncRefsStep(items: seq<string>, n: Node, i: nat)
    requires i < |Kids(n)|
    ensures InsertAll(InsertAll(items, FuncRefs(Kids(n)[i])), FuncRefsFrom(n, i + 1))
      == InsertAll(items, FuncRefsFrom(n, i))
  {
    KidsSmaller(n, i);
    InsertAllAppend(items, FuncRefs(Kids(n)[i]), FuncRefsFrom(n, i + 1));
  }

  /** Walks the subtree and adds the name of every table reference not bound by `scope`. */
  method ExtractTableRefs(n: Node, scope: set<string>, tables: OrderedSet)
    requires tables.Valid()
    modifies tables
    ensures tables.Valid()
    ensures tables.items == InsertAll(old(tables.items), TableRefs(n, scope))
    decreases n
  {
    if n.RangeVar? && !Bound(n, scope) {
      tables.Add(TableName(n.schemaname, n.relname));
      InsertAllOne(old(tables.items), TableName(n.schemaname, n.relname));
    }
    TableRefsStart(old(tables.items), n, scope);
    var ks := Kids(n);
    var i := 0;
    while i < |ks|
      invariant 0 <= i <= |ks| && tables.Valid()
      invariant InsertAll(tables.items, TableRefsFrom(n, scope, i))
        == InsertAll(old(tables.items), TableRefs(n, scope))
    {
      KidsSmaller(n, i);
      TableRefsStep(tables.items, n, scope, i);
      ExtractTableRefs(ks[i], scope, tables);
      i := i + 1;
    }
  }

  /** The corrected walk: each kid of the root gets the CTE names PostgreSQL has in scope there. */
  method ExtractScopedTables(root: Node, tables: OrderedSet)
    requires tables.Valid()
    modifies tables
    ensures tables.Valid()
    ensures tables.items == InsertAll(old(tables.items), RootTableRefs(root))
  {
    if root.RangeVar? {
      tables.Add(TableName(root.schemaname, root.relname));
      InsertAllOne(old(tables.items), TableName(root.schemaname, root.relname));
    }
    RootTableRefsStart(old(tables.items), root);
    var ks := Kids(root);
    var i := 0;
    while i < |ks|
      invariant 0 <= i <= |ks| && tables.Valid()
      invariant InsertAll(tables.items, RootTableRefsFrom(root, i))
        == InsertAll(old(tables.items), RootTableRefs(root))
    {
      var scope := KidScope(root, {}, i);
      RootTableRefsStep(tables.items, root, i);
      ExtractTableRefs(ks[i], scope, tables);
      i := i + 1;
    }
  }

  /** The loop over the WITH list of a top-level SELECT, adding each named entry's lower-cased name. */
  method CollectCteNames(root: Node) returns (cteNames: set<string>)
    ensures cteNames == LowerCteNames(root)
  {
    cteNames := {};
    if root.SelectStmt? {
      var ctes := root.ctes;
      var i := 0;
      while i < |ctes|
        invariant 0 <= i <= |ctes|
        invariant cteNames == set c | c in CteNames(ctes[..i]) :: Lower(c)
      {
        assert ctes[..i + 1][..i] == ctes[..i];
        if ctes[i].CommonTableExpr? && ctes[i].ctename != "" {
          cteNames := cteNames + {Lower(ctes[i].ctename)};
        }
        i := i + 1;
      }
      assert ctes[..i] == ctes;
    }
  }

  /**
   * Step 5's collection: as written, every table reference of the tree with the top-level CTE
   * names filtered out afterwards; corrected, the scoped walk.
   */
  method ExtractStatementTables(root: Node, rules: Rules) returns (tablesReferenced: seq<string>)
    ensures tablesReferenced == TablesReferenced(root, rules)
  {
    var tables := new OrderedSet();
    if rules == AsWritten {
      ExtractTableRefs(root, {}, tables);
      var cteNames := CollectCteNames(root);
      tablesReferenced := Without(tables.items, cteNames);
    } else {
      ExtractScopedTables(root, tables);
      tablesReferenced := tables.items;
    }
  }

  /** Walks the subtree and adds the name of every call with a non-empty name. */
  method ExtractFunctionCalls(n: Node, funcs: OrderedSet)
    requires funcs.Valid()
    modifies funcs
    ensures funcs.Valid()
    ensures funcs.items == InsertAll(old(funcs.items), FuncRefs(n))
    decreases n
  {
    if n.FuncCall? && n.funcname.Some? {
      var name := FunctionName(n.funcname.value);
      if name != "" {
        funcs.Add(name);
        InsertAllOne(old(funcs.items), name);
      }
    }
    FuncRefsStart(old(funcs.items), n);
    var ks := Kids(n);
    var i := 0;
    while i < |ks|
      invariant 0 <= i <= |ks| && funcs.Valid()
      invariant InsertAll(funcs.items, FuncRefsFrom(n, i)) == InsertAll(old(funcs.items), FuncRefs(n))
    {
      KidsSmaller(n, i);
      FuncRefsStep(funcs.items, n, i);
      ExtractFunctionCalls(ks[i], funcs);
      i := i + 1;
    }
  }

  /** The table checks, one table after the other. */
  method CheckTables(tablesReferenced: seq<string>) returns (errors: seq<string>)
    ensures errors == TableErrors(tablesReferenced)
  {
    errors := [];
    var i := 0;
    while i < |tablesReferenced|
      invariant 0 <= i <= |tablesReferenced|
      invariant errors == TableErrors(tablesReferenced[..i])
    {
      var table := tablesReferenced[i];
      assert tablesReferenced[..i + 1][..i] == tablesReferenced[..i];
      if HasBlockedPrefix(table) {
        errors := errors + [SystemTableMessage(table)];
      }
      if !IsAllowedTable(table) {
        errors := errors + [NotAllowedMessage(table)];
      }
      i := i + 1;
    }
    assert tablesReferenced[..i] == tablesReferenced;
  }

  /**
   * The function check, one name after the other: as written on the whole (possibly dotted) name,
   * corrected on its unqualified part.
   */
  method CheckFunctions(functionsUsed: seq<string>, rules: Rules) returns (errors: seq<string>)
    ensures errors == FunctionErrors(functionsUsed, rules)
  {
    errors := [];
    var j := 0;
    while j < |functionsUsed|
      invariant 0 <= j <= |functionsUsed|
      invariant errors == FunctionErrors(functionsUsed[..j], rules)
    {
      var func := functionsUsed[j];
      assert functionsUsed[..j + 1][..j] == functionsUsed[..j];
      var blocked := if rules == AsWritten then IsBlockedFunctionName(func) else IsBlockedFunctionName(LastSegment(func));
      if blocked {
        errors := errors + [FunctionMessage(func)];
      }
      j := j + 1;
    }
    assert functionsUsed[..j] == functionsUsed;
  }

  /** Steps 5 to 7 on a statement that is a SELECT. */
  method ValidateStatement(sql: string, stmt: Node, rules: Rules) returns (r: Verdict)
    ensures r == AstVerdict(sql, stmt, rules)
  {
    var stmtType := Kind(stmt);
    var tablesReferenced := ExtractStatementTables(stmt, rules);
    var tableErrors := CheckTables(tablesReferenced);

    var funcs := new OrderedSet();
    ExtractFunctionCalls(stmt, funcs);
    var functionsUsed := funcs.items;
    var functionErrors := CheckFunctions(functionsUsed, rules);

    var errors := tableErrors + functionErrors;
    if |errors| > 0 {
      r := Verdict(false, errors, None, Some(stmtType), Some(tablesReferenced), Some(functionsUsed));
      return;
    }
    var sanitisedSql := sql;
    if !HasLimitClause(stmt) {
      sanitisedSql := LimitWrapped(sql);
    }
    r := Verdict(true, [], Some(sanitisedSql), Some(stmtType), Some(tablesReferenced), Some(functionsUsed));
  }

  /** `validateSql`: `AsWritten` is the server's gate, `Corrected` the repaired one. */
  method ValidateSql(raw: string, parse: string -> ParseOutcome, rules: Rules) returns (r: Verdict)
    ensures r == Validate(raw, parse, rules)
  {
    var sql := StripComments(raw);
    if sql == "" {
      r := Reject([EmptyMessage]);
      return;
    }
    var keywordErrors := CheckBlockedKeywords(sql);
    if |keywordErrors| > 0 {
      r := Reject(keywordErrors);
      return;
    }
    var outcome := parse(sql);
    if outcome.ParseError? {
      r := Reject([ParseErrorMessage(outcome.message)]);
      return;
    }
    var stmts := outcome.stmts;
    if |stmts| == 0 {
      r := Reject(["No valid SQL statement found"]);
      return;
    }
    if |stmts| > 1 {
      r := Reject([MultipleStatementsMessage]);
      return;
    }
    var stmt := stmts[0];
    var stmtType := Kind(stmt);
    if stmtType != "SelectStmt" {
      r := Reject([NotSelectMessage(stmtType)]);
      return;
    }
    r := ValidateStatement(sql, stmt, rules);
  }
}
