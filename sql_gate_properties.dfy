/**
 * What the SQL gate guarantees: the shape of its verdicts, the short-circuits of the early
 * stages, the meaning of every error, the safety of a valid verdict, and the relation between the
 * repository's table and function checks and the corrected ones.
 */
module SqlGateProperties {
  import opened Base
  import opened Text
  import opened SqlText
  import opened SqlAst
  import opened Registry
  import opened SqlValidator

  // ---------------------------------------------------------------------------
  // Shape of a verdict and the early stages
  // ---------------------------------------------------------------------------

  /**
   * An empty stripped text, or a failed keyword screen, decides the verdict before the parser:
   * every parser gives the same verdict, whose errors are exactly the screen's.
   */
  lemma PreScreenIgnoresParser(raw: string, p1: string -> ParseOutcome, p2: string -> ParseOutcome, rules: Rules)
    requires var sql := StripComments(raw); sql == "" || KeywordErrors(sql) != []
    ensures Validate(raw, p1, rules) == Validate(raw, p2, rules)
    ensures var sql := StripComments(raw); var v := Validate(raw, p1, rules);
      !v.valid && v.errors == (if sql == "" then [EmptyMessage] else KeywordErrors(sql))
  {
  }

  /**
   * A parse failure, no statement, several statements or one statement that is not a SELECT
   * each give an invalid verdict with a single error and no statement details; for a single
   * statement of another kind the error names that kind.
   */
  lemma SingleErrorRejections(raw: string, parse: string -> ParseOutcome, rules: Rules)
    requires var sql := StripComments(raw); sql != "" && KeywordErrors(sql) == []
    requires var o := parse(StripComments(raw));
      !(o.Parsed? && |o.stmts| == 1 && Kind(o.stmts[0]) == "SelectStmt")
    ensures var v := Validate(raw, parse, rules);
      !v.valid && |v.errors| == 1 && v.statementType.None? && v.tablesReferenced.None?
    ensures var o := parse(StripComments(raw)); var v := Validate(raw, parse, rules);
      o.Parsed? && |o.stmts| == 1 ==> Contains(v.errors[0], Kind(o.stmts[0]))
  {
    var o := parse(StripComments(raw));
    if o.Parsed? && |o.stmts| == 1 {
      var k := Kind(o.stmts[0]);
      ContainsInfix("Only SELECT statements are permitted (got ", k, ")");
    }
  }

  // ---------------------------------------------------------------------------
  // Meaning of the errors
  // ---------------------------------------------------------------------------

  lemma MessageInjective(p: string, q: string, t: string, u: string)
    requires p + t + q == p + u + q
    ensures t == u
  {
    assert t == (p + t + q)[|p|..|p| + |t|];
    assert u == (p + u + q)[|p|..|p| + |u|];
  }

  /** The three kinds of message never coincide, and each names its table or function. */
  lemma MessagesDistinct(t: string, u: string)
    ensures SystemTableMessage(t) != NotAllowedMessage(u)
    ensures SystemTableMessage(t) != FunctionMessage(u)
    ensures NotAllowedMessage(t) != FunctionMessage(u)
    ensures SystemTableMessage(t) == SystemTableMessage(u) ==> t == u
    ensures NotAllowedMessage(t) == NotAllowedMessage(u) ==> t == u
    ensures FunctionMessage(t) == FunctionMessage(u) ==> t == u
  {
    assert SystemTableMessage(t)[0] == 'A';
    assert NotAllowedMessage(u)[0] == 'T' && NotAllowedMessage(t)[0] == 'T';
    assert FunctionMessage(u)[0] == 'F';
    if SystemTableMessage(t) == SystemTableMessage(u) {
      MessageInjective("Access to system table '", "' is not permitted", t, u);
    }
    if NotAllowedMessage(t) == NotAllowedMessage(u) {
      MessageInjective("Table '", "' is not in the allowed list", t, u);
    }
    if FunctionMessage(t) == FunctionMessage(u) {
      MessageInjective("Function '", "' is not permitted", t, u);
    }
  }

  lemma {:induction false} TableErrorsIff(ts: seq<string>, x: string)
    ensures x in TableErrors(ts) <==>
      exists t :: t in ts && ((HasBlockedPrefix(t) && x == SystemTableMessage(t))
                           || (!IsAllowedTable(t) && x == NotAllowedMessage(t)))
    decreases |ts|
  {
    if ts != [] {
      TableErrorsIff(ts[..|ts| - 1], x);
      assert ts == ts[..|ts| - 1] + [ts[|ts| - 1]];
    }
  }

  lemma {:induction false} FunctionErrorsIff(fs: seq<string>, rules: Rules, x: string)
    ensures x in FunctionErrors(fs, rules) <==>
      exists f :: f in fs && IsBlockedFunction(f, rules) && x == FunctionMessage(f)
    decreases |fs|
  {
    if fs != [] {
      FunctionErrorsIff(fs[..|fs| - 1], rules, x);
      assert fs == fs[..|fs| - 1] + [fs[|fs| - 1]];
    }
  }

  /**
   * Every violation is reported and every report is a violation: a table gets the system-table
   * error iff it has a catalogue prefix, the allow-list error iff it is not allowed, and a function
   * its error iff it is blocked; all of them accumulate in one verdict.
   */
  lemma AstErrorsIff(sql: string, root: Node, rules: Rules, t: string)
    ensures var v := AstVerdict(sql, root, rules);
      var tables := TablesReferenced(root, rules);
      var funcs := FunctionsUsed(root);
      (SystemTableMessage(t) in v.errors <==> t in tables && HasBlockedPrefix(t))
      && (NotAllowedMessage(t) in v.errors <==> t in tables && !IsAllowedTable(t))
      && (FunctionMessage(t) in v.errors <==> t in funcs && IsBlockedFunction(t, rules))
  {
    var tables := TablesReferenced(root, rules);
    var funcs := FunctionsUsed(root);
    SystemErrorIff(tables, funcs, rules, t);
    NotAllowedErrorIff(tables, funcs, rules, t);
    FunctionErrorIff(tables, funcs, rules, t);
  }

  lemma SystemErrorIff(tables: seq<string>, funcs: seq<string>, rules: Rules, t: string)
    ensures SystemTableMessage(t) in TableErrors(tables) + FunctionErrors(funcs, rules)
      <==> t in tables && HasBlockedPrefix(t)
  {
    TableErrorsIff(tables, SystemTableMessage(t));
    FunctionErrorsIff(funcs, rules, SystemTableMessage(t));
    forall u ensures SystemTableMessage(t) != NotAllowedMessage(u) && SystemTableMessage(t) != FunctionMessage(u)
      && (SystemTableMessage(t) == SystemTableMessage(u) ==> t == u)
    {
      MessagesDistinct(t, u);
    }
  }

  lemma NotAllowedErrorIff(tables: seq<string>, funcs: seq<string>, rules: Rules, t: string)
    ensures NotAllowedMessage(t) in TableErrors(tables) + FunctionErrors(funcs, rules)
      <==> t in tables && !IsAllowedTable(t)
  {
    TableErrorsIff(tables, NotAllowedMessage(t));
    FunctionErrorsIff(funcs, rules, NotAllowedMessage(t));
    forall u ensures NotAllowedMessage(t) != SystemTableMessage(u) && NotAllowedMessage(t) != FunctionMessage(u)
      && (NotAllowedMessage(t) == NotAllowedMessage(u) ==> t == u)
    {
      MessagesDistinct(t, u);
      MessagesDistinct(u, t);
    }
  }

  lemma FunctionErrorIff(tables: seq<string>, funcs: seq<string>, rules: Rules, t: string)
    ensures FunctionMessage(t) in TableErrors(tables) + FunctionErrors(funcs, rules)
      <==> t in funcs && IsBlockedFunction(t, rules)
  {
    TableErrorsIff(tables, FunctionMessage(t));
    FunctionErrorsIff(funcs, rules, FunctionMessage(t));
    forall u ensures FunctionMessage(t) != SystemTableMessage(u) && FunctionMessage(t) != NotAllowedMessage(u)
      && (FunctionMessage(t) == FunctionMessage(u) ==> t == u)
    {
      MessagesDistinct(u, t);
      MessagesDistinct(t, u);
    }
  }

  lemma TableErrorsEmpty(ts: seq<string>)
    requires TableErrors(ts) == []
    ensures forall t :: t in ts ==> IsAllowedTable(t) && !HasBlockedPrefix(t)
  {
    forall t | t in ts ensures IsAllowedTable(t) && !HasBlockedPrefix(t) {
      TableErrorsIff(ts, SystemTableMessage(t));
      TableErrorsIff(ts, NotAllowedMessage(t));
    }
  }

  lemma FunctionErrorsEmpty(fs: seq<string>, rules: Rules)
    requires FunctionErrors(fs, rules) == []
    ensures forall f :: f in fs ==> !IsBlockedFunction(f, rules)
  {
    forall f | f in fs ensures !IsBlockedFunction(f, rules) {
      FunctionErrorsIff(fs, rules, FunctionMessage(f));
    }
  }

  // ---------------------------------------------------------------------------
  // Safety of a valid verdict
  // ---------------------------------------------------------------------------

  lemma {:induction false} RootRelationRefsFromCollected(root: Node, i: nat)
    requires i <= |Kids(root)|
    ensures RelationRefsFrom(root, {}, i) <= set x | x in RootTableRefsFrom(root, i)
    decreases |Kids(root)| - i
  {
    if i < |Kids(root)| {
      KidsSmaller(root, i);
      var k := Kids(root)[i];
      var scope := KidScope(root, {}, i);
      RelationRefsCollected(k, scope);
      RootRelationRefsFromCollected(root, i + 1);
      assert RootTableRefsFrom(root, i) == TableRefs(k, scope) + RootTableRefsFrom(root, i + 1);
      SetOfAppend(TableRefs(k, scope), RootTableRefsFrom(root, i + 1));
    }
  }

  /** Every reference PostgreSQL resolves to a stored relation is among the corrected `tablesReferenced`. */
  lemma RelationRefsReported(root: Node)
    ensures forall t :: t in RelationRefs(root, {}) ==> t in TablesReferenced(root, Corrected)
  {
    RootRelationRefsFromCollected(root, 0);
    DedupContents(RootTableRefs(root));
  }

  /** The bounded query around a statement without LIMIT asks for at most 500 rows. */
  lemma LimitWrappedBound(sql: string)
    ensures LimitWrapped(sql) == "SELECT * FROM (" + sql + ") AS _inner LIMIT 500"
    ensures Contains(LimitWrapped(sql), "LIMIT 500")
  {
    assert NatToString(500) == "500";
    ContainsInfix("SELECT * FROM (" + sql + ") AS _inner ", "LIMIT 500", "");
    assert "SELECT * FROM (" + sql + ") AS _inner " + "LIMIT 500" + "" == LimitWrapped(sql);
  }

  /**
   * A valid verdict (corrected rules) means: the statement is one SELECT; every relation it reads
   * is on the allow-list and outside the system catalogues; no call's unqualified name is blocked;
   * and the SQL to run is the stripped text when it has a top-level LIMIT, else the bounded wrapper.
   */
  lemma ValidMeansSafe(raw: string, parse: string -> ParseOutcome, root: Node)
    requires parse(StripComments(raw)) == Parsed([root])
    requires Validate(raw, parse, Corrected).valid
    ensures Kind(root) == "SelectStmt"
    ensures forall t :: t in RelationRefs(root, {}) ==> IsAllowedTable(t) && !HasBlockedPrefix(t)
    ensures forall m :: m in Nodes(root) && m.FuncCall? && m.funcname.Some? && FunctionName(m.funcname.value) != "" ==>
      !IsBlockedFunctionName(LastSegment(FunctionName(m.funcname.value)))
    ensures var sql := StripComments(raw); var v := Validate(raw, parse, Corrected);
      v.errors == []
      && v.sanitisedSql == Some(if HasLimitClause(root) then sql else LimitWrapped(sql))
  {
    ValidIsAstVerdict(raw, parse, root, Corrected);
    var sql := StripComments(raw);
    AstValidTablesSafe(sql, root);
    AstValidCallsSafe(sql, root);
  }

  /** A valid verdict on a single parsed statement is the statement-level verdict on it. */
  lemma ValidIsAstVerdict(raw: string, parse: string -> ParseOutcome, root: Node, rules: Rules)
    requires parse(StripComments(raw)) == Parsed([root])
    requires Validate(raw, parse, rules).valid
    ensures Kind(root) == "SelectStmt"
    ensures Validate(raw, parse, rules) == AstVerdict(StripComments(raw), root, rules)
  {
    ValidPassedEarlyStages(raw, parse, rules);
    ValidateReachesAst(raw, parse, rules);
  }

  /**
   * Under either rules, an accepted statement reports only allowed tables outside the system
   * catalogues and only calls the rules do not block. (With `AsWritten` the reported tables need
   * not be all the relations read: see `RelationRefsReported` for the corrected rules.)
   */
  lemma AstValidReportedSafe(sql: string, root: Node, rules: Rules)
    requires AstVerdict(sql, root, rules).valid
    ensures forall t :: t in TablesReferenced(root, rules) ==> IsAllowedTable(t) && !HasBlockedPrefix(t)
    ensures forall f :: f in FunctionsUsed(root) ==> !IsBlockedFunction(f, rules)
  {
    var tables := TablesReferenced(root, rules);
    var funcs := FunctionsUsed(root);
    assert TableErrors(tables) + FunctionErrors(funcs, rules) == [];
    TableErrorsEmpty(tables);
    FunctionErrorsEmpty(funcs, rules);
  }

  /** A statement-level acceptance reads only allowed relations outside the system catalogues. */
  lemma AstValidTablesSafe(sql: string, root: Node)
    requires AstVerdict(sql, root, Corrected).valid
    ensures forall t :: t in RelationRefs(root, {}) ==> IsAllowedTable(t) && !HasBlockedPrefix(t)
  {
    var tables := TablesReferenced(root, Corrected);
    assert TableErrors(tables) == [];
    TableErrorsEmpty(tables);
    RelationRefsReported(root);
  }

  /** A statement-level acceptance calls no function whose unqualified name is blocked. */
  lemma AstValidCallsSafe(sql: string, root: Node)
    requires AstVerdict(sql, root, Corrected).valid
    ensures forall m :: m in Nodes(root) && m.FuncCall? && m.funcname.Some? && FunctionName(m.funcname.value) != "" ==>
      !IsBlockedFunctionName(LastSegment(FunctionName(m.funcname.value)))
  {
    var funcs := FunctionsUsed(root);
    assert FunctionErrors(funcs, Corrected) == [];
    FunctionErrorsEmpty(funcs, Corrected);
    DedupContents(FuncRefs(root));
    forall m | m in Nodes(root) && m.FuncCall? && m.funcname.Some? && FunctionName(m.funcname.value) != ""
      ensures !IsBlockedFunctionName(LastSegment(FunctionName(m.funcname.value)))
    {
      var f := FunctionName(m.funcname.value);
      assert Calls(m, f);
      FuncRefsIff(root, f);
    }
  }

  // ---------------------------------------------------------------------------
  // The repository's checks against the corrected ones
  // ---------------------------------------------------------------------------

  /** The repository's check never reports a name that is a (lower-cased) top-level CTE name. */
  lemma AsWrittenSkipsCteNames(root: Node)
    ensures forall t :: t in TablesReferenced(root, AsWritten) ==> t !in LowerCteNames(root)
  {
  }

  lemma {:induction false} NodesFromMember(n: Node, i: nat, m: Node)
    requires i <= |Kids(n)| && m in NodesFrom(n, i)
    ensures exists k :: i <= k < |Kids(n)| && m in Nodes(Kids(n)[k])
    decreases |Kids(n)| - i
  {
    KidsSmaller(n, i);
    if m !in Nodes(Kids(n)[i]) {
      NodesFromMember(n, i + 1, m);
    }
  }

  lemma {:induction false} CteNamesPrefix(ctes: seq<Node>, j: nat)
    requires j <= |ctes|
    ensures forall c :: c in CteNames(ctes[..j]) ==> c in CteNames(ctes)
    decreases |ctes| - j
  {
    if j < |ctes| {
      CteNamesPrefix(ctes, j + 1);
      assert ctes[..j + 1][..j] == ctes[..j];
    } else {
      assert ctes[..j] == ctes;
    }
  }

  /** The names in scope in any kid of the root are among the root's CTE names. */
  lemma KidScopeWithinCteNames(root: Node, i: nat)
    ensures forall c :: c in KidScope(root, {}, i) ==> root.SelectStmt? && c in CteNames(root.ctes)
  {
    if root.SelectStmt? && !(i < MainKidCount(root) || root.recursive) {
      var j := i - MainKidCount(root);
      CteNamesPrefix(root.ctes, if j <= |root.ctes| then j else |root.ctes|);
    }
  }

  lemma {:induction false} RootTableRefsFromHas(root: Node, i: nat, k: nat, x: string)
    requires i <= k < |Kids(root)| && x in TableRefs(Kids(root)[k], KidScope(root, {}, k))
    ensures x in RootTableRefsFrom(root, i)
    decreases k - i
  {
    if i < k {
      RootTableRefsFromHas(root, i + 1, k, x);
    }
  }

  /**
   * The corrected table list contains every name the repository's list contains: the correction
   * only ever adds table errors.
   */
  lemma AsWrittenTablesWithinCorrected(root: Node)
    ensures forall t :: t in TablesReferenced(root, AsWritten) ==> t in TablesReferenced(root, Corrected)
  {
    DedupContents(TableRefs(root, {}));
    DedupContents(RootTableRefs(root));
    forall t | t in TablesReferenced(root, AsWritten) ensures t in RootTableRefs(root) {
      TableRefsIff(root, {}, t);
      var m :| m in Nodes(root) && RefersTo(m, {}, t);
      if m == root {
        assert t in OwnTable(root, {});
      } else {
        assert m in NodesFrom(root, 0);
        NodesFromMember(root, 0, m);
        var k :| 0 <= k < |Kids(root)| && m in Nodes(Kids(root)[k]);
        KidsSmaller(root, k);
        var scope := KidScope(root, {}, k);
        KidScopeWithinCteNames(root, k);
        assert Bound(m, scope) ==> t in LowerCteNames(root);
        assert RefersTo(m, scope, t);
        TableRefsIff(Kids(root)[k], scope, t);
        RootTableRefsFromHas(root, 0, k, t);
      }
    }
  }

  /** The unqualified name of a qualified call is the part after the last dot. */
  lemma LastSegmentQualified(schema: string, name: string)
    requires '.' !in name
    ensures LastSegment(schema + "." + name) == name
  {
    var s := schema + "." + name;
    assert s[|schema|] == '.';
    assert forall k :: |schema| < k < |s| ==> s[k] == name[k - |schema| - 1];
    var r := LastIndexOfChar(s, '.');
    assert r == Some(|schema|);
    assert s[|schema| + 1..] == name;
  }

  lemma TableErrorsSubset(written: seq<string>, corrected: seq<string>)
    requires forall t :: t in written ==> t in corrected
    requires TableErrors(corrected) == []
    ensures TableErrors(written) == []
  {
    TableErrorsEmpty(corrected);
    forall x ensures x !in TableErrors(written) {
      TableErrorsIff(written, x);
    }
  }

  lemma {:induction false} FunctionErrorsWeaker(fs: seq<string>)
    requires FunctionErrors(fs, Corrected) == []
    ensures FunctionErrors(fs, AsWritten) == []
    decreases |fs|
  {
    if fs != [] {
      var f := fs[|fs| - 1];
      assert FunctionErrors(fs[..|fs| - 1], Corrected) == [];
      FunctionErrorsWeaker(fs[..|fs| - 1]);
      assert !IsBlockedFunction(f, Corrected);
    }
  }

  /** For one SELECT: a statement the corrected checks accept, the repository's checks accept too. */
  lemma AstCorrectedIsStricter(sql: string, root: Node)
    requires AstVerdict(sql, root, Corrected).valid
    ensures AstVerdict(sql, root, AsWritten).valid
    ensures AstVerdict(sql, root, AsWritten).sanitisedSql == AstVerdict(sql, root, Corrected).sanitisedSql
  {
    var funcs := FunctionsUsed(root);
    var corrected := TablesReferenced(root, Corrected);
    assert TableErrors(corrected) + FunctionErrors(funcs, Corrected) == [];
    AsWrittenTablesWithinCorrected(root);
    TableErrorsSubset(TablesReferenced(root, AsWritten), corrected);
    FunctionErrorsWeaker(funcs);
  }

  /** The statement-level checks decide the verdict once the screen passes and one SELECT parses. */
  lemma ValidateReachesAst(raw: string, parse: string -> ParseOutcome, rules: Rules)
    requires var sql := StripComments(raw); sql != "" && KeywordErrors(sql) == []
    requires var o := parse(StripComments(raw)); o.Parsed? && |o.stmts| == 1 && Kind(o.stmts[0]) == "SelectStmt"
    ensures var sql := StripComments(raw);
      Validate(raw, parse, rules) == AstVerdict(sql, parse(sql).stmts[0], rules)
  {
  }

  /** Only a single parsed SELECT that passed the screen can be valid. */
  lemma ValidPassedEarlyStages(raw: string, parse: string -> ParseOutcome, rules: Rules)
    requires Validate(raw, parse, rules).valid
    ensures var sql := StripComments(raw); sql != "" && KeywordErrors(sql) == []
    ensures var o := parse(StripComments(raw)); o.Parsed? && |o.stmts| == 1 && Kind(o.stmts[0]) == "SelectStmt"
  {
    var sql := StripComments(raw);
    if sql != "" && KeywordErrors(sql) == [] {
      ParsedVerdictValid(sql, parse(sql), rules);
    }
  }

  /** A parse with a single statement is that statement alone. */
  lemma SingleStatement(o: ParseOutcome)
    requires o.Parsed? && |o.stmts| == 1
    ensures o == Parsed([o.stmts[0]])
  {
  }

  /** Only a single SELECT statement can be accepted once the parser has answered. */
  lemma ParsedVerdictValid(sql: string, o: ParseOutcome, rules: Rules)
    requires ParsedVerdict(sql, o, rules).valid
    ensures o.Parsed? && |o.stmts| == 1 && Kind(o.stmts[0]) == "SelectStmt"
  {
  }

  /** Whatever the corrected gate accepts, the repository's gate accepts too, with the same SQL to run. */
  lemma CorrectedIsStricter(raw: string, parse: string -> ParseOutcome)
    requires Validate(raw, parse, Corrected).valid
    ensures Validate(raw, parse, AsWritten).valid
    ensures Validate(raw, parse, AsWritten).sanitisedSql == Validate(raw, parse, Corrected).sanitisedSql
  {
    var sql := StripComments(raw);
    ValidPassedEarlyStages(raw, parse, Corrected);
    var root := parse(sql).stmts[0];
    ValidateReachesAst(raw, parse, Corrected);
    ValidateReachesAst(raw, parse, AsWritten);
    AstCorrectedIsStricter(sql, root);
  }
}
