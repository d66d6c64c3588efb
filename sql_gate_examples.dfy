/**
 * The gate on concrete statement trees: the repository's own test statements, and the two
 * statements on which the repository's table and function checks let a catalogue access through.
 */
module SqlGateExamples {
  import opened Base
  import opened Text
  import opened SqlText
  import opened SqlAst
  import opened Registry
  import opened SqlValidator
  import opened SqlGateProperties

  const Limit: Option<Node> := Some(Other("A_Const", []))

  function Table(rel: string): Node
  {
    RangeVar("", rel, [])
  }

  lemma TableLeaf(rel: string, scope: set<string>)
    ensures TableRefs(Table(rel), scope) == if rel in scope then [] else [Lower(rel)]
  {
    assert TableRefsFrom(Table(rel), scope, 0) == [];
  }

  /** `WITH c AS (SELECT * FROM c) SELECT * FROM c LIMIT ...`: the CTE's body reads the relation `c`. */
  function Shadowing(c: string): Node
  {
    SelectStmt([CommonTableExpr(c, [SelectStmt([], false, None, [Table(c)])])], false, Limit, [Table(c)])
  }

  lemma ShadowingTables(c: string)
    requires c != ""
    ensures TableRefs(Shadowing(c), {}) == [Lower(c), Lower(c)]
    ensures LowerCteNames(Shadowing(c)) == {Lower(c)}
  {
    var root := Shadowing(c);
    var body := SelectStmt([], false, None, [Table(c)]);
    var cte := CommonTableExpr(c, [body]);
    TableLeaf(c, {});
    assert TableRefsFrom(body, {}, 1) == [];
    assert TableRefs(body, {}) == [Lower(c)];
    assert TableRefsFrom(cte, {}, 1) == [];
    assert TableRefs(cte, {}) == [Lower(c)];
    assert Kids(root) == [Table(c), Limit.value, cte];
    assert TableRefs(Limit.value, {}) == [] by {
      assert TableRefsFrom(Limit.value, {}, 0) == [];
    }
    assert TableRefsFrom(root, {}, 3) == [];
    assert TableRefsFrom(root, {}, 2) == [Lower(c)];
    assert TableRefsFrom(root, {}, 1) == [Lower(c)];
    assert CteNames([cte]) == [c] by {
      assert [cte][..0] == [];
    }
  }

  lemma DedupOne(x: string)
    ensures Dedup([x]) == [x]
  {
    assert Insert([], x) == [x];
    assert [x][1..] == [];
    assert InsertAll([x], []) == [x];
  }

  lemma DedupTwice(x: string)
    ensures Dedup([x, x]) == [x]
  {
    assert Insert([], x) == [x];
    assert Insert([x], x) == [x];
    assert [x, x][1..] == [x];
    assert InsertAll([x], [x]) == InsertAll([x], []);
  }

  /**
   * The repository's check drops both references, although PostgreSQL resolves the one in the
   * CTE's body to the stored relation `c`; the corrected check keeps that one.
   */
  lemma ShadowingChecks(c: string)
    requires c != ""
    ensures TablesReferenced(Shadowing(c), AsWritten) == []
    ensures TablesReferenced(Shadowing(c), Corrected) == [Lower(c)]
    ensures Lower(c) in RelationRefs(Shadowing(c), {})
  {
    ShadowingAsWritten(c);
    ShadowingRootRefs(c);
    DedupOne(Lower(c));
    ShadowingReadsRelation(c);
  }

  lemma ShadowingAsWritten(c: string)
    requires c != ""
    ensures TablesReferenced(Shadowing(c), AsWritten) == []
  {
    ShadowingTables(c);
    DedupTwice(Lower(c));
    assert Without([Lower(c)], {Lower(c)}) == [] by {
      assert [Lower(c)][..0] == [];
    }
  }

  /** The main body sees the CTE name; the CTE's own body does not. */
  lemma ShadowingRootRefs(c: string)
    requires c != ""
    ensures RootTableRefs(Shadowing(c)) == [Lower(c)]
  {
    var root := Shadowing(c);
    var cte := CommonTableExpr(c, [SelectStmt([], false, None, [Table(c)])]);
    assert Kids(root) == [Table(c), Limit.value, cte];
    ShadowingScopes(c);
    ShadowingCteRefs(c);
    TableLeaf(c, {c});
    assert TableRefs(Limit.value, {c}) == [] by {
      assert TableRefsFrom(Limit.value, {c}, 0) == [];
    }
    assert RootTableRefsFrom(root, 3) == [];
    assert RootTableRefsFrom(root, 2) == [Lower(c)];
    assert RootTableRefsFrom(root, 1) == [Lower(c)];
  }

  lemma ShadowingScopes(c: string)
    requires c != ""
    ensures KidScope(Shadowing(c), {}, 0) == {c} && KidScope(Shadowing(c), {}, 1) == {c}
    ensures KidScope(Shadowing(c), {}, 2) == {}
  {
    var root := Shadowing(c);
    var cte := CommonTableExpr(c, [SelectStmt([], false, None, [Table(c)])]);
    assert CteNames([cte]) == [c] by {
      assert [cte][..0] == [];
    }
    assert root.ctes[..0] == [];
  }

  /** The CTE's body reads the relation `c`. */
  lemma ShadowingCteRefs(c: string)
    ensures TableRefs(CommonTableExpr(c, [SelectStmt([], false, None, [Table(c)])]), {}) == [Lower(c)]
  {
    var body := SelectStmt([], false, None, [Table(c)]);
    var cte := CommonTableExpr(c, [body]);
    TableLeaf(c, {});
    assert TableRefsFrom(body, {}, 1) == [];
    assert TableRefs(body, {}) == [Lower(c)];
    assert TableRefsFrom(cte, {}, 1) == [];
  }

  /** The reference inside the CTE's body resolves to the relation. */
  lemma ShadowingReadsRelation(c: string)
    ensures Lower(c) in RelationRefs(Shadowing(c), {})
  {
    var root := Shadowing(c);
    var body := SelectStmt([], false, None, [Table(c)]);
    var cte := CommonTableExpr(c, [body]);
    assert KidScope(body, {}, 0) == {};
    assert Lower(c) in RelationRefs(Table(c), {});
    assert Lower(c) in RelationRefs(body, {});
    assert KidScope(cte, {}, 0) == {};
    assert Lower(c) in RelationRefs(cte, {});
    assert Lower(c) in RelationRefsFrom(root, {}, 2);
    assert Lower(c) in RelationRefsFrom(root, {}, 0);
  }

  /**
   * `WITH pg_user AS (SELECT * FROM pg_user) SELECT * FROM pg_user LIMIT 5`: the repository's gate
   * accepts a statement that reads the catalogue view `pg_user`; the corrected gate rejects it.
   */
  lemma ShadowedCatalogueAccepted(sql: string)
    ensures "pg_user" in RelationRefs(Shadowing("pg_user"), {})
    ensures AstVerdict(sql, Shadowing("pg_user"), AsWritten).valid
    ensures AstVerdict(sql, Shadowing("pg_user"), AsWritten).tablesReferenced == Some([])
    ensures AstVerdict(sql, Shadowing("pg_user"), Corrected).errors
      == [SystemTableMessage("pg_user"), NotAllowedMessage("pg_user")]
  {
    LowerPgUser();
    ShadowedVerdicts(sql, "pg_user");
    PgUserErrors();
  }

  /** The verdicts on `Shadowing(c)`: accepted as written, the table errors of `c` once corrected. */
  lemma ShadowedVerdicts(sql: string, c: string)
    requires c != ""
    ensures Lower(c) in RelationRefs(Shadowing(c), {})
    ensures AstVerdict(sql, Shadowing(c), AsWritten).valid
    ensures AstVerdict(sql, Shadowing(c), AsWritten).tablesReferenced == Some([])
    ensures AstVerdict(sql, Shadowing(c), Corrected).errors == TableErrors([Lower(c)])
  {
    ShadowingChecks(c);
    ShadowingHasNoCalls(c);
    assert FunctionsUsed(Shadowing(c)) == [];
    assert FunctionErrors([], AsWritten) == [] && FunctionErrors([], Corrected) == [];
    assert TableErrors([]) == [];
  }

  lemma LowerPgUser()
    ensures Lower("pg_user") == "pg_user"
  {
  }

  lemma PgUserErrors()
    ensures TableErrors(["pg_user"]) == [SystemTableMessage("pg_user"), NotAllowedMessage("pg_user")]
  {
    var u := "pg_user";
    assert StartsWith(u, BlockedTablePrefixes[0]);
    SystemTablesNotAllowed(u);
    assert [u][..0] == [];
  }

  lemma NoCallsLeaf(n: Node)
    requires !n.FuncCall? && Kids(n) == []
    ensures FuncRefs(n) == []
  {
    assert FuncRefsFrom(n, 0) == [];
  }

  lemma ShadowingHasNoCalls(c: string)
    ensures FuncRefs(Shadowing(c)) == []
  {
    var root := Shadowing(c);
    var body := SelectStmt([], false, None, [Table(c)]);
    var cte := CommonTableExpr(c, [body]);
    NoCallsLeaf(Table(c));
    NoCallsLeaf(Limit.value);
    assert FuncRefsFrom(body, 1) == [];
    assert FuncRefs(body) == [];
    assert FuncRefsFrom(cte, 1) == [];
    assert FuncRefs(cte) == [];
    assert Kids(root) == [Table(c), Limit.value, cte];
    assert FuncRefsFrom(root, 3) == [];
    assert FuncRefsFrom(root, 2) == [];
    assert FuncRefsFrom(root, 1) == [];
    assert FuncRefsFrom(root, 0) == [];
  }

  /** The same, for the whole gate: whenever the screen passes the text and it parses to that tree. */
  lemma ShadowedCatalogueGate(raw: string, parse: string -> ParseOutcome)
    requires var sql := StripComments(raw); sql != "" && KeywordErrors(sql) == []
    requires parse(StripComments(raw)) == Parsed([Shadowing("pg_user")])
    ensures Validate(raw, parse, AsWritten).valid
    ensures !Validate(raw, parse, Corrected).valid
  {
    ShadowedCatalogueAccepted(StripComments(raw));
    ValidateReachesAst(raw, parse, AsWritten);
    ValidateReachesAst(raw, parse, Corrected);
  }

  // ---------------------------------------------------------------------------
  // A schema-qualified call of a blocked function
  // ---------------------------------------------------------------------------

  /** `SELECT schema.name(...) LIMIT ...`. */
  function QualifiedCall(schema: string, name: string): Node
  {
    SelectStmt([], false, Limit, [FuncCall(Some([NamePart(schema, ""), NamePart(name, "")]), [])])
  }

  lemma QualifiedCallRefs(schema: string, name: string)
    requires schema != "" && name != ""
    ensures FunctionsUsed(QualifiedCall(schema, name)) == [Lower(schema + "." + name)]
    ensures TablesReferenced(QualifiedCall(schema, name), AsWritten) == []
    ensures TablesReferenced(QualifiedCall(schema, name), Corrected) == []
  {
    var root := QualifiedCall(schema, name);
    var parts := [NamePart(schema, ""), NamePart(name, "")];
    var call := FuncCall(Some(parts), []);
    assert PartTexts(parts) == [schema, name];
    assert Join([schema, name], ".") == schema + "." + name by {
      assert [schema, name][..1] == [schema];
      assert Join([schema], ".") == schema by {
        assert [schema][..0] == [];
      }
    }
    assert FunctionName(parts) == Lower(schema + "." + name);
    assert FuncRefsFrom(call, 0) == [];
    assert |FunctionName(parts)| > 0;
    assert FuncRefs(call) == [Lower(schema + "." + name)];
    NoCallsLeaf(Limit.value);
    assert Kids(root) == [call, Limit.value];
    assert FuncRefsFrom(root, 2) == [];
    assert FuncRefsFrom(root, 1) == [];
    assert FuncRefsFrom(root, 0) == [Lower(schema + "." + name)];
    assert FuncRefs(root) == [Lower(schema + "." + name)];
    DedupOne(Lower(schema + "." + name));
    assert TableRefsFrom(call, {}, 0) == [];
    assert TableRefs(Limit.value, {}) == [] by {
      assert TableRefsFrom(Limit.value, {}, 0) == [];
    }
    assert TableRefsFrom(root, {}, 2) == [];
    assert TableRefsFrom(root, {}, 0) == [];
    assert CteNames([]) == [];
    assert KidScope(root, {}, 0) == {} && KidScope(root, {}, 1) == {};
    assert TableRefs(call, {}) == [];
    assert RootTableRefsFrom(root, 2) == [];
    assert RootTableRefsFrom(root, 1) == [];
    assert RootTableRefsFrom(root, 0) == [];
  }

  lemma LowerSetConfig()
    ensures Lower("pg_catalog.set_config") == "pg_catalog.set_config"
  {
    LowerUnchanged("pg_catalog.set_config");
  }

  /**
   * `SELECT pg_catalog.set_config('role', 'x', false) LIMIT 1`: the repository's function test
   * compares the whole dotted name, so the blocked `set_config` called through its schema passes;
   * the corrected test compares the unqualified name and rejects the call.
   */
  lemma QualifiedBlockedCallAccepted(sql: string)
    ensures AstVerdict(sql, QualifiedCall("pg_catalog", "set_config"), AsWritten).valid
    ensures AstVerdict(sql, QualifiedCall("pg_catalog", "set_config"), Corrected).errors
      == [FunctionMessage("pg_catalog.set_config")]
  {
    var f := "pg_catalog.set_config";
    var root := QualifiedCall("pg_catalog", "set_config");
    QualifiedCallUses("pg_catalog", "set_config", f);
    QualifiedNameErrors();
    assert TableErrors([]) == [];
    AstVerdictErrors(sql, root, AsWritten);
    AstVerdictErrors(sql, root, Corrected);
  }

  lemma QualifiedCallUses(schema: string, name: string, f: string)
    requires schema == "pg_catalog" && name == "set_config" && f == "pg_catalog.set_config"
    ensures FunctionsUsed(QualifiedCall(schema, name)) == [f]
    ensures TablesReferenced(QualifiedCall(schema, name), AsWritten) == []
    ensures TablesReferenced(QualifiedCall(schema, name), Corrected) == []
  {
    QualifiedCallRefs(schema, name);
    SetConfigName();
    LowerSetConfig();
  }

  lemma SetConfigName()
    ensures "pg_catalog" + "." + "set_config" == "pg_catalog.set_config"
  {
  }

  lemma AstVerdictErrors(sql: string, root: Node, rules: Rules)
    ensures AstVerdict(sql, root, rules).errors
      == TableErrors(TablesReferenced(root, rules)) + FunctionErrors(FunctionsUsed(root), rules)
    ensures AstVerdict(sql, root, rules).valid <==> AstVerdict(sql, root, rules).errors == []
  {
  }

  lemma QualifiedNameErrors()
    ensures FunctionErrors(["pg_catalog.set_config"], AsWritten) == []
    ensures FunctionErrors(["pg_catalog.set_config"], Corrected) == [FunctionMessage("pg_catalog.set_config")]
  {
    var f := "pg_catalog.set_config";
    assert f[10] == '.';
    assert !IsBlockedFunction(f, AsWritten);
    LastSegmentQualified("pg_catalog", "set_config");
    assert IsBlockedFunction(f, Corrected);
    assert [f][..0] == [];
  }

  /** The same, for the whole gate. */
  lemma QualifiedBlockedCallGate(raw: string, parse: string -> ParseOutcome)
    requires var sql := StripComments(raw); sql != "" && KeywordErrors(sql) == []
    requires parse(StripComments(raw)) == Parsed([QualifiedCall("pg_catalog", "set_config")])
    ensures Validate(raw, parse, AsWritten).valid
    ensures !Validate(raw, parse, Corrected).valid
  {
    QualifiedBlockedCallAccepted(StripComments(raw));
    ValidateReachesAst(raw, parse, AsWritten);
    ValidateReachesAst(raw, parse, Corrected);
  }

  // ---------------------------------------------------------------------------
  // Statements of the repository's tests
  // ---------------------------------------------------------------------------

  lemma OtherLeaf(k: string, scope: set<string>)
    ensures TableRefs(Other(k, []), scope) == [] && FuncRefs(Other(k, [])) == []
  {
    assert TableRefsFrom(Other(k, []), scope, 0) == [];
    NoCallsLeaf(Other(k, []));
  }

  function CteBody(t1: string): Node
  {
    SelectStmt([], false, None, [Table(t1), Other("A_Expr", [])])
  }

  function JoinOf(t2: string, a: string): Node
  {
    Other("JoinExpr", [Table(t2), Table(a)])
  }

  /**
   * `WITH a AS (SELECT ... FROM t1 WHERE ...) SELECT ... FROM t2 JOIN a ... LIMIT ...`
   * (sql-validator test "should accept CTEs" with a = admins, t1 = mv_effective_access, t2 = person).
   */
  function CteJoin(a: string, t1: string, t2: string): Node
  {
    SelectStmt([CommonTableExpr(a, [CteBody(t1)])], false, Limit, [JoinOf(t2, a)])
  }

  lemma CteBodyRefs(t1: string)
    ensures TableRefs(CteBody(t1), {}) == [Lower(t1)]
  {
    var body := CteBody(t1);
    OtherLeaf("A_Expr", {});
    TableLeaf(t1, {});
    assert TableRefsFrom(body, {}, 2) == [];
    assert TableRefsFrom(body, {}, 1) == [];
    assert TableRefsFrom(body, {}, 0) == [Lower(t1)];
    assert TableRefs(body, {}) == [Lower(t1)];
  }

  lemma CteRefs(a: string, t1: string)
    ensures TableRefs(CommonTableExpr(a, [CteBody(t1)]), {}) == [Lower(t1)]
  {
    var cte := CommonTableExpr(a, [CteBody(t1)]);
    CteBodyRefs(t1);
    assert Kids(cte) == [CteBody(t1)];
    assert TableRefsFrom(cte, {}, 1) == [];
    assert TableRefsFrom(cte, {}, 0) == [Lower(t1)];
  }

  lemma JoinRefs(t2: string, a: string, scope: set<string>)
    ensures TableRefs(JoinOf(t2, a), scope)
      == (if t2 in scope then [] else [Lower(t2)]) + (if a in scope then [] else [Lower(a)])
  {
    var join := JoinOf(t2, a);
    TableLeaf(t2, scope);
    TableLeaf(a, scope);
    assert TableRefsFrom(join, scope, 2) == [];
    assert TableRefsFrom(join, scope, 1) == TableRefs(Table(a), scope);
  }

  lemma CteJoinAllRefs(a: string, t1: string, t2: string)
    requires a != ""
    ensures TableRefs(CteJoin(a, t1, t2), {}) == [Lower(t2), Lower(a), Lower(t1)]
    ensures LowerCteNames(CteJoin(a, t1, t2)) == {Lower(a)}
  {
    var root := CteJoin(a, t1, t2);
    var cte := CommonTableExpr(a, [CteBody(t1)]);
    assert Kids(root) == [JoinOf(t2, a), Limit.value, cte];
    assert CteNames([cte]) == [a] by {
      assert [cte][..0] == [];
    }
    OtherLeaf("A_Const", {});
    CteRefs(a, t1);
    JoinRefs(t2, a, {});
    assert TableRefsFrom(root, {}, 3) == [];
    assert TableRefsFrom(root, {}, 2) == [Lower(t1)];
    assert TableRefsFrom(root, {}, 1) == [Lower(t1)];
  }

  lemma CteJoinRootRefs(a: string, t1: string, t2: string)
    requires a != "" && t2 != a
    ensures RootTableRefs(CteJoin(a, t1, t2)) == [Lower(t2), Lower(t1)]
  {
    var root := CteJoin(a, t1, t2);
    var cte := CommonTableExpr(a, [CteBody(t1)]);
    assert Kids(root) == [JoinOf(t2, a), Limit.value, cte];
    assert CteNames([cte]) == [a] by {
      assert [cte][..0] == [];
    }
    assert KidScope(root, {}, 0) == {a} && KidScope(root, {}, 1) == {a};
    assert KidScope(root, {}, 2) == {} by {
      assert root.ctes[..0] == [];
    }
    OtherLeaf("A_Const", {a});
    CteRefs(a, t1);
    JoinRefs(t2, a, {a});
    assert RootTableRefsFrom(root, 3) == [];
    assert RootTableRefsFrom(root, 2) == [Lower(t1)];
    assert RootTableRefsFrom(root, 1) == [Lower(t1)];
  }

  lemma CteJoinTables(a: string, t1: string, t2: string)
    requires a != "" && t2 != a
    requires Lower(t1) != Lower(t2) && Lower(a) != Lower(t1) && Lower(a) != Lower(t2)
    ensures TablesReferenced(CteJoin(a, t1, t2), AsWritten) == [Lower(t2), Lower(t1)]
    ensures TablesReferenced(CteJoin(a, t1, t2), Corrected) == [Lower(t2), Lower(t1)]
  {
    CteJoinAllRefs(a, t1, t2);
    CteJoinRootRefs(a, t1, t2);
    DedupPair(Lower(t2), Lower(t1));
    DedupTriple(Lower(t2), Lower(a), Lower(t1));
    WithoutMiddle(Lower(t2), Lower(a), Lower(t1));
  }

  lemma WithoutMiddle(x: string, y: string, z: string)
    requires x != y && z != y
    ensures Without([x, y, z], {y}) == [x, z]
  {
    var xs := [x, y, z];
    assert xs[..2] == [x, y] && [x, y][..1] == [x] && [x][..0] == [];
    assert Without([x], {y}) == [x];
    assert Without([x, y], {y}) == [x];
    assert Without(xs, {y}) == Without([x, y], {y}) + [z];
  }

  lemma DedupPair(x: string, y: string)
    requires x != y
    ensures Dedup([x, y]) == [x, y]
  {
    assert Insert([], x) == [x];
    assert Insert([x], y) == [x, y];
    assert [x, y][1..] == [y];
    assert InsertAll([x], [y]) == InsertAll([x, y], []);
  }

  lemma DedupTriple(x: string, y: string, z: string)
    requires x != y && y != z && x != z
    ensures Dedup([x, y, z]) == [x, y, z]
  {
    assert Insert([], x) == [x];
    assert Insert([x], y) == [x, y];
    assert Insert([x, y], z) == [x, y, z];
    assert [x, y, z][1..] == [y, z];
    assert [y, z][1..] == [z];
    assert InsertAll([x, y], [z]) == InsertAll([x, y, z], []);
    assert InsertAll([x], [y, z]) == InsertAll([x, y], [z]);
  }

  lemma CteBodyNoCalls(t1: string)
    ensures FuncRefs(CteBody(t1)) == []
  {
    var body := CteBody(t1);
    OtherLeaf("A_Expr", {});
    NoCallsLeaf(Table(t1));
    assert FuncRefsFrom(body, 2) == [] && FuncRefsFrom(body, 1) == [] && FuncRefsFrom(body, 0) == [];
  }

  lemma JoinNoCalls(t2: string, a: string)
    ensures FuncRefs(JoinOf(t2, a)) == []
  {
    var join := JoinOf(t2, a);
    NoCallsLeaf(Table(t2));
    NoCallsLeaf(Table(a));
    assert FuncRefsFrom(join, 2) == [] && FuncRefsFrom(join, 1) == [] && FuncRefsFrom(join, 0) == [];
  }

  lemma CteJoinNoCalls(a: string, t1: string, t2: string)
    ensures FunctionsUsed(CteJoin(a, t1, t2)) == []
  {
    var root := CteJoin(a, t1, t2);
    var cte := CommonTableExpr(a, [CteBody(t1)]);
    var join := JoinOf(t2, a);
    OtherLeaf("A_Const", {});
    CteBodyNoCalls(t1);
    JoinNoCalls(t2, a);
    assert FuncRefsFrom(cte, 1) == [] && FuncRefsFrom(cte, 0) == [];
    assert Kids(root) == [join, Limit.value, cte];
    assert FuncRefsFrom(root, 3) == [] && FuncRefsFrom(root, 2) == [];
    assert FuncRefsFrom(root, 1) == [] && FuncRefsFrom(root, 0) == [];
  }

  lemma AdminsNames()
    ensures Lower("admins") == "admins" && Lower("person") == "person"
    ensures Lower("mv_effective_access") == "mv_effective_access"
  {
    LowerUnchanged("admins");
    LowerUnchanged("person");
    LowerUnchanged("mv_effective_access");
  }

  lemma AdminsTables()
    ensures TablesReferenced(CteJoin("admins", "mv_effective_access", "person"), AsWritten)
      == ["person", "mv_effective_access"]
    ensures TablesReferenced(CteJoin("admins", "mv_effective_access", "person"), Corrected)
      == ["person", "mv_effective_access"]
  {
    AdminsNames();
    CteJoinTables("admins", "mv_effective_access", "person");
  }

  lemma AdminsTablesPass()
    ensures TableErrors(["person", "mv_effective_access"]) == []
  {
    var ts := ["person", "mv_effective_access"];
    assert ts[..1] == ["person"] && ["person"][..0] == [];
    NoBlockedPrefix("person");
    NoBlockedPrefix("mv_effective_access");
  }

  /** The CTE test statement is accepted under both rules, reporting `person` and `mv_effective_access`. */
  lemma AdminsCteAccepted(sql: string, rules: Rules)
    ensures var v := AstVerdict(sql, CteJoin("admins", "mv_effective_access", "person"), rules);
      v.valid && v.tablesReferenced == Some(["person", "mv_effective_access"]) && v.sanitisedSql == Some(sql)
  {
    var root := CteJoin("admins", "mv_effective_access", "person");
    AdminsTables();
    CteJoinNoCalls("admins", "mv_effective_access", "person");
    AdminsTablesPass();
    assert FunctionErrors([], rules) == [];
    AstVerdictErrors(sql, root, rules);
  }

  /**
   * A LIMIT that is absent or a leaf expression. The parser gives `LIMIT 10`, `LIMIT 100000` and
   * `LIMIT ALL` alike as a childless `A_Const`; the gate only asks whether it is there.
   */
  predicate LeafLimit(limit: Option<Node>)
  {
    limit == None || (limit.value.Other? && limit.value.children == [])
  }

  /** `SELECT * FROM schema.rel`, with or without a LIMIT. */
  function SingleTable(schema: string, rel: string, limit: Option<Node>): Node
  {
    SelectStmt([], false, limit, [RangeVar(schema, rel, [])])
  }

  lemma SingleTableRefs(schema: string, rel: string, limit: Option<Node>, rules: Rules)
    requires LeafLimit(limit)
    ensures TablesReferenced(SingleTable(schema, rel, limit), rules) == [TableName(schema, rel)]
    ensures FunctionsUsed(SingleTable(schema, rel, limit)) == []
  {
    var root := SingleTable(schema, rel, limit);
    var x := TableName(schema, rel);
    SingleTableScan(schema, rel, limit);
    SingleTableNoCalls(schema, rel, limit);
    DedupOne(x);
    assert LowerCteNames(root) == {};
    assert Without([x], {}) == [x] by {
      assert [x][..0] == [];
    }
  }

  lemma SingleTableScan(schema: string, rel: string, limit: Option<Node>)
    requires LeafLimit(limit)
    ensures TableRefs(SingleTable(schema, rel, limit), {}) == [TableName(schema, rel)]
    ensures RootTableRefs(SingleTable(schema, rel, limit)) == [TableName(schema, rel)]
  {
    var root := SingleTable(schema, rel, limit);
    var t := RangeVar(schema, rel, []);
    var x := TableName(schema, rel);
    assert TableRefsFrom(t, {}, 0) == [];
    assert TableRefs(t, {}) == [x];
    assert CteNames([]) == [];
    assert KidScope(root, {}, 0) == {} && KidScope(root, {}, 1) == {};
    if limit == None {
      assert Kids(root) == [t];
      assert TableRefsFrom(root, {}, 1) == [] && RootTableRefsFrom(root, 1) == [];
    } else {
      OtherLeaf(limit.value.kind, {});
      assert Kids(root) == [t, limit.value];
      assert TableRefsFrom(root, {}, 2) == [] && RootTableRefsFrom(root, 2) == [];
      assert TableRefsFrom(root, {}, 1) == [] && RootTableRefsFrom(root, 1) == [];
    }
  }

  lemma SingleTableNoCalls(schema: string, rel: string, limit: Option<Node>)
    requires LeafLimit(limit)
    ensures FuncRefs(SingleTable(schema, rel, limit)) == []
  {
    var root := SingleTable(schema, rel, limit);
    var t := RangeVar(schema, rel, []);
    NoCallsLeaf(t);
    if limit == None {
      assert Kids(root) == [t];
      assert FuncRefsFrom(root, 1) == [];
    } else {
      NoCallsLeaf(limit.value);
      assert Kids(root) == [t, limit.value];
      assert FuncRefsFrom(root, 2) == [];
      assert FuncRefsFrom(root, 1) == [];
    }
  }

  lemma PersonPasses()
    ensures TableName("", "person") == "person"
    ensures TableErrors(["person"]) == []
  {
    LowerUnchanged("person");
    NoBlockedPrefix("person");
    assert ["person"][..0] == [];
  }

  /** `SELECT * FROM person`: accepted, and run inside the bounded wrapper that asks for 500 rows. */
  lemma LimitAddedWhenAbsent(sql: string, rules: Rules)
    ensures var v := AstVerdict(sql, SingleTable("", "person", None), rules);
      v.valid && v.sanitisedSql == Some(LimitWrapped(sql)) && Contains(v.sanitisedSql.value, "LIMIT 500")
  {
    SingleTableRefs("", "person", None, rules);
    PersonPasses();
    assert FunctionErrors([], rules) == [];
    AstVerdictErrors(sql, SingleTable("", "person", None), rules);
    LimitWrappedBound(sql);
  }

  /** `SELECT * FROM person LIMIT 10`: accepted and run as written. */
  lemma LimitKeptWhenPresent(sql: string, rules: Rules)
    ensures var v := AstVerdict(sql, SingleTable("", "person", Limit), rules);
      v.valid && v.sanitisedSql == Some(sql)
  {
    SingleTableRefs("", "person", Limit, rules);
    PersonPasses();
    assert FunctionErrors([], rules) == [];
    AstVerdictErrors(sql, SingleTable("", "person", Limit), rules);
  }

  /**
   * `SELECT * FROM person LIMIT <any constant>`, `LIMIT ALL` included: accepted and run as
   * written, so the statement's own LIMIT, not `MAX_ROWS`, bounds what it returns.
   */
  lemma OwnLimitKept(sql: string, kind: string, rules: Rules)
    ensures var v := AstVerdict(sql, SingleTable("", "person", Some(Other(kind, []))), rules);
      v.valid && v.sanitisedSql == Some(sql)
  {
    var root := SingleTable("", "person", Some(Other(kind, [])));
    SingleTableRefs("", "person", Some(Other(kind, [])), rules);
    PersonPasses();
    assert FunctionErrors([], rules) == [];
    AstVerdictErrors(sql, root, rules);
  }

  lemma CatalogueName()
    ensures TableName("pg_catalog", "pg_tables") == "pg_catalog.pg_tables"
    ensures HasBlockedPrefix("pg_catalog.pg_tables")
  {
    CatalogueConcat();
    CatalogueLower();
    CataloguePrefix();
  }

  lemma CatalogueConcat()
    ensures "pg_catalog" + "." + "pg_tables" == "pg_catalog.pg_tables"
  {
  }

  lemma CatalogueLower()
    ensures Lower("pg_catalog.pg_tables") == "pg_catalog.pg_tables"
  {
    LowerUnchanged("pg_catalog.pg_tables");
  }

  lemma CataloguePrefix()
    ensures HasBlockedPrefix("pg_catalog.pg_tables")
  {
    var t := "pg_catalog.pg_tables";
    assert t[..3] == "pg_";
    assert StartsWith(t, BlockedTablePrefixes[0]);
  }

  lemma SingleTableBlocked(sql: string, schema: string, rel: string, rules: Rules)
    requires HasBlockedPrefix(TableName(schema, rel))
    ensures var v := AstVerdict(sql, SingleTable(schema, rel, Limit), rules);
      !v.valid && SystemTableMessage(TableName(schema, rel)) in v.errors
  {
    var root := SingleTable(schema, rel, Limit);
    SingleTableRefs(schema, rel, Limit, rules);
    AstErrorsIff(sql, root, rules, TableName(schema, rel));
  }

  lemma CatalogueMessage()
    ensures Contains(SystemTableMessage("pg_catalog.pg_tables"), "pg_catalog")
  {
    SystemMessageNamesSchema("pg_catalog", ".pg_tables");
    assert "pg_catalog" + ".pg_tables" == "pg_catalog.pg_tables";
  }

  /** `SELECT * FROM pg_catalog.pg_tables LIMIT 10`: rejected with an error that names `pg_catalog`. */
  lemma CatalogueRejected(sql: string, rules: Rules)
    ensures var v := AstVerdict(sql, SingleTable("pg_catalog", "pg_tables", Limit), rules);
      !v.valid && SystemTableMessage("pg_catalog.pg_tables") in v.errors
      && exists e :: e in v.errors && Contains(e, "pg_catalog")
  {
    CatalogueName();
    SingleTableBlocked(sql, "pg_catalog", "pg_tables", rules);
    CatalogueMessage();
  }

  lemma SystemMessageNamesSchema(schema: string, rest: string)
    ensures Contains(SystemTableMessage(schema + rest), schema)
  {
    var p := "Access to system table '";
    var q := "' is not permitted";
    assert SystemTableMessage(schema + rest) == p + schema + (rest + q);
    ContainsInfix(p, schema, rest + q);
  }
}
