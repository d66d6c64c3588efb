/**
 * The parse tree the SQL gate inspects, as produced by PostgreSQL's own parser, reduced to the
 * node kinds the gate looks at: table references, function calls, common table expressions and
 * SELECT statements; every other node kind is kept only for its children.
 *
 * The module also defines what the gate collects from a tree (table names and function names,
 * in traversal order) and, as an independent reference, which table references PostgreSQL
 * resolves to stored relations under the scoping rules of WITH clauses.
 */
module SqlAst {
  import opened Base
  import opened Text

  /** One element of a function's qualified name; an empty string stands for an absent field. */
  datatype NamePart = NamePart(sval: string, str: string)

  datatype Node =
    | RangeVar(schemaname: string, relname: string, children: seq<Node>)
    | FuncCall(funcname: Option<seq<NamePart>>, children: seq<Node>)
    | CommonTableExpr(ctename: string, children: seq<Node>)
      /** `ctes` is the WITH list (empty without a WITH clause); `limitCount` the LIMIT expression. */
    | SelectStmt(ctes: seq<Node>, recursive: bool, limitCount: Option<Node>, children: seq<Node>)
    | Other(kind: string, children: seq<Node>)

  /** The node's key in the parser's output: `Object.keys(stmt)[0]`. */
  function Kind(n: Node): string
  {
    match n
    case RangeVar(_, _, _) => "RangeVar"
    case FuncCall(_, _) => "FuncCall"
    case CommonTableExpr(_, _) => "CommonTableExpr"
    case SelectStmt(_, _, _, _) => "SelectStmt"
    case Other(k, _) => k
  }

  function LimitKids(l: Option<Node>): seq<Node>
  {
    if l.Some? then [l.value] else []
  }

  /**
   * Every child object of a node, in traversal order. For a SELECT the main clauses come first,
   * then the LIMIT, then the WITH list. The parser's own field order differs in two places: the
   * locking clause follows the LIMIT, and the arms of a set operation follow the WITH list. Here
   * both are among the main clauses. That changes only the order of the collected names and of
   * the errors, never whether a name is collected or a verdict.
   */
  function Kids(n: Node): seq<Node>
  {
    match n
    case SelectStmt(ctes, _, limitCount, children) => children + LimitKids(limitCount) + ctes
    case _ => n.children
  }

  /** Number of kids forming the main body of a SELECT (everything before the WITH list). */
  function MainKidCount(n: Node): nat
    requires n.SelectStmt?
  {
    |n.children| + |LimitKids(n.limitCount)|
  }

  lemma KidsSmaller(n: Node, i: int)
    requires 0 <= i < |Kids(n)|
    ensures Kids(n)[i] < n
  {
    match n
    case SelectStmt(ctes, _, l, ch) =>
      var k := Kids(n)[i];
      if i < |ch| {
        assert k == ch[i];
      } else if l.Some? && i == |ch| {
        assert k == l.value;
      } else {
        assert k == ctes[i - MainKidCount(n)];
      }
    case _ =>
      assert Kids(n)[i] in n.children;
  }

  /** All nodes of the subtree rooted at `n`. */
  ghost function Nodes(n: Node): set<Node>
    decreases n, 1
  {
    {n} + NodesFrom(n, 0)
  }

  ghost function NodesFrom(n: Node, i: nat): set<Node>
    requires i <= |Kids(n)|
    decreases n, 0, |Kids(n)| - i
  {
    if i == |Kids(n)| then {} else KidsSmaller(n, i); Nodes(Kids(n)[i]) + NodesFrom(n, i + 1)
  }

  // ---------------------------------------------------------------------------
  // Table references
  // ---------------------------------------------------------------------------

  /** `schema.rel` when a schema is given, else `rel`; lower-cased. */
  function TableName(schema: string, rel: string): string
  {
    Lower(if schema != "" then schema + "." + rel else rel)
  }

  /** A reference written without a schema whose name is one of the CTE names in scope. */
  predicate Bound(n: Node, scope: set<string>)
  {
    n.RangeVar? && n.schemaname == "" && n.relname in scope
  }

  /** The node's own contribution to the table list: its name when it is an unbound table reference. */
  function OwnTable(n: Node, scope: set<string>): seq<string>
  {
    if n.RangeVar? && !Bound(n, scope) then [TableName(n.schemaname, n.relname)] else []
  }

  /**
   * The table names of the subtree in traversal order, with duplicates, leaving out references
   * bound by `scope`. With an empty scope this is every table reference of the subtree.
   */
  function TableRefs(n: Node, scope: set<string>): seq<string>
    decreases n, 1
  {
    OwnTable(n, scope) + TableRefsFrom(n, scope, 0)
  }

  function TableRefsFrom(n: Node, scope: set<string>, i: nat): seq<string>
    requires i <= |Kids(n)|
    decreases n, 0, |Kids(n)| - i
  {
    if i == |Kids(n)| then []
    else KidsSmaller(n, i); TableRefs(Kids(n)[i], scope) + TableRefsFrom(n, scope, i + 1)
  }

  /** The node is a table reference that names `x` and is not bound by `scope`. */
  predicate RefersTo(m: Node, scope: set<string>, x: string)
  {
    m.RangeVar? && !Bound(m, scope) && TableName(m.schemaname, m.relname) == x
  }

  /** The collected names are exactly the names of the unbound references anywhere in the subtree. */
  lemma {:induction false} TableRefsIff(n: Node, scope: set<string>, x: string)
    ensures x in TableRefs(n, scope) <==> exists m :: m in Nodes(n) && RefersTo(m, scope, x)
    decreases n, 1
  {
    TableRefsFromIff(n, scope, x, 0);
    if x in OwnTable(n, scope) {
      assert n in Nodes(n) && RefersTo(n, scope, x);
    } else if x in TableRefsFrom(n, scope, 0) {
      var m :| m in NodesFrom(n, 0) && RefersTo(m, scope, x);
      assert m in Nodes(n);
    }
    if exists m :: m in Nodes(n) && RefersTo(m, scope, x) {
      var m :| m in Nodes(n) && RefersTo(m, scope, x);
      if m == n {
        assert x in OwnTable(n, scope);
      } else {
        assert m in NodesFrom(n, 0);
      }
    }
  }

  lemma {:induction false} TableRefsFromIff(n: Node, scope: set<string>, x: string, i: nat)
    requires i <= |Kids(n)|
    ensures x in TableRefsFrom(n, scope, i) <==> exists m :: m in NodesFrom(n, i) && RefersTo(m, scope, x)
    decreases n, 0, |Kids(n)| - i
  {
    if i < |Kids(n)| {
      KidsSmaller(n, i);
      var k := Kids(n)[i];
      TableRefsIff(k, scope, x);
      TableRefsFromIff(n, scope, x, i + 1);
      assert NodesFrom(n, i) == Nodes(k) + NodesFrom(n, i + 1);
    }
  }

  // ---------------------------------------------------------------------------
  // CTE names and PostgreSQL's scoping of WITH
  // ---------------------------------------------------------------------------

  /** The names of the CTE entries of a WITH list, in order; entries without a name are skipped. */
  function CteNames(ctes: seq<Node>): seq<string>
  {
    if ctes == [] then []
    else
      var c := ctes[|ctes| - 1];
      CteNames(ctes[..|ctes| - 1])
      + (if c.CommonTableExpr? && c.ctename != "" then [c.ctename] else [])
  }

  /**
   * The CTE names in scope in kid `i` of `n`, given the names `scope` in scope at `n`.
   * In the main body of a SELECT every name of its WITH list is visible. Inside the `j`-th CTE
   * only the earlier ones are, unless the list is RECURSIVE, when all of them are.
   */
  function KidScope(n: Node, scope: set<string>, i: nat): set<string>
  {
    if !n.SelectStmt? then scope
    else
      var names := CteNames(n.ctes);
      if i < MainKidCount(n) || n.recursive then scope + set c | c in names
      else
        var j := i - MainKidCount(n);
        var visible := CteNames(n.ctes[..if j <= |n.ctes| then j else |n.ctes|]);
        scope + set c | c in visible
  }

  /**
   * Reference definition: the names of the references in the subtree that PostgreSQL resolves to
   * stored relations, with every WITH clause of the subtree scoped as described at `KidScope`.
   */
  ghost function RelationRefs(n: Node, scope: set<string>): set<string>
    decreases n, 1
  {
    (set x | x in OwnTable(n, scope)) + RelationRefsFrom(n, scope, 0)
  }

  ghost function RelationRefsFrom(n: Node, scope: set<string>, i: nat): set<string>
    requires i <= |Kids(n)|
    decreases n, 0, |Kids(n)| - i
  {
    if i == |Kids(n)| then {}
    else KidsSmaller(n, i); RelationRefs(Kids(n)[i], KidScope(n, scope, i)) + RelationRefsFrom(n, scope, i + 1)
  }

  /** More names in scope can only hide references. */
  lemma {:induction false} RelationRefsAntitone(n: Node, small: set<string>, big: set<string>)
    requires small <= big
    ensures RelationRefs(n, big) <= RelationRefs(n, small)
    decreases n, 1
  {
    RelationRefsFromAntitone(n, small, big, 0);
  }

  lemma {:induction false} RelationRefsFromAntitone(n: Node, small: set<string>, big: set<string>, i: nat)
    requires small <= big && i <= |Kids(n)|
    ensures RelationRefsFrom(n, big, i) <= RelationRefsFrom(n, small, i)
    decreases n, 0, |Kids(n)| - i
  {
    if i < |Kids(n)| {
      KidsSmaller(n, i);
      RelationRefsAntitone(Kids(n)[i], KidScope(n, small, i), KidScope(n, big, i));
      RelationRefsFromAntitone(n, small, big, i + 1);
    }
  }

  /** Every relation reference is among the names collected with the same outer scope. */
  lemma {:induction false} RelationRefsCollected(n: Node, scope: set<string>)
    ensures RelationRefs(n, scope) <= set x | x in TableRefs(n, scope)
    decreases n, 1
  {
    RelationRefsFromCollected(n, scope, 0);
  }

  lemma {:induction false} RelationRefsFromCollected(n: Node, scope: set<string>, i: nat)
    requires i <= |Kids(n)|
    ensures RelationRefsFrom(n, scope, i) <= set x | x in TableRefsFrom(n, scope, i)
    decreases n, 0, |Kids(n)| - i
  {
    if i < |Kids(n)| {
      KidsSmaller(n, i);
      var k := Kids(n)[i];
      RelationRefsAntitone(k, scope, KidScope(n, scope, i));
      RelationRefsCollected(k, scope);
      RelationRefsFromCollected(n, scope, i + 1);
      var here, later := TableRefs(k, scope), TableRefsFrom(n, scope, i + 1);
      assert RelationRefsFrom(n, scope, i) == RelationRefs(k, KidScope(n, scope, i)) + RelationRefsFrom(n, scope, i + 1);
      assert TableRefsFrom(n, scope, i) == here + later;
      SetOfAppend(here, later);
    }
  }

  // ---------------------------------------------------------------------------
  // Function calls
  // ---------------------------------------------------------------------------

  /** `String.sval || str || ''`. */
  function PartText(p: NamePart): string
  {
    if p.sval != "" then p.sval else p.str
  }

  function PartTexts(parts: seq<NamePart>): seq<string>
  {
    seq(|parts|, k requires 0 <= k < |parts| => PartText(parts[k]))
  }

  /** The dot-joined, lower-cased name of a call. */
  function FunctionName(parts: seq<NamePart>): string
  {
    Lower(Join(PartTexts(parts), "."))
  }

  function OwnFunction(n: Node): seq<string>
  {
    if n.FuncCall? && n.funcname.Some? && FunctionName(n.funcname.value) != "" then
      [FunctionName(n.funcname.value)]
    else []
  }

  /** The non-empty names of the calls of the subtree in traversal order, with duplicates. */
  function FuncRefs(n: Node): seq<string>
    decreases n, 1
  {
    OwnFunction(n) + FuncRefsFrom(n, 0)
  }

  function FuncRefsFrom(n: Node, i: nat): seq<string>
    requires i <= |Kids(n)|
    decreases n, 0, |Kids(n)| - i
  {
    if i == |Kids(n)| then []
    else KidsSmaller(n, i); FuncRefs(Kids(n)[i]) + FuncRefsFrom(n, i + 1)
  }

  /** The node is a call whose name is the non-empty `x`. */
  predicate Calls(m: Node, x: string)
  {
    m.FuncCall? && m.funcname.Some? && x != "" && FunctionName(m.funcname.value) == x
  }

  /** The collected names are exactly the non-empty names of the calls anywhere in the subtree. */
  lemma {:induction false} FuncRefsIff(n: Node, x: string)
    ensures x in FuncRefs(n) <==> exists m :: m in Nodes(n) && Calls(m, x)
    decreases n, 1
  {
    FuncRefsFromIff(n, x, 0);
    if x in OwnFunction(n) {
      assert n in Nodes(n) && Calls(n, x);
    } else if x in FuncRefsFrom(n, 0) {
      var m :| m in NodesFrom(n, 0) && Calls(m, x);
      assert m in Nodes(n);
    }
    if exists m :: m in Nodes(n) && Calls(m, x) {
      var m :| m in Nodes(n) && Calls(m, x);
      if m == n {
        assert x in OwnFunction(n);
      } else {
        assert m in NodesFrom(n, 0);
      }
    }
  }

  lemma {:induction false} FuncRefsFromIff(n: Node, x: string, i: nat)
    requires i <= |Kids(n)|
    ensures x in FuncRefsFrom(n, i) <==> exists m :: m in NodesFrom(n, i) && Calls(m, x)
    decreases n, 0, |Kids(n)| - i
  {
    if i < |Kids(n)| {
      KidsSmaller(n, i);
      var k := Kids(n)[i];
      FuncRefsIff(k, x);
      FuncRefsFromIff(n, x, i + 1);
      assert NodesFrom(n, i) == Nodes(k) + NodesFrom(n, i + 1);
    }
  }
}
