/**
 * The helpers the list endpoints share: numbered bind parameters, the `ILIKE` search filter,
 * page/limit parsing and the count-then-data query pair with its pagination envelope.
 */
module QueryBuilder {
  import opened Base
  import opened Text
  import opened Values
  import opened TenantExecutor
  import opened Registry

  /** The placeholder of the `k`-th bind parameter, `$k`. */
  function Placeholder(k: nat): string
  {
    "$" + NatToString(k)
  }

  lemma PlaceholderInjective(i: nat, j: nat)
    requires Placeholder(i) == Placeholder(j)
    ensures i == j
  {
    assert NatToString(i) == Placeholder(i)[1..];
    assert NatToString(j) == Placeholder(j)[1..];
    NatToStringRoundTrip(i);
    NatToStringRoundTrip(j);
  }

  /** `ParamBuilder`: the parameters added so far and the number the next one will get. */
  class ParamBuilder {
    var params: seq<Value>
    var idx: int

    ghost predicate Valid()
      reads this
    {
      idx == |params| + 1
    }

    constructor ()
      ensures params == [] && idx == 1 && Valid()
    {
      params := [];
      idx := 1;
    }

    /** `add(value)`: appends the value and returns its placeholder. */
    method Add(value: Value) returns (placeholder: string)
      requires Valid()
      modifies this
      ensures params == old(params) + [value] && idx == old(idx) + 1
      ensures placeholder == Placeholder(|params|)
      ensures Valid()
    {
      params := params + [value];
      placeholder := "$" + NatToString(idx);
      idx := idx + 1;
    }

    /** `nextIndex`: the number the next parameter will get. */
    function NextIndex(): (n: int)
      reads this
      requires Valid()
      ensures n == |params| + 1 && n >= 1
    {
      idx
    }
  }

  /** Several `add` calls in a row number their values `$1, $2, ...` after those already present. */
  method AddAll(pb: ParamBuilder, values: seq<Value>) returns (placeholders: seq<string>)
    requires pb.Valid()
    modifies pb
    ensures pb.Valid() && pb.params == old(pb.params) + values
    ensures |placeholders| == |values|
    ensures forall i :: 0 <= i < |values| ==> placeholders[i] == Placeholder(|old(pb.params)| + i + 1)
  {
    placeholders := [];
    var i := 0;
    while i < |values|
      invariant 0 <= i <= |values|
      invariant pb.Valid() && pb.params == old(pb.params) + values[..i]
      invariant |placeholders| == i
      invariant forall k :: 0 <= k < i ==> placeholders[k] == Placeholder(|old(pb.params)| + k + 1)
    {
      var p := pb.Add(values[i]);
      assert values[..i + 1] == values[..i] + [values[i]];
      placeholders := placeholders + [p];
      i := i + 1;
    }
    assert values[..i] == values;
  }

  // ---------------------------------------------------------------------------
  // Search filter
  // ---------------------------------------------------------------------------

  /** `c ILIKE $k` for every column, in order. */
  function Conditions(columns: seq<string>, placeholder: string): (r: seq<string>)
    ensures |r| == |columns|
    ensures forall i :: 0 <= i < |r| ==> r[i] == columns[i] + " ILIKE " + placeholder
  {
    seq(|columns|, i requires 0 <= i < |columns| => columns[i] + " ILIKE " + placeholder)
  }

  function FilterText(columns: seq<string>, placeholder: string, prefix: string): string
  {
    prefix + " (" + Join(Conditions(columns, placeholder), " OR ") + ")"
  }

  /** The `%search%` pattern bound for the filter. */
  function SearchPattern(search: string): string
  {
    "%" + search + "%"
  }

  /**
   * `buildSearchFilter(pb, columns, search, prefix)`: nothing, and no parameter, for a missing or
   * empty search; otherwise one new parameter and every column compared with its placeholder.
   */
  method BuildSearchFilter(pb: ParamBuilder, columns: seq<string>, search: Option<string>, prefix: string)
    returns (filter: string)
    requires pb.Valid()
    modifies pb
    ensures pb.Valid()
    ensures search.None? || search.value == "" ==> filter == "" && pb.params == old(pb.params)
    ensures search.Some? && search.value != "" ==>
      pb.params == old(pb.params) + [Str(SearchPattern(search.value))]
      && filter == FilterText(columns, Placeholder(|pb.params|), prefix)
  {
    if search.None? || search.value == "" {
      return "";
    }
    var placeholder := pb.Add(Str("%" + search.value + "%"));
    var conditions := seq(|columns|, i requires 0 <= i < |columns| => columns[i] + " ILIKE " + placeholder);
    filter := prefix + " (" + Join(conditions, " OR ") + ")";
  }

  lemma {:induction false} JoinOne(parts: seq<string>, sep: string)
    requires |parts| == 1
    ensures Join(parts, sep) == parts[0]
  {
  }

  /** A filter over one column is that column's comparison in brackets. */
  lemma SingleColumnFilter(column: string, placeholder: string, prefix: string)
    ensures FilterText([column], placeholder, prefix) == prefix + " (" + column + " ILIKE " + placeholder + ")"
  {
    JoinOne(Conditions([column], placeholder), " OR ");
  }

  /** Adding a column appends ` OR c ILIKE $k` inside the brackets. */
  lemma FilterExtends(columns: seq<string>, column: string, placeholder: string, prefix: string)
    requires columns != []
    ensures FilterText(columns + [column], placeholder, prefix)
      == prefix + " (" + Join(Conditions(columns, placeholder), " OR ") + " OR " + column + " ILIKE " + placeholder + ")"
  {
    var cs := Conditions(columns + [column], placeholder);
    assert cs[..|cs| - 1] == Conditions(columns, placeholder);
  }

  // ---------------------------------------------------------------------------
  // Pagination
  // ---------------------------------------------------------------------------

  datatype Pagination = Pagination(page: int, limit: int, offset: int)

  /**
   * `parsePagination(req)` for integral `page` and `limit` query values (`None` when absent or
   * empty): page at least 1 (default 1), limit clamped to [1, 100] (default 50).
   */
  function ParsePagination(page: Option<int>, limit: Option<int>): (r: Pagination)
    ensures r.page >= 1 && 1 <= r.limit <= 100 && r.offset == (r.page - 1) * r.limit && r.offset >= 0
    ensures r.page == (if page.GetOr(1) >= 1 then page.GetOr(1) else 1)
    ensures 1 <= limit.GetOr(50) <= 100 ==> r.limit == limit.GetOr(50)
    ensures limit.GetOr(50) < 1 ==> r.limit == 1
    ensures limit.GetOr(50) > 100 ==> r.limit == 100
  {
    var p := Max(1, page.GetOr(1));
    var l := Min(100, Max(1, limit.GetOr(50)));
    Pagination(p, l, (p - 1) * l)
  }

  /** Parsing the values it produced gives them back: the clamping is idempotent. */
  lemma ParsePaginationIdempotent(page: Option<int>, limit: Option<int>)
    ensures var r := ParsePagination(page, limit); ParsePagination(Some(r.page), Some(r.limit)) == r
  {
  }

  /** `Math.ceil(a / b)` for a non-zero divisor. */
  function CeilDiv(a: int, b: int): (q: int)
    requires b != 0
    ensures b > 0 ==> (q - 1) * b < a <= q * b
    ensures b < 0 ==> (q - 1) * b > a >= q * b
  {
    if b > 0 then -((-a) / b) else -(a / (-b))
  }

  // ---------------------------------------------------------------------------
  // JavaScript parseInt
  // ---------------------------------------------------------------------------

  /** The longest prefix of decimal digits. */
  function LeadingDigits(s: string): (r: string)
    ensures r <= s && forall k :: 0 <= k < |r| ==> IsDigit(s[k])
    ensures |r| < |s| ==> !IsDigit(s[|r|])
  {
    if s == [] || !IsDigit(s[0]) then [] else [s[0]] + LeadingDigits(s[1..])
  }

  /**
   * `parseInt(s, 10)`: leading white space skipped, an optional sign, then the longest run of
   * digits; `None` stands for `NaN`, when no digit follows.
   */
  function ParseIntJs(s: string): (r: Option<int>)
    ensures r.Some? ==> exists k :: 0 <= k < |s| && IsDigit(s[k])
  {
    var t := TrimStart(s, IsJsSpace);
    var negative := t != [] && t[0] == '-';
    var u := if t != [] && (t[0] == '-' || t[0] == '+') then t[1..] else t;
    var d := LeadingDigits(u);
    if d == [] then None
    else
      assert IsDigit(s[|s| - |u|]) by {
        TrimStartSuffix(s, IsJsSpace);
        assert s[|s| - |t|..] == t;
        assert s[|s| - |u|..] == u;
      }
      var value: int := DigitsValue(d);
      var v := if negative then -value else value;
      Some(v)
  }

  lemma LeadingDigitsAll(s: string)
    requires forall k :: 0 <= k < |s| ==> IsDigit(s[k])
    ensures LeadingDigits(s) == s
  {
  }

  /** `parseInt` reads back every rendered natural. */
  lemma ParseIntRoundTrip(n: nat)
    ensures ParseIntJs(NatToString(n)) == Some(n)
  {
    var s := NatToString(n);
    TrimStartKeeps(s);
    LeadingDigitsAll(s);
    NatToStringRoundTrip(n);
  }

  lemma TrimStartKeeps(s: string)
    requires s != [] && IsDigit(s[0])
    ensures TrimStart(s, IsJsSpace) == s
  {
  }

  // ---------------------------------------------------------------------------
  // The count and data queries
  // ---------------------------------------------------------------------------

  /** The JSON body of a list endpoint; `None` stands for a count that is not a number. */
  datatype PageEnvelope = PageEnvelope(data: seq<Value>, total: Option<int>, page: int, limit: int, totalPages: Option<int>)

  /**
   * `parseInt(countResult.rows[0]?.total || '0')`: a missing row, a missing total or a null one
   * count as 0, and only a total that is present but not a number gives no count.
   */
  function TotalOf(rows: seq<Value>): (r: Option<int>)
    ensures rows == [] || Get(rows[0], "total").None? || Get(rows[0], "total") == Some(Null) ==> r == Some(0)
    ensures r.None? ==> rows != [] && Get(rows[0], "total").Some? && JsTruthyOpt(Get(rows[0], "total"))
  {
    var v := if rows == [] then None else Get(rows[0], "total");
    if !JsTruthyOpt(v) then Some(0)
    else match v.value
      case Str(s) => ParseIntJs(s)
      case Num(n) => ParseIntJs(IntToString(n))
      case _ => None
  }

  /** `Math.ceil(total / limit)`, which is not a finite number for a zero limit or a `NaN` total. */
  function TotalPages(total: Option<int>, limit: int): Option<int>
  {
    if total.None? || limit == 0 then None else Some(CeilDiv(total.value, limit))
  }

  /** The data query's bind parameters: the count query's, then the limit and the offset. */
  function DataParams(params: seq<Value>, limit: int, offset: int): (r: seq<Value>)
    ensures |r| == |params| + 2 && r[..|params|] == params
    ensures r[|params|] == Num(limit) && r[|params| + 1] == Num(offset)
  {
    params + [Num(limit), Num(offset)]
  }

  /**
   * `executePaginatedQuery(...)`: the count query, then the data query with the limit and offset
   * appended as the last two parameters, both tenant-scoped; an error of either is rethrown and
   * an error of the count query means the data query is never sent.
   */
  method ExecutePaginatedQuery(db: Client, tenantId: string, countSql: string, dataSql: string,
                               params: seq<Value>, page: int, limit: int, offset: int)
    returns (r: Result<PageEnvelope>)
    modifies db
    ensures var t1 := Transcript(old(db.replies), tenantId, countSql, params, DefaultTimeoutMs);
      var rest := Drop(old(db.replies), |t1|);
      var t2 := Transcript(rest, tenantId, dataSql, DataParams(params, limit, offset), DefaultTimeoutMs);
      match OutcomeOf(old(db.replies))
      case Threw(e) => r == Err(e) && db.issued == old(db.issued) + t1
      case Returned(countRows, _) =>
        db.issued == old(db.issued) + t1 + t2
        && match OutcomeOf(rest)
           case Threw(e) => r == Err(e)
           case Returned(rows, _) =>
             r == Ok(PageEnvelope(rows, TotalOf(countRows), page, limit, TotalPages(TotalOf(countRows), limit)))
  {
    var count := ExecuteWithTenant(db, tenantId, countSql, params, DefaultTimeoutMs);
    if count.Threw? {
      return Err(count.error);
    }
    var total := TotalOf(count.rows);
    var data := ExecuteWithTenant(db, tenantId, dataSql, params + [Num(limit), Num(offset)], DefaultTimeoutMs);
    if data.Threw? {
      return Err(data.error);
    }
    r := Ok(PageEnvelope(data.rows, total, page, limit, TotalPages(total, limit)));
  }

  /** With a parsed page size every page count is the exact ceiling, and the pages cover the total. */
  lemma TotalPagesCover(total: nat, page: Option<int>, limit: Option<int>)
    ensures var p := ParsePagination(page, limit);
      var n := TotalPages(Some(total), p.limit);
      n.Some? && n.value >= 0 && (n.value - 1) * p.limit < total <= n.value * p.limit
  {
  }

  lemma TotalOfRendered(n: nat, rest: seq<Value>)
    ensures TotalOf([Obj([Field("total", Str(NatToString(n)))])] + rest) == Some(n)
  {
    var row := Obj([Field("total", Str(NatToString(n)))]);
    assert ([row] + rest)[0] == row;
    assert Get(row, "total") == Some(Str(NatToString(n)));
    ParseIntRoundTrip(n);
    if n == 0 {
      assert NatToString(0) == "0";
    }
  }
}
