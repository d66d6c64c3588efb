/**
 * The results table shown under a chat answer: which columns are shown and how their headers and
 * cells are rendered, which cells become drill-down links, and the table's sort and page state.
 * The locale-aware string comparison is a parameter, assumed to be a total preorder.
 */
module ResultsTable {
  import opened Base
  import opened Text
  import opened Values
  import opened QueryBuilder

  // ---------------------------------------------------------------------------
  // Rendering values
  // ---------------------------------------------------------------------------

  /** JavaScript's `String(v)` for the values a row can hold. */
  function JsString(v: Value): string
  {
    match v
    case Null => "null"
    case Bool(b) => if b then "true" else "false"
    case Num(n) => IntToString(n)
    case Str(s) => s
    case Arr(items) =>
      // inside `String(array)` a null element becomes the empty string
      Join(seq(|items|, i requires 0 <= i < |items| => if items[i].Null? then "" else JsString(items[i])), ",")
    case Obj(_) => "[object Object]"
  }

  const EmDash := "—"

  /**
   * `formatValue(value)`: a missing or null value is an em dash, an object or array its JSON text
   * (`stringify` stands for `JSON.stringify`), anything else `String(value)`.
   */
  function FormatValue(value: Option<Value>, stringify: Value -> string): (r: string)
    ensures value.None? || value == Some(Null) ==> r == EmDash
    ensures value.Some? && value.value.Str? ==> r == value.value.s
  {
    match value
    case None => EmDash
    case Some(v) =>
      if v.Null? then EmDash
      else if v.Arr? || v.Obj? then stringify(v)
      else JsString(v)
  }

  /** The only value shown as an em dash without being missing or null is the em dash itself. */
  lemma FormatValueDash(value: Option<Value>, stringify: Value -> string)
    requires value.Some? && !value.value.Null? && !value.value.Arr? && !value.value.Obj?
    ensures FormatValue(value, stringify) == EmDash <==> value.value == Str(EmDash)
  {
    var v := value.value;
    if v.Bool? {
      assert JsString(v)[0] != EmDash[0];
    } else if v.Num? {
      if v.n < 0 {
        assert JsString(v)[0] == '-';
      } else {
        NatToStringDigits(v.n);
        assert IsDigit(JsString(v)[0]);
      }
    }
  }

  lemma NatToStringDigits(n: nat)
    ensures NatToString(n) != [] && IsDigit(NatToString(n)[0])
  {
    NatToStringRoundTrip(n);
    if n >= 10 {
      NatToStringDigits(n / 10);
    }
  }

  // ---------------------------------------------------------------------------
  // Headers
  // ---------------------------------------------------------------------------

  /** `key.replace(/_/g, ' ')`. */
  function SpaceUnderscores(key: string): (r: string)
    ensures |r| == |key| && '_' !in r
  {
    seq(|key|, i requires 0 <= i < |key| => if key[i] == '_' then ' ' else key[i])
  }

  /** Position `i` is matched by `\b\w`: a word character not preceded by one. */
  predicate WordStart(s: string, i: int)
    requires 0 <= i < |s|
  {
    IsWordChar(s[i]) && (i == 0 || !IsWordChar(s[i - 1]))
  }

  /** `formatHeader(key)`: underscores become spaces and every word starts with a capital letter. */
  function FormatHeader(key: string): (r: string)
    ensures |r| == |key| && '_' !in r
  {
    var s := SpaceUnderscores(key);
    seq(|s|, i requires 0 <= i < |s| => if WordStart(s, i) then UpperChar(s[i]) else s[i])
  }

  /**
   * A header differs from its key only in spaces for underscores and capitals at word starts: it
   * is the same text once lower-cased and with underscores spaced out.
   */
  lemma FormatHeaderShape(key: string)
    ensures var r := FormatHeader(key);
      (forall i :: 0 <= i < |key| ==> (r[i] == ' ' <==> key[i] == '_' || key[i] == ' '))
      && Lower(r) == Lower(SpaceUnderscores(key))
      && (forall i :: 0 <= i < |r| && WordStart(r, i) ==> !IsAsciiLower(r[i]))
  {
    var s := SpaceUnderscores(key);
    var r := FormatHeader(key);
    forall i | 0 <= i < |r|
      ensures IsWordChar(r[i]) <==> IsWordChar(s[i])
      ensures LowerChar(r[i]) == LowerChar(s[i])
    {
    }
    forall i | 0 <= i < |r| && WordStart(r, i)
      ensures !IsAsciiLower(r[i])
    {
      assert WordStart(s, i);
    }
  }

  /** Formatting a header again changes nothing. */
  lemma FormatHeaderIdempotent(key: string)
    ensures FormatHeader(FormatHeader(key)) == FormatHeader(key)
  {
    var r := FormatHeader(key);
    var s := SpaceUnderscores(key);
    assert SpaceUnderscores(r) == r;
    forall i | 0 <= i < |r|
      ensures IsWordChar(r[i]) <==> IsWordChar(s[i])
    {
    }
    forall i | 0 <= i < |r|
      ensures FormatHeader(r)[i] == r[i]
    {
      if WordStart(r, i) {
        assert WordStart(s, i);
      }
    }
  }

  // ---------------------------------------------------------------------------
  // Columns
  // ---------------------------------------------------------------------------

  /** Internal id columns are hidden, except the account or project id. */
  predicate Shown(key: string)
  {
    !EndsWith(key, "_id") || key == "account_or_project_id"
  }

  function ShownKeys(keys: seq<string>): (r: seq<string>)
    ensures |r| <= |keys|
    ensures forall k :: k in r <==> k in keys && Shown(k)
  {
    if keys == [] then []
    else if Shown(keys[0]) then [keys[0]] + ShownKeys(keys[1..])
    else ShownKeys(keys[1..])
  }

  /** The columns: the first row's keys that are shown, in order; none for no rows. */
  function Columns(data: seq<Value>): (r: seq<string>)
    ensures data == [] ==> r == []
    ensures data != [] ==> forall k :: k in r <==> k in Keys(data[0]) && Shown(k)
  {
    if data == [] then [] else ShownKeys(Keys(data[0]))
  }

  /** The columns keep the order of the first row's keys. */
  lemma {:induction false} ShownKeysOrdered(keys: seq<string>, i: nat, j: nat)
    requires i < j < |ShownKeys(keys)| && NoDupStrings(keys)
    ensures exists a, b :: 0 <= a < b < |keys| && keys[a] == ShownKeys(keys)[i] && keys[b] == ShownKeys(keys)[j]
  {
    assert keys != [];
    var tail := ShownKeys(keys[1..]);
    assert NoDupStrings(keys[1..]) by {
      forall a, b | 0 <= a < b < |keys[1..]| ensures keys[1..][a] != keys[1..][b] {
        assert keys[1..][a] == keys[a + 1] && keys[1..][b] == keys[b + 1];
      }
    }
    if Shown(keys[0]) {
      if i == 0 {
        assert ShownKeys(keys)[j] == tail[j - 1];
        assert tail[j - 1] in keys[1..];
        var b :| 0 <= b < |keys[1..]| && keys[1..][b] == tail[j - 1];
        assert keys[b + 1] == ShownKeys(keys)[j];
        assert keys[0] == ShownKeys(keys)[0];
      } else {
        ShownKeysOrdered(keys[1..], i - 1, j - 1);
        var a, b :| 0 <= a < b < |keys[1..]| && keys[1..][a] == tail[i - 1] && keys[1..][b] == tail[j - 1];
        assert keys[a + 1] == ShownKeys(keys)[i] && keys[b + 1] == ShownKeys(keys)[j];
      }
    } else {
      ShownKeysOrdered(keys[1..], i, j);
      var a, b :| 0 <= a < b < |keys[1..]| && keys[1..][a] == tail[i] && keys[1..][b] == tail[j];
      assert keys[a + 1] == ShownKeys(keys)[i] && keys[b + 1] == ShownKeys(keys)[j];
    }
  }

  predicate NoDupStrings(keys: seq<string>)
  {
    forall a, b :: 0 <= a < b < |keys| ==> keys[a] != keys[b]
  }

  // ---------------------------------------------------------------------------
  // Drill-down links
  // ---------------------------------------------------------------------------

  /** `getDrilldownLink(key, value, row)`: the first rule that applies, or none. */
  function DrilldownLink(key: string, value: Option<Value>, row: Value): (r: Option<string>)
    ensures r.Some? ==> value.Some? && value.value.Str? && value.value.s != ""
  {
    if value.None? || !value.value.Str? || value.value.s == "" then None
    else
      var s := value.value.s;
      var person := Get(row, "person_id");
      if key == "display_name" && JsTruthyOpt(person) then Some("/people/" + JsString(person.value))
      else if key == "account_or_project_id" && Get(row, "cloud_provider") == Some(Str("aws")) then
        Some("/resources/aws-accounts?search=" + s)
      else if key == "account_or_project_id" && Get(row, "cloud_provider") == Some(Str("gcp")) then
        Some("/resources/gcp-projects?search=" + s)
      else if key == "via_group_name" then Some("/groups?search=" + s)
      else None
  }

  /** Which cells link where: exactly the four rules, each for a non-empty string cell. */
  lemma DrilldownRules(key: string, value: Option<Value>, row: Value)
    ensures var r := DrilldownLink(key, value, row);
      var text := value.Some? && value.value.Str? && value.value.s != "";
      var cloud := Get(row, "cloud_provider");
      (r.Some? <==> text && ((key == "display_name" && JsTruthyOpt(Get(row, "person_id")))
                             || (key == "account_or_project_id" && (cloud == Some(Str("aws")) || cloud == Some(Str("gcp"))))
                             || key == "via_group_name"))
      && (r.Some? && key == "display_name" ==> r.value == "/people/" + JsString(Get(row, "person_id").value))
      && (r.Some? && key == "account_or_project_id" ==>
            r.value == (if cloud == Some(Str("aws")) then "/resources/aws-accounts?search="
                        else "/resources/gcp-projects?search=") + value.value.s)
      && (r.Some? && key == "via_group_name" ==> r.value == "/groups?search=" + value.value.s)
  {
  }

  // ---------------------------------------------------------------------------
  // Sorting
  // ---------------------------------------------------------------------------

  /** `le(a, b)` stands for `a.localeCompare(b) <= 0`. */
  ghost predicate TotalPreorder<T(!new)>(le: (T, T) -> bool)
  {
    (forall a, b :: le(a, b) || le(b, a))
    && (forall a, b, c :: le(a, b) && le(b, c) ==> le(a, c))
  }

  /** The text a row is sorted by: `String(row[key] ?? '')`. */
  function SortText(row: Value, key: string): string
  {
    match Get(row, key)
    case None => ""
    case Some(v) => if v.Null? then "" else JsString(v)
  }

  /** Whether `a` may precede `b`: ascending uses the comparison as is, descending swaps its operands. */
  function RowOrder(le: (string, string) -> bool, key: string, asc: bool): (Value, Value) -> bool
  {
    (a: Value, b: Value) => if asc then le(SortText(a, key), SortText(b, key)) else le(SortText(b, key), SortText(a, key))
  }

  lemma RowOrderPreorder(le: (string, string) -> bool, key: string, asc: bool)
    requires TotalPreorder(le)
    ensures TotalPreorder(RowOrder(le, key, asc))
  {
    var before := RowOrder(le, key, asc);
    forall a, b ensures before(a, b) || before(b, a) {
      assert le(SortText(a, key), SortText(b, key)) || le(SortText(b, key), SortText(a, key));
    }
    forall a, b, c | before(a, b) && before(b, c) ensures before(a, c) {
      var x, y, z := SortText(a, key), SortText(b, key), SortText(c, key);
      if asc {
        assert le(x, y) && le(y, z);
      } else {
        assert le(z, y) && le(y, x);
      }
    }
  }

  /** Every element may precede every later one. */
  predicate Ordered<T>(s: seq<T>, before: (T, T) -> bool)
  {
    forall i, j :: 0 <= i < j < |s| ==> before(s[i], s[j])
  }

  /** Puts `x` before the first element it may precede. */
  function Insert<T>(x: T, s: seq<T>, before: (T, T) -> bool): (r: seq<T>)
    ensures multiset(r) == multiset(s) + multiset{x}
  {
    if s == [] then [x]
    else if before(x, s[0]) then [x] + s
    else
      assert s == [s[0]] + s[1..];
      [s[0]] + Insert(x, s[1..], before)
  }

  /** A stable sort (`Array.prototype.sort`) by insertion from the back: a permutation of `s`. */
  function SortBy<T>(s: seq<T>, before: (T, T) -> bool): (r: seq<T>)
    ensures multiset(r) == multiset(s)
  {
    assert s != [] ==> s == [s[0]] + s[1..];
    if s == [] then [] else Insert(s[0], SortBy(s[1..], before), before)
  }

  lemma {:induction false} InsertOrdered<T(!new)>(x: T, s: seq<T>, before: (T, T) -> bool)
    requires TotalPreorder(before) && Ordered(s, before)
    ensures Ordered(Insert(x, s, before), before)
  {
    if s != [] && !before(x, s[0]) {
      var t := Insert(x, s[1..], before);
      InsertOrdered(x, s[1..], before);
      assert before(s[0], x);
      forall k | 0 <= k < |t| ensures before(s[0], t[k]) {
        assert t[k] in multiset(t);
        assert t[k] in multiset(s[1..]) + multiset{x};
        if t[k] != x {
          var m :| 0 <= m < |s[1..]| && s[1..][m] == t[k];
          assert s[m + 1] == t[k];
        }
      }
      var r := [s[0]] + t;
      forall i, j | 0 <= i < j < |r| ensures before(r[i], r[j]) {
        if i > 0 {
          assert r[i] == t[i - 1] && r[j] == t[j - 1];
        } else {
          assert r[j] == t[j - 1];
        }
      }
    } else if s != [] {
      var r := [x] + s;
      forall i, j | 0 <= i < j < |r| ensures before(r[i], r[j]) {
        if i == 0 {
          assert r[j] == s[j - 1];
          if j > 1 {
            assert before(s[0], s[j - 1]);
          }
        } else {
          assert r[i] == s[i - 1] && r[j] == s[j - 1];
        }
      }
    }
  }

  lemma {:induction false} SortByOrdered<T(!new)>(s: seq<T>, before: (T, T) -> bool)
    requires TotalPreorder(before)
    ensures Ordered(SortBy(s, before), before)
  {
    if s != [] {
      SortByOrdered(s[1..], before);
      InsertOrdered(s[0], SortBy(s[1..], before), before);
    }
  }

  // ---------------------------------------------------------------------------
  // Table state: sort key, direction and page
  // ---------------------------------------------------------------------------

  datatype TableState = TableState(page: int, sortKey: Option<string>, sortAsc: bool)

  const InitialState := TableState(0, None, true)

  const DefaultPageSize := 20

  /** `sortedData`: the rows unchanged without a sort key, otherwise sorted by that column. */
  function SortedData(data: seq<Value>, st: TableState, le: (string, string) -> bool): (r: seq<Value>)
    ensures multiset(r) == multiset(data)
    ensures st.sortKey.None? || st.sortKey.value == "" ==> r == data
  {
    if st.sortKey.None? || st.sortKey.value == "" then data
    else SortBy(data, RowOrder(le, st.sortKey.value, st.sortAsc))
  }

  /** Without a key the order is the data's; with one it is a permutation in the chosen direction. */
  lemma SortedDataSpec(data: seq<Value>, st: TableState, le: (string, string) -> bool)
    requires TotalPreorder(le)
    ensures var r := SortedData(data, st, le);
      multiset(r) == multiset(data)
      && (st.sortKey.None? || st.sortKey.value == "" ==> r == data)
      && (st.sortKey.Some? && st.sortKey.value != "" ==> Ordered(r, RowOrder(le, st.sortKey.value, st.sortAsc)))
  {
    if st.sortKey.Some? && st.sortKey.value != "" {
      var before := RowOrder(le, st.sortKey.value, st.sortAsc);
      RowOrderPreorder(le, st.sortKey.value, st.sortAsc);
      SortByOrdered(data, before);
    }
  }

  /** `handleSort(key)`: the current key toggles the direction, a new key sorts ascending by it. */
  function HandleSort(st: TableState, key: string): (r: TableState)
    ensures r.sortKey == Some(key) && r.page == st.page
  {
    if st.sortKey == Some(key) then st.(sortAsc := !st.sortAsc)
    else st.(sortKey := Some(key), sortAsc := true)
  }

  /** Clicking the same header twice restores the direction; a new header always starts ascending. */
  lemma HandleSortToggles(st: TableState, key: string)
    ensures st.sortKey == Some(key) ==> HandleSort(HandleSort(st, key), key) == st
    ensures st.sortKey != Some(key) ==> HandleSort(st, key).sortAsc
    ensures st.sortKey != Some(key) ==> !HandleSort(HandleSort(st, key), key).sortAsc
  {
  }

  /** `Math.ceil(n / pageSize)`. */
  function PageCount(n: nat, pageSize: int): (r: int)
    requires pageSize > 0
    ensures r >= 0 && (r - 1) * pageSize < n <= r * pageSize
  {
    CeilDiv(n, pageSize)
  }

  /** `Array.prototype.slice(start, end)`, negative positions counting from the end. */
  function JsSlice<T>(s: seq<T>, start: int, end: int): (r: seq<T>)
  {
    var a := if start < 0 then Max(|s| + start, 0) else Min(start, |s|);
    var b := if end < 0 then Max(|s| + end, 0) else Min(end, |s|);
    if a < b then s[a..b] else []
  }

  /** `pageData`: the rows of page `page`. */
  function PageData<T>(s: seq<T>, page: int, pageSize: int): (r: seq<T>)
    requires pageSize > 0
    ensures |r| <= pageSize
    ensures page >= 0 ==> r == s[Min(page * pageSize, |s|)..Min((page + 1) * pageSize, |s|)]
  {
    JsSlice(s, page * pageSize, (page + 1) * pageSize)
  }

  /** All pages in order. */
  function Pages<T>(s: seq<T>, pageSize: int, count: nat): seq<seq<T>>
    requires pageSize > 0
  {
    seq(count, i requires 0 <= i < count => PageData(s, i, pageSize))
  }

  /** Reading every page in turn shows every row exactly once, in order. */
  lemma PagesCover<T>(s: seq<T>, pageSize: int)
    requires pageSize > 0
    ensures Flatten(Pages(s, pageSize, PageCount(|s|, pageSize))) == s
  {
    var c := PageCount(|s|, pageSize);
    WindowsPrefix(s, pageSize, Pages(s, pageSize, c));
  }

  /** The numbers in "Showing a–b of n" span exactly the rows on the page. */
  lemma ShowingRange<T>(s: seq<T>, page: int, pageSize: int)
    requires pageSize > 0 && 0 <= page < PageCount(|s|, pageSize)
    ensures var first := page * pageSize + 1; var last := Min((page + 1) * pageSize, |s|);
      1 <= first <= last && last - first + 1 == |PageData(s, page, pageSize)|
  {
    var c := PageCount(|s|, pageSize);
    assert page <= c - 1;
    assert page * pageSize <= (c - 1) * pageSize;
  }

  /** The "Previous" button. */
  function PrevPage(st: TableState): TableState
  {
    st.(page := Max(0, st.page - 1))
  }

  /** The "Next" button. */
  function NextPage(st: TableState, pageCount: int): TableState
  {
    st.(page := Min(pageCount - 1, st.page + 1))
  }

  /** With at least one page, the buttons keep the page among the existing ones and move it by one at most. */
  lemma PageButtonsStayInRange(st: TableState, pageCount: int)
    requires pageCount >= 1 && 0 <= st.page < pageCount
    ensures 0 <= PrevPage(st).page < pageCount && 0 <= NextPage(st, pageCount).page < pageCount
    ensures PrevPage(st).page == (if st.page == 0 then 0 else st.page - 1)
    ensures NextPage(st, pageCount).page == (if st.page == pageCount - 1 then st.page else st.page + 1)
  {
  }
}
