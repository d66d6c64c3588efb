/**
 * Building database rows from API records, as every provider's `for x in batch: rows.append(…)`
 * loop does: a record's fields are read with defaults (`d.get(key, default)`) or required
 * (`d[key]`, which raises `KeyError` when the key is missing), and the first record that raises
 * ends the loop.
 */
module Rows {
  import opened Base
  import opened Values

  /** `d.get(key, default)`. */
  function GetOr(v: Value, key: string, default: Value): (r: Value)
    ensures Get(v, key).Some? ==> r == Get(v, key).value
    ensures Get(v, key).None? ==> r == default
  {
    match Get(v, key)
    case Some(x) => x
    case None => default
  }

  const KeyErrorPrefix := "KeyError: "

  /** `d[key]`: a missing key raises `KeyError`. */
  function Required(v: Value, key: string): (r: Result<Value>)
    ensures r.Ok? <==> Get(v, key).Some?
    ensures r.Ok? ==> r.value == Get(v, key).value
    ensures r.Err? ==> r.message == KeyErrorPrefix + key
  {
    match Get(v, key)
    case Some(x) => Ok(x)
    case None => Err(KeyErrorPrefix + key)
  }

  /** The rows of `items`, or the error of the first item that has none. */
  function AllRows<T>(items: seq<Value>, row: Value -> Result<T>): Result<seq<T>>
    decreases |items|
  {
    if items == [] then Ok([])
    else
      match AllRows(items[..|items| - 1], row)
      case Err(e) => Err(e)
      case Ok(rows) =>
        match row(items[|items| - 1])
        case Err(e) => Err(e)
        case Ok(last) => Ok(rows + [last])
  }

  /** The `for x in batch: rows.append(…)` loops, with the row built by `row`. */
  method BuildRows<T>(items: seq<Value>, row: Value -> Result<T>) returns (rows: Result<seq<T>>)
    ensures rows == AllRows(items, row)
  {
    var built: seq<T> := [];
    for i := 0 to |items|
      invariant AllRows(items[..i], row) == Ok(built)
    {
      assert items[..i + 1][..i] == items[..i];
      var r := row(items[i]);
      if r.Err? {
        rows := Err(r.message);
        AllRowsErrorStays(items, row, i + 1);
        return;
      }
      built := built + [r.value];
    }
    assert items[..|items|] == items;
    rows := Ok(built);
  }

  /** One more item: its row is appended, or its error ends the rows. */
  lemma AllRowsStep<T>(items: seq<Value>, row: Value -> Result<T>, i: nat, built: seq<T>)
    requires i < |items| && AllRows(items[..i], row) == Ok(built)
    ensures row(items[i]).Ok? ==> AllRows(items[..i + 1], row) == Ok(built + [row(items[i]).value])
    ensures row(items[i]).Err? ==> AllRows(items[..i + 1], row) == Err(row(items[i]).message)
  {
    assert items[..i + 1][..i] == items[..i];
  }

  lemma {:induction false} AllRowsErrorStays<T>(items: seq<Value>, row: Value -> Result<T>, n: nat)
    requires n <= |items| && AllRows(items[..n], row).Err?
    ensures AllRows(items, row) == AllRows(items[..n], row)
    decreases |items| - n
  {
    if n < |items| {
      assert items[..n + 1][..n] == items[..n];
      AllRowsErrorStays(items, row, n + 1);
    } else {
      assert items[..n] == items;
    }
  }

  /** All rows are built exactly when every item has one; then there is one row per item, in order. */
  lemma {:induction false} AllRowsOk<T>(items: seq<Value>, row: Value -> Result<T>)
    ensures AllRows(items, row).Ok? <==> forall i :: 0 <= i < |items| ==> row(items[i]).Ok?
    ensures AllRows(items, row).Ok? ==>
      |AllRows(items, row).value| == |items|
      && forall i :: 0 <= i < |items| ==> AllRows(items, row).value[i] == row(items[i]).value
    decreases |items|
  {
    if items != [] {
      var init := items[..|items| - 1];
      AllRowsOk(init, row);
      assert forall i :: 0 <= i < |init| ==> init[i] == items[i];
    }
  }

  /** A failure is the first failing item's error. */
  lemma {:induction false} AllRowsFirstError<T>(items: seq<Value>, row: Value -> Result<T>)
    ensures AllRows(items, row).Err? ==>
      exists i :: 0 <= i < |items| && row(items[i]) == Err(AllRows(items, row).message)
                  && forall j :: 0 <= j < i ==> row(items[j]).Ok?
    decreases |items|
  {
    if items != [] {
      var init := items[..|items| - 1];
      AllRowsFirstError(init, row);
      AllRowsOk(init, row);
      assert forall i :: 0 <= i < |init| ==> init[i] == items[i];
      if AllRows(init, row).Err? {
        var i :| 0 <= i < |init| && row(init[i]) == Err(AllRows(init, row).message)
                 && forall j :: 0 <= j < i ==> row(init[j]).Ok?;
        assert row(items[i]) == Err(AllRows(items, row).message);
      } else {
        assert items[|items| - 1] == items[|init|];
      }
    }
  }

}
