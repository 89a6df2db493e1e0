/**
 * The result table (src/ui/table.rs): POC results are appended as they
 * arrive, and `display` prints one row per result in insertion order, with
 * a status label and a placeholder for missing details.
 *
 * Printing is not modelled: `Display` returns the rows it would print,
 * without the title, the rules, the column padding and the colours.
 */
module ResultTable {
  import opened Wrappers
  import opened CoreTypes

  const SuccessLabel: string := "成功"
  const FailureLabel: string := "失败"
  const NoDetails: string := "-"

  /** One printed row: name, target, status label, details. */
  datatype Row = Row(name: string, target: string, status: string, details: string)

  /** The status column: "成功" exactly for a successful result. */
  function StatusLabel(success: bool): (shown: string)
    ensures shown == SuccessLabel <==> success
    ensures shown == FailureLabel <==> !success
  {
    if success then SuccessLabel else FailureLabel
  }

  /** The details column: the details, or "-" when there are none. */
  function DetailsText(details: Option<string>): (text: string)
    ensures details.Some? ==> text == details.value
    ensures details.None? ==> text == NoDetails
  {
    details.UnwrapOr(NoDetails)
  }

  /** The row printed for one result. */
  function RowOf(result: PocResult): (row: Row)
    ensures row.name == result.name && row.target == result.target
    ensures row.status == SuccessLabel <==> result.success
    ensures row.details == DetailsText(result.details)
  {
    Row(result.name, result.target, StatusLabel(result.success), DetailsText(result.details))
  }

  /** The rows printed for `results`, in order. */
  function Rows(results: seq<PocResult>): (rows: seq<Row>)
    ensures |rows| == |results|
    ensures forall i :: 0 <= i < |results| ==> rows[i] == RowOf(results[i])
  {
    if results == [] then [] else Rows(results[..|results| - 1]) + [RowOf(results[|results| - 1])]
  }

  /** Appending a result appends its row and leaves the earlier rows alone. */
  lemma {:induction false} RowsAppend(results: seq<PocResult>, result: PocResult)
    ensures Rows(results + [result]) == Rows(results) + [RowOf(result)]
  {
    assert (results + [result])[..|results|] == results;
  }

  class ResultTable {
    var results: seq<PocResult>

    /** `ResultTable::new`: no results yet. */
    constructor ()
      ensures results == []
    {
      results := [];
    }

    /** `add_result`: the result goes at the end; earlier results are kept in order. */
    method AddResult(result: PocResult)
      modifies this
      ensures results == old(results) + [result]
      ensures |results| == |old(results)| + 1
      ensures results[..|old(results)|] == old(results)
    {
      results := results + [result];
    }

    /** `display`: one row per result, in insertion order. */
    method Display() returns (rows: seq<Row>)
      ensures rows == Rows(results)
    {
      rows := [];
      for i := 0 to |results|
        invariant rows == Rows(results[..i])
      {
        assert results[..i + 1] == results[..i] + [results[i]];
        RowsAppend(results[..i], results[i]);
        rows := rows + [RowOf(results[i])];
      }
      assert results[..|results|] == results;
    }
  }

  /** After `add_result`, `display` shows the earlier rows and then the new one. */
  method AddThenDisplay(table: ResultTable, result: PocResult) returns (rows: seq<Row>)
    modifies table
    ensures rows == Rows(old(table.results)) + [RowOf(result)]
  {
    table.AddResult(result);
    rows := table.Display();
    RowsAppend(old(table.results), result);
  }
}
