/** The record-to-row mapping applied to every element of the source
    `data` array (index.js:51-65). */
module Rows {
  import opened Results
  import opened JsonValues

  /** One spreadsheet row: the cell values, copied from the record unchanged. */
  type Row = seq<Json>

  /** The record fields, in the column order of the destination sheet. */
  const Columns: seq<string> := [
    "shop_name", "duration",
    "today_available", "today_percentage",
    "seven_days_available", "seven_days_percentage",
    "one_month_available", "one_month_percentage",
    "next_month_available", "next_month_percentage",
    "updated_at", "cpa", "updated_daily_budget"
  ]

  /** The value a column takes when its field is missing or null: the empty
      string for the first eleven columns, a dash for the cost-per-acquisition
      and daily-budget columns. */
  function DefaultCell(column: nat): Json {
    if column < 11 then JString("") else JString("-")
  }

  /** The row of one record, or `None` when the record is `null`: reading a
      property of `null` throws a TypeError, which aborts the whole fetch.
      Any other non-object record reads every field as `undefined`. */
  function MapRow(item: Json): (r: Option<Row>)
    ensures r.Some? <==> item != JNull
    ensures r.Some? ==> |r.value| == |Columns| == 13
    ensures r.Some? ==> forall i :: 0 <= i < |Columns| && Present(item, Columns[i]) ==>
      r.value[i] == item.fields[Columns[i]]
    ensures r.Some? ==> forall i :: 0 <= i < |Columns| && !Present(item, Columns[i]) ==>
      r.value[i] == DefaultCell(i)
  {
    if item == JNull then None
    else
      RowFollowsColumnTable(item);
      Some(RowOf(item))
  }

  /** The thirteen cells of a non-null record, written column by column. */
  function RowOf(item: Json): Row {
    var e := JString("");
    var dash := JString("-");
    [
      Coalesce(Get(item, "shop_name"), e),
      Coalesce(Get(item, "duration"), e),
      Coalesce(Get(item, "today_available"), e),
      Coalesce(Get(item, "today_percentage"), e),
      Coalesce(Get(item, "seven_days_available"), e),
      Coalesce(Get(item, "seven_days_percentage"), e),
      Coalesce(Get(item, "one_month_available"), e),
      Coalesce(Get(item, "one_month_percentage"), e),
      Coalesce(Get(item, "next_month_available"), e),
      Coalesce(Get(item, "next_month_percentage"), e),
      Coalesce(Get(item, "updated_at"), e),
      Coalesce(Get(item, "cpa"), dash),
      Coalesce(Get(item, "updated_daily_budget"), dash)
    ]
  }

  /** The column-by-column row agrees with the column table. */
  lemma RowFollowsColumnTable(item: Json)
    requires item != JNull
    ensures |RowOf(item)| == |Columns|
    ensures forall i :: 0 <= i < |Columns| ==> RowOf(item)[i] == Cell(item, i)
  {
    var row := RowOf(item);
    forall i | 0 <= i < |Columns|
      ensures row[i] == Cell(item, i)
    {
      ColumnFollowsTable(item, i);
    }
  }

  /** One column of the column-by-column row agrees with the column table. */
  lemma ColumnFollowsTable(item: Json, i: nat)
    requires item != JNull
    requires i < |Columns|
    ensures RowOf(item)[i] == Cell(item, i)
  {
  }

  /** The value column `i` takes for `item`, read off the column table. */
  function Cell(item: Json, i: nat): (r: Json)
    requires item != JNull
    requires i < |Columns|
    ensures Present(item, Columns[i]) ==> r == item.fields[Columns[i]]
    ensures !Present(item, Columns[i]) ==> r == DefaultCell(i)
  {
    Coalesce(Get(item, Columns[i]), DefaultCell(i))
  }

  /** `data.map(MapRow)`: one row per element, in the same order, or `None`
      as soon as one element is `null`. */
  function MapRows(data: seq<Json>): (r: Option<seq<Row>>)
    ensures r.Some? <==> forall i :: 0 <= i < |data| ==> data[i] != JNull
    ensures r.Some? ==> |r.value| == |data|
    ensures r.Some? ==> forall i :: 0 <= i < |data| ==> MapRow(data[i]) == Some(r.value[i])
  {
    if data == [] then Some([])
    else
      match MapRow(data[0])
      case None => None
      case Some(row) =>
        match MapRows(data[1..])
        case None => None
        case Some(rest) => Some([row] + rest)
  }

  /** Two records that agree on the thirteen column fields give the same
      row: every other field of a record is ignored. */
  lemma MapRowReadsOnlyColumns(a: Json, b: Json)
    requires a != JNull && b != JNull
    requires forall i :: 0 <= i < |Columns| ==>
      Present(a, Columns[i]) == Present(b, Columns[i]) &&
      (Present(a, Columns[i]) ==> a.fields[Columns[i]] == b.fields[Columns[i]])
    ensures MapRow(a) == MapRow(b)
  {
    var ra, rb := MapRow(a).value, MapRow(b).value;
    forall i | 0 <= i < |Columns|
      ensures ra[i] == rb[i]
    {
      if Present(a, Columns[i]) {
        assert ra[i] == a.fields[Columns[i]];
      } else {
        assert ra[i] == DefaultCell(i);
      }
    }
    assert ra == rb;
  }

  /** The record `{shop_name: "A", today_available: 5}` becomes
      `["A", "", 5, "", "", "", "", "", "", "", "", "-", "-"]`. */
  lemma SparseRecordExample()
    ensures MapRow(JObject(map["shop_name" := JString("A"), "today_available" := JNumber(5.0)]))
      == Some([JString("A"), JString(""), JNumber(5.0), JString(""), JString(""), JString(""),
               JString(""), JString(""), JString(""), JString(""), JString(""), JString("-"), JString("-")])
  {
  }

  /** Falsy values are kept: `0`, `false` and `""` are copied, and only
      `null` falls back to the column default. */
  lemma FalsyValuesKeptExample()
    ensures MapRow(JObject(map["today_available" := JNumber(0.0), "duration" := JBool(false),
                               "cpa" := JString(""), "updated_daily_budget" := JNull]))
      == Some([JString(""), JBool(false), JNumber(0.0), JString(""), JString(""), JString(""),
               JString(""), JString(""), JString(""), JString(""), JString(""), JString(""), JString("-")])
  {
  }
}
