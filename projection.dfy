/// The row projection: from a host table and the three selected column ids to
/// the list of `{source, target, value, path}` items handed to the chart.
module Projection {
  import opened JsValues

  /** A field's metadata as the host lists it. */
  datatype FieldMeta = FieldMeta(id: string, name: string)

  /** The parts of a host table the projection reads: its whole field list,
      its whole record-id list, and the string form of each cell, looked up by
      field id and record id. */
  datatype HostTable = HostTable(fields: seq<FieldMeta>, records: seq<string>, cell: (string, string) -> string)

  /** One record as a dictionary from field name to cell string. */
  type Row = map<string, string>

  /** The `value` slot of an item: the raw cell text until the parse pass
      replaces it with a number. */
  datatype Weight = Text(raw: Option<string>) | Number(n: JsNumber)

  /** One chart item. `source` and `target` are `undefined` (None) when the
      record has no entry under the looked-up key. */
  datatype ChartItem = ChartItem(source: Option<string>, target: Option<string>, value: Weight, path: string)

  /** Strict equality of a field's id with a column id: only a string equal to the field id matches. */
  predicate IdMatches(f: FieldMeta, id: JsValue)
  {
    id == Str(f.id)
  }

  /** Name lookup by id: the name of the first field whose id is `id`, or
      `undefined` when no field has it. */
  function FindNameById(fields: seq<FieldMeta>, id: JsValue): (r: Option<string>)
    ensures r.None? <==> forall i :: 0 <= i < |fields| ==> !IdMatches(fields[i], id)
    ensures r.Some? ==> exists i :: 0 <= i < |fields| && IdMatches(fields[i], id) && r.value == fields[i].name &&
                                    forall j :: 0 <= j < i ==> !IdMatches(fields[j], id)
  {
    if |fields| == 0 then None
    else if IdMatches(fields[0], id) then Some(fields[0].name)
    else
      var r := FindNameById(fields[1..], id);
      assert forall i :: 1 <= i < |fields| ==> fields[i] == fields[1..][i - 1];
      r
  }

  /** The dictionary the inner loop has built once it has stored the cells of
      `fields` for `record`, in order; a later field overwrites an earlier one
      of the same name. */
  function RowOf(fields: seq<FieldMeta>, record: string, cell: (string, string) -> string): Row
  {
    if |fields| == 0 then map[]
    else
      var last := fields[|fields| - 1];
      RowOf(fields[..|fields| - 1], record, cell)[last.name := cell(last.id, record)]
  }

  /** Reading a dictionary entry by resolved name: the property key is the resolved name, or "undefined"
      when the column did not resolve; a missing key reads as `undefined`. */
  function Lookup(row: Row, name: Option<string>): Option<string>
  {
    var key := JsString(name);
    if key in row then Some(row[key]) else None
  }

  /** The item the second loop pushes for one record, before the parse pass. */
  function Entry(row: Row, s: Option<string>, t: Option<string>, v: Option<string>): ChartItem
  {
    var source := Lookup(row, s);
    var target := Lookup(row, t);
    var value := Lookup(row, v);
    ChartItem(source, target, Text(value), JsString(source) + " -> " + JsString(target) + " -> " + JsString(value))
  }

  /** The parse pass on one item: its value is replaced by the float parse
      of its text; the parse converts its argument to a string first, so an `undefined` value is parsed as "undefined". */
  function ParseValue(item: ChartItem, parseFloat: string -> JsNumber): ChartItem
    requires item.value.Text?
  {
    item.(value := Number(parseFloat(JsString(item.value.raw))))
  }

  /** The chart data for one table and one column selection. */
  function ChartData(table: HostTable, sourceCol: JsValue, targetCol: JsValue, valueCol: JsValue,
                     parseFloat: string -> JsNumber): (r: seq<ChartItem>)
    ensures |r| == |table.records|
  {
    var s := FindNameById(table.fields, sourceCol);
    var t := FindNameById(table.fields, targetCol);
    var v := FindNameById(table.fields, valueCol);
    seq(|table.records|, i requires 0 <= i < |table.records| =>
      ParseValue(Entry(RowOf(table.fields, table.records[i], table.cell), s, t, v), parseFloat))
  }

  /** The first loop of the projection routine: one dictionary per record,
      in record order, each filled by the inner loop over the field list. */
  method RecordDictionaries(table: HostTable) returns (originData: seq<Row>)
    ensures |originData| == |table.records|
    ensures forall k :: 0 <= k < |originData| ==> originData[k] == RowOf(table.fields, table.records[k], table.cell)
  {
    var fields, records := table.fields, table.records;
    originData := [];
    var i := 0;
    while i < |records|
      invariant 0 <= i <= |records|
      invariant |originData| == i
      invariant forall k :: 0 <= k < i ==> originData[k] == RowOf(fields, records[k], table.cell)
    {
      var recordData: Row := map[];
      var a := 0;
      while a < |fields|
        invariant 0 <= a <= |fields|
        invariant recordData == RowOf(fields[..a], records[i], table.cell)
      {
        var cellString := table.cell(fields[a].id, records[i]);
        assert fields[..a + 1][..a] == fields[..a];
        recordData := recordData[fields[a].name := cellString];
        a := a + 1;
      }
      assert fields[..a] == fields;
      originData := originData + [recordData];
      i := i + 1;
    }
  }

  /** The projection routine up to the drawing: build one dictionary per
      record, push one item per dictionary, then parse every item's value in
      place. */
  method CalcChartData(table: HostTable, sourceCol: JsValue, targetCol: JsValue, valueCol: JsValue,
                       parseFloat: string -> JsNumber) returns (chartData: seq<ChartItem>)
    ensures |chartData| == |table.records|
    ensures forall i :: 0 <= i < |chartData| ==>
      chartData[i] == ParseValue(Entry(RowOf(table.fields, table.records[i], table.cell),
                                       FindNameById(table.fields, sourceCol),
                                       FindNameById(table.fields, targetCol),
                                       FindNameById(table.fields, valueCol)), parseFloat)
  {
    var s := FindNameById(table.fields, sourceCol);
    var t := FindNameById(table.fields, targetCol);
    var v := FindNameById(table.fields, valueCol);
    var originData := RecordDictionaries(table);

    chartData := [];
    var j := 0;
    while j < |originData|
      invariant 0 <= j <= |originData|
      invariant |chartData| == j
      invariant forall k :: 0 <= k < j ==> chartData[k] == Entry(originData[k], s, t, v)
    {
      chartData := chartData + [Entry(originData[j], s, t, v)];
      j := j + 1;
    }

    var p := 0;
    while p < |chartData|
      invariant 0 <= p <= |chartData| == |originData|
      invariant forall k :: 0 <= k < p ==> chartData[k] == ParseValue(Entry(originData[k], s, t, v), parseFloat)
      invariant forall k :: p <= k < |chartData| ==> chartData[k] == Entry(originData[k], s, t, v)
    {
      chartData := chartData[p := ParseValue(chartData[p], parseFloat)];
      p := p + 1;
    }
  }

  // ---------------------------------------------------------------------
  // Properties of the per-record dictionary

  /** The dictionary has one key per field name, and no other key. */
  lemma {:induction false} RowKeys(fields: seq<FieldMeta>, record: string, cell: (string, string) -> string)
    ensures RowOf(fields, record, cell).Keys == set i | 0 <= i < |fields| :: fields[i].name
  {
    if |fields| > 0 {
      var n := |fields| - 1;
      RowKeys(fields[..n], record, cell);
      assert forall i :: 0 <= i < n ==> fields[..n][i] == fields[i];
      assert (set i | 0 <= i < |fields| :: fields[i].name)
          == (set i | 0 <= i < n :: fields[..n][i].name) + {fields[n].name};
    }
  }

  /** A field's cell is what the dictionary holds under its name when no later
      field has the same name: of two fields sharing a name, the later wins. */
  lemma {:induction false} LastFieldWins(fields: seq<FieldMeta>, record: string, cell: (string, string) -> string, i: nat)
    requires i < |fields|
    requires forall j :: i < j < |fields| ==> fields[j].name != fields[i].name
    ensures fields[i].name in RowOf(fields, record, cell)
    ensures RowOf(fields, record, cell)[fields[i].name] == cell(fields[i].id, record)
  {
    var n := |fields| - 1;
    if i < n {
      assert forall j :: i < j < n ==> fields[..n][j] == fields[j];
      LastFieldWins(fields[..n], record, cell, i);
    }
  }

  // ---------------------------------------------------------------------
  // Properties of the chart items

  /** A column id that names field `si` (the first field with that id)
      reads, for every record, the cell of the last field that has the same
      name as field `si`; when names are unique, that is field `si` itself. */
  lemma ResolvedColumnReadsCell(fields: seq<FieldMeta>, record: string, cell: (string, string) -> string,
                                col: JsValue, si: nat, li: nat)
    requires si < |fields| && col == Str(fields[si].id)
    requires forall j :: 0 <= j < si ==> !IdMatches(fields[j], col)
    requires li < |fields| && fields[li].name == fields[si].name
    requires forall j :: li < j < |fields| ==> fields[j].name != fields[li].name
    ensures FindNameById(fields, col) == Some(fields[si].name)
    ensures Lookup(RowOf(fields, record, cell), FindNameById(fields, col)) == Some(cell(fields[li].id, record))
  {
    var r := FindNameById(fields, col);
    var i :| 0 <= i < |fields| && IdMatches(fields[i], col) && r.value == fields[i].name &&
             forall j :: 0 <= j < i ==> !IdMatches(fields[j], col);
    assert i == si;
    LastFieldWins(fields, record, cell, li);
  }

  /** A column id that names no field is looked up under the key
      "undefined": it reads a field literally named "undefined" if there is
      one, and otherwise yields `undefined`, printed as "undefined" in the path. */
  lemma UnresolvedColumnReadsUndefinedKey(fields: seq<FieldMeta>, record: string, cell: (string, string) -> string, col: JsValue)
    requires forall i :: 0 <= i < |fields| ==> !IdMatches(fields[i], col)
    ensures FindNameById(fields, col) == None
    ensures (forall i :: 0 <= i < |fields| ==> fields[i].name != "undefined") ==>
              Lookup(RowOf(fields, record, cell), FindNameById(fields, col)) == None
  {
    RowKeys(fields, record, cell);
  }

  /** What one item holds: the three dictionary entries under the resolved
      names, a path built from their raw strings, and the parse of the raw
      value string as the value. */
  lemma ItemContents(table: HostTable, sourceCol: JsValue, targetCol: JsValue, valueCol: JsValue,
                     parseFloat: string -> JsNumber, i: nat)
    requires i < |table.records|
    ensures var row := RowOf(table.fields, table.records[i], table.cell);
            var item := ChartData(table, sourceCol, targetCol, valueCol, parseFloat)[i];
            var raw := Lookup(row, FindNameById(table.fields, valueCol));
            && item.source == Lookup(row, FindNameById(table.fields, sourceCol))
            && item.target == Lookup(row, FindNameById(table.fields, targetCol))
            && item.path == JsString(item.source) + " -> " + JsString(item.target) + " -> " + JsString(raw)
            && item.value == Number(parseFloat(JsString(raw)))
  {
  }

  /** The parse pass rewrites the value and nothing else. */
  lemma ParseChangesOnlyValue(item: ChartItem, parseFloat: string -> JsNumber)
    requires item.value.Text?
    ensures ParseValue(item, parseFloat).source == item.source
    ensures ParseValue(item, parseFloat).target == item.target
    ensures ParseValue(item, parseFloat).path == item.path
    ensures ParseValue(item, parseFloat).value == Number(parseFloat(JsString(item.value.raw)))
  {
  }

  /** One item per record, in record order, whatever the fields are: two
      tables with the same records give items that line up record by record. */
  lemma OneItemPerRecord(table: HostTable, other: seq<FieldMeta>, sourceCol: JsValue, targetCol: JsValue, valueCol: JsValue,
                         parseFloat: string -> JsNumber)
    ensures |ChartData(table, sourceCol, targetCol, valueCol, parseFloat)| == |table.records|
    ensures |ChartData(table.(fields := other), sourceCol, targetCol, valueCol, parseFloat)| == |table.records|
  {
  }

  /** When the three columns resolve to fields `si`, `ti`, `vi` whose names
      no other field repeats, the item of record `i` is
      `{source: cell, target: cell, value: parseFloat(cell), path: "s -> t -> v"}`. */
  lemma ItemOfResolvedColumns(table: HostTable, parseFloat: string -> JsNumber, i: nat, si: nat, ti: nat, vi: nat)
    requires i < |table.records|
    requires si < |table.fields| && ti < |table.fields| && vi < |table.fields|
    requires forall j :: 0 <= j < |table.fields| && j != si ==>
               table.fields[j].id != table.fields[si].id && table.fields[j].name != table.fields[si].name
    requires forall j :: 0 <= j < |table.fields| && j != ti ==>
               table.fields[j].id != table.fields[ti].id && table.fields[j].name != table.fields[ti].name
    requires forall j :: 0 <= j < |table.fields| && j != vi ==>
               table.fields[j].id != table.fields[vi].id && table.fields[j].name != table.fields[vi].name
    ensures var f := table.fields;
            var r := table.records[i];
            var s := table.cell(f[si].id, r);
            var t := table.cell(f[ti].id, r);
            var v := table.cell(f[vi].id, r);
            ChartData(table, Str(f[si].id), Str(f[ti].id), Str(f[vi].id), parseFloat)[i]
              == ChartItem(Some(s), Some(t), Number(parseFloat(v)), s + " -> " + t + " -> " + v)
  {
    var f, r := table.fields, table.records[i];
    ResolvedColumnReadsCell(f, r, table.cell, Str(f[si].id), si, si);
    ResolvedColumnReadsCell(f, r, table.cell, Str(f[ti].id), ti, ti);
    ResolvedColumnReadsCell(f, r, table.cell, Str(f[vi].id), vi, vi);
  }

  /** The example's field list: three fields with distinct ids and names. */
  const ExampleFields: seq<FieldMeta> := [FieldMeta("fs", "From"), FieldMeta("ft", "To"), FieldMeta("fv", "Amount")]

  /** A table with the example's fields and two records, `A -> B` worth "10"
      and `B -> C` worth "5". */
  predicate IsExampleTable(t: HostTable)
  {
    && t.fields == ExampleFields && t.records == ["r1", "r2"]
    && t.cell("fs", "r1") == "A" && t.cell("ft", "r1") == "B" && t.cell("fv", "r1") == "10"
    && t.cell("fs", "r2") == "B" && t.cell("ft", "r2") == "C" && t.cell("fv", "r2") == "5"
  }

  /** The example's fields have distinct ids and distinct names. */
  lemma ExampleFieldsDistinct()
    ensures var f := ExampleFields;
      && |f| == 3 && f[0].id == "fs" && f[1].id == "ft" && f[2].id == "fv"
      && (forall j :: 0 <= j < |f| && j != 0 ==> f[j].id != f[0].id && f[j].name != f[0].name)
      && (forall j :: 0 <= j < |f| && j != 1 ==> f[j].id != f[1].id && f[j].name != f[1].name)
      && (forall j :: 0 <= j < |f| && j != 2 ==> f[j].id != f[2].id && f[j].name != f[2].name)
  {
    assert "fs"[1] != "ft"[1] && "fs"[1] != "fv"[1] && "ft"[1] != "fv"[1];
    assert |"From"| != |"To"| && "From"[0] != "Amount"[0] && |"To"| != |"Amount"|;
  }

  /** The example table's first record gives the item `A -> B -> 10`. */
  lemma ExampleFirstItem(t: HostTable, parseFloat: string -> JsNumber)
    requires IsExampleTable(t)
    ensures |ChartData(t, Str("fs"), Str("ft"), Str("fv"), parseFloat)| == 2
    ensures ChartData(t, Str("fs"), Str("ft"), Str("fv"), parseFloat)[0]
              == ChartItem(Some("A"), Some("B"), Number(parseFloat("10")), "A -> B -> 10")
  {
    ExampleFieldsDistinct();
    var f := t.fields;
    assert f[0].id == "fs" && f[1].id == "ft" && f[2].id == "fv";
    assert t.records[0] == "r1";
    ItemOfResolvedColumns(t, parseFloat, 0, 0, 1, 2);
    assert ChartData(t, Str("fs"), Str("ft"), Str("fv"), parseFloat)[0]
        == ChartItem(Some("A"), Some("B"), Number(parseFloat("10")), "A" + " -> " + "B" + " -> " + "10");
    assert "A" + " -> " + "B" + " -> " + "10" == "A -> B -> 10";
  }

  /** The example table's second record gives the item `B -> C -> 5`. */
  lemma ExampleSecondItem(t: HostTable, parseFloat: string -> JsNumber)
    requires IsExampleTable(t)
    ensures |ChartData(t, Str("fs"), Str("ft"), Str("fv"), parseFloat)| == 2
    ensures ChartData(t, Str("fs"), Str("ft"), Str("fv"), parseFloat)[1]
              == ChartItem(Some("B"), Some("C"), Number(parseFloat("5")), "B -> C -> 5")
  {
    ExampleFieldsDistinct();
    var f := t.fields;
    assert f[0].id == "fs" && f[1].id == "ft" && f[2].id == "fv";
    assert t.records[1] == "r2";
    ItemOfResolvedColumns(t, parseFloat, 1, 0, 1, 2);
    assert ChartData(t, Str("fs"), Str("ft"), Str("fv"), parseFloat)[1]
        == ChartItem(Some("B"), Some("C"), Number(parseFloat("5")), "B" + " -> " + "C" + " -> " + "5");
    assert "B" + " -> " + "C" + " -> " + "5" == "B -> C -> 5";
  }

  /** The example table's items are `A -> B -> 10` and `B -> C -> 5`, in
      record order, with the parsed values. */
  lemma TwoRecordExample(t: HostTable, parseFloat: string -> JsNumber)
    requires IsExampleTable(t)
    ensures ChartData(t, Str("fs"), Str("ft"), Str("fv"), parseFloat)
              == [ChartItem(Some("A"), Some("B"), Number(parseFloat("10")), "A -> B -> 10"),
                  ChartItem(Some("B"), Some("C"), Number(parseFloat("5")), "B -> C -> 5")]
  {
    ExampleFirstItem(t, parseFloat);
    ExampleSecondItem(t, parseFloat);
  }
}
