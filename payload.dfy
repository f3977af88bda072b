/** The payload builders: a DataFrame's schema as the JSON column list, its rows as the JSON
    row list, and the three request bodies built around them (notebooks/pbiDatasetAPI.py,
    getPBITableColumns, getPBITableRows and the bodies of executePBIOperation). The bodies are
    kept as the text the client builds; parsing it is not modelled. */
module Payload {
  import opened Wrappers
  import opened Text
  import opened DataTypes

  /** One field of a DataFrame schema: its column name and its Spark type name. */
  datatype Field = Field(name: string, sparkType: string)

  /** A DataFrame as the client sees it: the schema fields in order, and each row already
      serialised to a JSON object by Spark. */
  datatype DataFrame = DataFrame(schema: seq<Field>, rows: seq<string>)

  /** What the builders put after every item and then cut off again: three characters. */
  const Separator: string := ",\r\n"

  /** `"{}".format(t)`: an unmapped type prints as the text None. */
  function TypeText(t: Option<string>): string
  {
    match t
    case None => "None"
    case Some(name) => name
  }

  /** The column descriptor of one schema field. */
  function ColumnFragment(f: Field): string
  {
    "{" + "    \"name\": \"" + f.name + "\"" + "  , \"dataType\": \"" + TypeText(PbiDataType(f.sparkType)) + "\"" + "}"
  }

  /** One column descriptor per field, in schema order. */
  function ColumnFragments(schema: seq<Field>): (r: seq<string>)
    ensures |r| == |schema|
    ensures forall i :: 0 <= i < |schema| ==> r[i] == ColumnFragment(schema[i])
  {
    seq(|schema|, i requires 0 <= i < |schema| => ColumnFragment(schema[i]))
  }

  /** The column list of a table: the descriptors joined by the separator. */
  function ColumnsJson(schema: seq<Field>): string
  {
    Join(ColumnFragments(schema), Separator)
  }

  /** One more field extends the accumulated column text by its descriptor and a separator. */
  lemma ColumnsStep(schema: seq<Field>, i: nat)
    requires i < |schema|
    ensures Terminated(ColumnFragments(schema)[..i + 1], Separator)
         == Terminated(ColumnFragments(schema)[..i], Separator) + ColumnFragment(schema[i]) + Separator
  {
    var fragments := ColumnFragments(schema);
    assert fragments[..i + 1] == fragments[..i] + [fragments[i]];
    TerminatedSnoc(fragments[..i], fragments[i], Separator);
  }

  /** Trimming the text accumulated over the whole schema gives the column list. */
  lemma ColumnsDone(schema: seq<Field>)
    ensures DropLast(Terminated(ColumnFragments(schema)[..|schema|], Separator), 3) == ColumnsJson(schema)
  {
    var fragments := ColumnFragments(schema);
    assert fragments[..|schema|] == fragments;
    TrimmedIsJoin(fragments, Separator);
  }

  /** getPBITableColumns: append each descriptor and a separator, then drop the last three
      characters. The result is the joined descriptors, and "" for an empty schema. */
  method TableColumns(schema: seq<Field>) returns (result: string)
    ensures result == ColumnsJson(schema)
    ensures schema == [] ==> result == ""
  {
    result := "";
    for i := 0 to |schema|
      invariant result == Terminated(ColumnFragments(schema)[..i], Separator)
    {
      result := result + ColumnFragment(schema[i]) + ",\r\n";
      ColumnsStep(schema, i);
    }
    ColumnsDone(schema);
    result := DropLast(result, 3);
  }

  /** The row list of a table: the serialised rows joined by the separator. */
  function RowsJson(rows: seq<string>): string
  {
    Join(rows, Separator)
  }

  /** getPBITableRows: append each serialised row and a separator, then drop the last three
      characters. The result is the joined rows, and "" when there are none. */
  method TableRows(rows: seq<string>) returns (result: string)
    ensures result == RowsJson(rows)
    ensures rows == [] ==> result == ""
  {
    result := "";
    for i := 0 to |rows|
      invariant result == Terminated(rows[..i], Separator)
    {
      result := result + rows[i] + ",\r\n";
      assert rows[..i + 1] == rows[..i] + [rows[i]];
      TerminatedSnoc(rows[..i], rows[i], Separator);
    }
    assert rows[..|rows|] == rows;
    TrimmedIsJoin(rows, Separator);
    result := DropLast(result, 3);
  }

  /** The body of a row insertion: the row list inside `{"rows": [...]}`. */
  function RowsBody(rowsJson: string): string
  {
    "\n        {\n          \"rows\": [\n        " + rowsJson + "\n          ]\n        }\n        "
  }

  /** The description of one table: its name and its column list. It is the body of a table
      replacement and, followed by the separator, one block of a dataset creation body. */
  function TableBody(tableName: string, columnsJson: string): string
  {
    "\n            {\n              \"name\": \"" + tableName + "\",\n              \"columns\": [\n        "
    + columnsJson + "\n              ]\n            }"
  }

  /** `zip(tableNames, dataFrames)`: pairs up to the shorter of the two. */
  function Zip(names: seq<string>, frames: seq<DataFrame>): (r: seq<(string, DataFrame)>)
    ensures |r| == if |names| <= |frames| then |names| else |frames|
    ensures forall i :: 0 <= i < |r| ==> r[i] == (names[i], frames[i])
  {
    var n := if |names| <= |frames| then |names| else |frames|;
    seq(n, i requires 0 <= i < n => (names[i], frames[i]))
  }

  /** The table descriptions of a dataset, one per (table name, DataFrame) pair, in order. */
  function TableBlocks(tables: seq<(string, DataFrame)>): (r: seq<string>)
    ensures |r| == |tables|
    ensures forall i :: 0 <= i < |tables| ==> r[i] == TableBody(tables[i].0, ColumnsJson(tables[i].1.schema))
  {
    seq(|tables|, i requires 0 <= i < |tables| => TableBody(tables[i].0, ColumnsJson(tables[i].1.schema)))
  }

  /** The opening of a dataset creation body: its name, the push mode and the table list. */
  function DatasetHeader(datasetName: string): string
  {
    "\n      {\n        \"name\": \"" + datasetName + "\",\n        \"defaultMode\": \"Push\",\n        \"tables\": [\n      "
  }

  /** The closing of a dataset creation body. */
  const DatasetFooter: string := "\n        ]\n      }\n      "

  /** The dataset creation body: the table descriptions joined by the separator between the
      header and the footer. With no tables the trim cuts three indentation spaces off the
      header instead, which leaves an empty table list. */
  function DatasetBody(datasetName: string, tables: seq<(string, DataFrame)>): string
  {
    var header := DatasetHeader(datasetName);
    if tables == [] then header[..|header| - 3] + DatasetFooter
    else header + Join(TableBlocks(tables), Separator) + DatasetFooter
  }

  /** One more table extends the accumulated body by its description and a separator. */
  lemma BlocksStep(tables: seq<(string, DataFrame)>, i: nat)
    requires i < |tables|
    ensures Terminated(TableBlocks(tables)[..i + 1], Separator)
         == Terminated(TableBlocks(tables)[..i], Separator)
            + TableBody(tables[i].0, ColumnsJson(tables[i].1.schema)) + Separator
  {
    var blocks := TableBlocks(tables);
    assert blocks[..i + 1] == blocks[..i] + [blocks[i]];
    TerminatedSnoc(blocks[..i], blocks[i], Separator);
  }

  /** Trimming and closing the text accumulated over all tables gives the creation body. */
  lemma BlocksDone(datasetName: string, tables: seq<(string, DataFrame)>)
    ensures DropLast(DatasetHeader(datasetName) + Terminated(TableBlocks(tables)[..|tables|], Separator), 3)
            + DatasetFooter == DatasetBody(datasetName, tables)
  {
    var blocks := TableBlocks(tables);
    assert blocks[..|tables|] == blocks;
    TrimmedAfterOpening(DatasetHeader(datasetName), blocks, Separator);
  }

  /** The body built by the postdataset operation: the header, each table description followed
      by the separator, the last three characters dropped, then the footer. */
  method BuildDatasetBody(datasetName: string, tables: seq<(string, DataFrame)>) returns (body: string)
    ensures body == DatasetBody(datasetName, tables)
  {
    var header := DatasetHeader(datasetName);
    body := header;
    for i := 0 to |tables|
      invariant body == header + Terminated(TableBlocks(tables)[..i], Separator)
    {
      ghost var before := Terminated(TableBlocks(tables)[..i], Separator);
      var (tableName, dataFrame) := tables[i];
      var columns := TableColumns(dataFrame.schema);
      var block := TableBody(tableName, columns);
      body := body + block + ",\r\n";
      BlocksStep(tables, i);
      Regroup(header, before, block, Separator);
    }
    BlocksDone(datasetName, tables);
    body := DropLast(body, 3);
    body := body + DatasetFooter;
  }
}
