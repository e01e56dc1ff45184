/** The query pipeline: run SQL against a Parquet file through an analytical
    engine and turn its columnar output into row-oriented JSON, or into an
    error envelope that names the stage that failed. */
module Query {
  import opened Primitives
  import opened Json
  import opened Arrow

  // ---------------------------------------------------------------------
  // Cell conversion
  // ---------------------------------------------------------------------

  /** The conversion table the converter implements, read off the logical
      cell: null and unsupported types become Null, and so do NaN and the
      infinities, which JSON cannot represent. */
  function CellToJson(c: Cell): Value {
    match c
    case NullCell => Null
    case Utf8Cell(s) => String(s)
    case Int32Cell(i) => Number(Int(i as int))
    case Float64Cell(f) => if IsFinite(f) then Number(Float(f)) else Null
    case BooleanCell(b) => Bool(b)
    case Unsupported(_) => Null
  }

  /** The inverse reading: the cell a JSON value stands for in a column of
      declared type `dt`, or None when the value is not of that type. */
  function JsonToCell(dt: DataType, v: Value): Option<Cell> {
    match v
    case Null => Some(NullCell)
    case String(s) => if dt == Utf8 then Some(Utf8Cell(s)) else None
    case Number(Int(i)) =>
      if dt == Int32 && -0x8000_0000 <= i < 0x8000_0000 then Some(Int32Cell(i as I32)) else None
    case Number(Float(f)) => if dt == Float64 then Some(Float64Cell(f)) else None
    case Bool(b) => if dt == Boolean then Some(BooleanCell(b)) else None
    case _ => None
  }

  /** as_json: the downcast to the concrete array type is the precondition of
      `extract`; the null flag is tested before anything is extracted. */
  function AsJson(col: Column, row: nat, extract: (Column, nat) --> Value): Value
    requires row < col.Len() && extract.requires(col, row)
  {
    if col.nulls[row] then Null else extract(col, row)
  }

  /** column_value_to_json: dispatch on the column's data type. */
  function ColumnValueToJson(col: Column, row: nat): (r: Value)
    requires col.WellFormed() && row < col.Len()
    ensures r == CellToJson(CellAt(col, row))
    ensures col.nulls[row] ==> r == Null
    ensures col.dataType.Other? ==> r == Null
    ensures r == Null <==>
      || col.nulls[row]
      || col.dataType.Other?
      || (col.values.Float64Values? && !IsFinite(col.values.floats[row]))
    ensures !col.nulls[row] && col.values.Utf8Values? ==> r == String(col.values.strings[row])
    ensures !col.nulls[row] && col.values.Int32Values? ==> r == Number(Int(col.values.ints[row] as int))
    ensures !col.nulls[row] && col.values.Float64Values? && IsFinite(col.values.floats[row]) ==>
      r == Number(Float(col.values.floats[row]))
    ensures !col.nulls[row] && col.values.BooleanValues? ==> r == Bool(col.values.bools[row])
  {
    match col.dataType
    case Utf8 =>
      AsJson(col, row, (a: Column, i: nat) requires a.values.Utf8Values? && i < |a.values.strings| =>
        String(a.values.strings[i]))
    case Int32 =>
      AsJson(col, row, (a: Column, i: nat) requires a.values.Int32Values? && i < |a.values.ints| =>
        Number(Int(a.values.ints[i] as int)))
    case Float64 =>
      AsJson(col, row, (a: Column, i: nat) requires a.values.Float64Values? && i < |a.values.floats| =>
        match NumberFromF64(a.values.floats[i])
        case None => Null
        case Some(n) => Number(n))
    case Boolean =>
      AsJson(col, row, (a: Column, i: nat) requires a.values.BooleanValues? && i < |a.values.bools| =>
        Bool(a.values.bools[i]))
    case Other(_) => Null
  }

  /** The converter never fails and always yields a value of the column's
      declared kind or Null; it loses information only for null cells,
      unsupported types and non-finite floats, and otherwise the JSON value
      reads back as the very cell it came from. */
  lemma ConversionKeepsCell(col: Column, row: nat)
    requires col.WellFormed() && row < col.Len()
    ensures JsonToCell(col.dataType, ColumnValueToJson(col, row)).Some?
    ensures !col.dataType.Other? && !(col.values.Float64Values? && !IsFinite(col.values.floats[row])) ==>
      JsonToCell(col.dataType, ColumnValueToJson(col, row)) == Some(CellAt(col, row))
  {
  }

  // ---------------------------------------------------------------------
  // Batch materialisation
  // ---------------------------------------------------------------------

  /** The row object after the first `n` fields have been inserted. */
  function RowPrefix(batch: Batch, row: nat, n: nat): map<string, Value>
    requires row < batch.numRows && n <= |batch.schema|
  {
    if n == 0 then map[]
    else RowPrefix(batch, row, n - 1)[batch.schema[n - 1].name := ColumnValueToJson(batch.columns[n - 1], row)]
  }

  /** The JSON object of row `row`: every field inserted in schema order. */
  function RowObject(batch: Batch, row: nat): map<string, Value>
    requires row < batch.numRows
  {
    RowPrefix(batch, row, |batch.schema|)
  }

  /** All rows of a batch, in row order. */
  function BatchRows(batch: Batch): seq<Value> {
    seq(batch.numRows, r requires 0 <= r < batch.numRows => Object(RowObject(batch, r)))
  }

  /** batch_to_json_rows: one object per row, each built field by field. */
  method BatchToJsonRows(batch: Batch) returns (rows: seq<Value>)
    ensures |rows| == batch.numRows
    ensures forall r :: 0 <= r < |rows| ==> rows[r] == Object(RowObject(batch, r))
    ensures rows == BatchRows(batch)
  {
    rows := [];
    for rowIndex := 0 to batch.numRows
      invariant |rows| == rowIndex
      invariant forall r :: 0 <= r < rowIndex ==> rows[r] == Object(RowObject(batch, r))
    {
      var row: map<string, Value> := map[];
      for i := 0 to |batch.schema|
        invariant row == RowPrefix(batch, rowIndex, i)
      {
        var value := ColumnValueToJson(batch.columns[i], rowIndex);
        row := row[batch.schema[i].name := value];
      }
      rows := rows + [Object(row)];
    }
  }

  /** The keys of a row object are exactly the field names. */
  lemma {:induction false} RowKeys(batch: Batch, row: nat, n: nat)
    requires row < batch.numRows && n <= |batch.schema|
    ensures RowPrefix(batch, row, n).Keys == set i | 0 <= i < n :: batch.schema[i].name
  {
    if n > 0 {
      RowKeys(batch, row, n - 1);
      var before := set i | 0 <= i < n - 1 :: batch.schema[i].name;
      var after := set i | 0 <= i < n :: batch.schema[i].name;
      assert after == before + {batch.schema[n - 1].name};
    }
  }

  /** The entry under a field's name is the conversion of that field's own
      column at the same row, unless a later field has the same name, whose
      value then replaces it. */
  lemma {:induction false} RowEntry(batch: Batch, row: nat, n: nat, i: nat)
    requires row < batch.numRows && i < n <= |batch.schema|
    requires forall j :: i < j < n ==> batch.schema[j].name != batch.schema[i].name
    ensures batch.schema[i].name in RowPrefix(batch, row, n)
    ensures RowPrefix(batch, row, n)[batch.schema[i].name] == ColumnValueToJson(batch.columns[i], row)
  {
    if i < n - 1 {
      RowEntry(batch, row, n - 1, i);
    }
  }

  /** With distinct field names, every field's entry is its own column's cell. */
  lemma RowObjectEntries(batch: Batch, row: nat)
    requires row < batch.numRows
    requires forall i, j :: 0 <= i < j < |batch.schema| ==> batch.schema[i].name != batch.schema[j].name
    ensures RowObject(batch, row).Keys == set i | 0 <= i < |batch.schema| :: batch.schema[i].name
    ensures forall i :: 0 <= i < |batch.schema| ==>
      RowObject(batch, row)[batch.schema[i].name] == CellToJson(CellAt(batch.columns[i], row))
  {
    RowKeys(batch, row, |batch.schema|);
    forall i | 0 <= i < |batch.schema|
      ensures RowObject(batch, row)[batch.schema[i].name] == CellToJson(CellAt(batch.columns[i], row))
    {
      RowEntry(batch, row, |batch.schema|, i);
    }
  }

  /** A row object is built from that row alone: two rows (of the same or of
      different batches with one schema) whose cells agree give one object. */
  lemma {:induction false} RowReadsOnlyItsRow(b1: Batch, r1: nat, b2: Batch, r2: nat, n: nat)
    requires r1 < b1.numRows && r2 < b2.numRows
    requires b1.schema == b2.schema && n <= |b1.schema|
    requires forall i :: 0 <= i < n ==> CellAt(b1.columns[i], r1) == CellAt(b2.columns[i], r2)
    ensures RowPrefix(b1, r1, n) == RowPrefix(b2, r2, n)
  {
    if n > 0 {
      RowReadsOnlyItsRow(b1, r1, b2, r2, n - 1);
    }
  }

  // ---------------------------------------------------------------------
  // Concatenation of the batches' rows
  // ---------------------------------------------------------------------

  function TotalRows(batches: seq<Batch>): nat {
    if |batches| == 0 then 0 else batches[0].numRows + TotalRows(batches[1..])
  }

  /** The flat_map over the collected batches: their rows, batch after batch. */
  function FlatMapRows(batches: seq<Batch>): (rows: seq<Value>)
    ensures |rows| == TotalRows(batches)
  {
    if |batches| == 0 then [] else BatchRows(batches[0]) + FlatMapRows(batches[1..])
  }

  /** Row `r` of batch `k` sits right after the rows of the batches before it. */
  lemma {:induction false} FlatMapRowsAt(batches: seq<Batch>, k: nat, r: nat)
    requires k < |batches| && r < batches[k].numRows
    ensures TotalRows(batches[..k]) + r < |FlatMapRows(batches)|
    ensures FlatMapRows(batches)[TotalRows(batches[..k]) + r] == Object(RowObject(batches[k], r))
  {
    if k == 0 {
      assert batches[..0] == [];
    } else {
      FlatMapRowsAt(batches[1..], k - 1, r);
      assert batches[..k][1..] == batches[1..][..k - 1];
      assert batches[..k][0] == batches[0];
    }
  }

  // ---------------------------------------------------------------------
  // The pipeline
  // ---------------------------------------------------------------------

  /** The logical name the Parquet file is registered under. */
  const TableName := "mi_tabla"

  /** A planned query, opaque to the model. */
  datatype DataFrame = DataFrame(plan: nat)

  /** The engine's three stages, seen as oracles: register a Parquet file
      under a table name, plan SQL against it, and run a plan to completion.
      Each stage reports the engine's error message on failure. */
  datatype Engine = Engine(
    registerParquet: (string, string) -> Result<(), string>,
    sql: string -> Result<DataFrame, string>,
    collect: DataFrame -> Result<seq<Batch>, string>)

  function ErrorEnvelope(message: string): Value {
    Object(map["error" := String(message)])
  }

  /** ejecutar_consulta: register, plan, execute, stopping at the first
      failure; on success, every batch's rows in order under "result". */
  function ExecuteQuery(engine: Engine, sql: string, parquetPath: string): (r: Value)
    ensures r.Object?
    ensures r.fields.Keys == {"error"} || r.fields.Keys == {"result"}
    ensures "result" in r.fields <==>
      && engine.registerParquet(TableName, parquetPath).Ok?
      && engine.sql(sql).Ok?
      && engine.collect(engine.sql(sql).value).Ok?
  {
    match engine.registerParquet(TableName, parquetPath)
    case Err(e) => ErrorEnvelope("Failed registration: " + e)
    case Ok(_) =>
      match engine.sql(sql)
      case Err(e) => ErrorEnvelope("Invalid SQL: " + e)
      case Ok(df) =>
        match engine.collect(df)
        case Err(e) => ErrorEnvelope("Execution error: " + e)
        case Ok(batches) => Object(map["result" := Array(FlatMapRows(batches))])
  }

  /** The stages of a request, in the order they run. */
  datatype Stage = Registration | Planning | Execution

  /** The prefix that classifies an error message by the stage it came from. */
  function Prefix(s: Stage): string {
    match s
    case Registration => "Failed registration: "
    case Planning => "Invalid SQL: "
    case Execution => "Execution error: "
  }

  /** The stage an error message names, read off its prefix. */
  function ClassifyError(message: string): Option<Stage> {
    if Prefix(Registration) <= message then Some(Registration)
    else if Prefix(Planning) <= message then Some(Planning)
    else if Prefix(Execution) <= message then Some(Execution)
    else None
  }

  /** The first stage that fails, with the engine's message; None when all
      three succeed. A stage runs only once every earlier one succeeded. */
  function FirstFailure(engine: Engine, sql: string, parquetPath: string): Option<(Stage, string)> {
    if engine.registerParquet(TableName, parquetPath).Err? then
      Some((Registration, engine.registerParquet(TableName, parquetPath).error))
    else if engine.sql(sql).Err? then
      Some((Planning, engine.sql(sql).error))
    else if engine.collect(engine.sql(sql).value).Err? then
      Some((Execution, engine.collect(engine.sql(sql).value).error))
    else None
  }

  /** The prefixes are distinct, so an error message always tells its stage. */
  lemma ClassifyErrorOfPrefix(s: Stage, e: string)
    ensures ClassifyError(Prefix(s) + e) == Some(s)
  {
    var m := Prefix(s) + e;
    assert m[0] == Prefix(s)[0];
    if s != Registration {
      assert !(Prefix(Registration) <= m) by { assert Prefix(Registration)[0] != m[0]; }
    }
    if s == Execution {
      assert !(Prefix(Planning) <= m) by { assert Prefix(Planning)[0] != m[0]; }
    }
    assert Prefix(s) <= m;
  }

  /** The output is decided by the first failing stage alone: its error
      message, classified as that stage; or, when no stage fails, the rows of
      all collected batches in batch order. FirstFailure follows the same
      stage order as ExecuteQuery, so the substance here is the
      classification of the message (ClassifyErrorOfPrefix) and, with
      LaterStagesIrrelevant, that nothing after the failing stage matters. */
  lemma {:induction false} FirstFailureDecides(engine: Engine, sql: string, parquetPath: string)
    ensures match FirstFailure(engine, sql, parquetPath)
      case Some((s, e)) =>
        && ExecuteQuery(engine, sql, parquetPath) == ErrorEnvelope(Prefix(s) + e)
        && ClassifyError(ExecuteQuery(engine, sql, parquetPath).fields["error"].s) == Some(s)
      case None =>
        ExecuteQuery(engine, sql, parquetPath)
          == Object(map["result" := Array(FlatMapRows(engine.collect(engine.sql(sql).value).value))])
  {
    match FirstFailure(engine, sql, parquetPath)
    case Some((s, e)) => ClassifyErrorOfPrefix(s, e);
    case None =>
  }

  /** Later stages never run after a failure: engines that agree up to the
      first failing stage give the same output whatever their later stages
      would have done. */
  lemma LaterStagesIrrelevant(e1: Engine, e2: Engine, sql: string, parquetPath: string)
    requires e1.registerParquet(TableName, parquetPath) == e2.registerParquet(TableName, parquetPath)
    requires e1.registerParquet(TableName, parquetPath).Ok? ==> e1.sql(sql) == e2.sql(sql)
    requires FirstFailure(e1, sql, parquetPath).Some?
    requires FirstFailure(e1, sql, parquetPath).value.0 != Execution
    ensures ExecuteQuery(e1, sql, parquetPath) == ExecuteQuery(e2, sql, parquetPath)
  {
  }

  /** On success the result holds every collected row: its length is the
      sum of the batch row counts, and row `r` of batch `k` comes after all
      rows of the earlier batches. */
  lemma SuccessHoldsAllRows(engine: Engine, sql: string, parquetPath: string, k: nat, r: nat)
    requires FirstFailure(engine, sql, parquetPath).None?
    requires var batches := engine.collect(engine.sql(sql).value).value;
      k < |batches| && r < batches[k].numRows
    ensures var batches := engine.collect(engine.sql(sql).value).value;
      var result := ExecuteQuery(engine, sql, parquetPath).fields["result"].items;
      && |result| == TotalRows(batches)
      && TotalRows(batches[..k]) + r < |result|
      && result[TotalRows(batches[..k]) + r] == Object(RowObject(batches[k], r))
  {
    FlatMapRowsAt(engine.collect(engine.sql(sql).value).value, k, r);
  }
}
