/** The slice of Apache Arrow that the query output goes through: declared
    data types, columns with a validity (null) flag per slot, and record
    batches. */
module Arrow {
  import opened Primitives

  /** The declared type of a column. `Other` stands for every type the
      converter does not dispatch on (Int64, Date32, List, ...). */
  datatype DataType = Utf8 | Int32 | Float64 | Boolean | Other(name: string)

  /** The value buffer of a column, one variant per concrete array type. */
  datatype Buffer =
    | Utf8Values(strings: seq<string>)
    | Int32Values(ints: seq<I32>)
    | Float64Values(floats: seq<F64>)
    | BooleanValues(bools: seq<bool>)
    | OtherValues

  /** An Arrow array: its data type, one null flag per slot (`nulls[i]` is
      `is_null(i)`), and its value buffer. The value of a null slot is
      whatever the buffer holds there; it is never read. */
  datatype Column = Column(dataType: DataType, nulls: seq<bool>, values: Buffer) {

    function Len(): nat {
      |nulls|
    }

    /** The concrete array type agrees with the declared data type, so the
        downcast of the converter always succeeds, and the buffer has one
        value per slot. */
    predicate WellFormed() {
      match values
      case Utf8Values(s) => dataType == Utf8 && |s| == |nulls|
      case Int32Values(s) => dataType == Int32 && |s| == |nulls|
      case Float64Values(s) => dataType == Float64 && |s| == |nulls|
      case BooleanValues(s) => dataType == Boolean && |s| == |nulls|
      case OtherValues => dataType.Other?
    }
  }

  datatype Field = Field(name: string, dataType: DataType)

  /** A RecordBatch: a schema, one column per field, and a row count (which a
      batch keeps even when it has no columns). */
  datatype RecordBatch = RecordBatch(schema: seq<Field>, columns: seq<Column>, numRows: nat) {

    /** What RecordBatch::try_new establishes: one column per field, each of
        the field's type and of length numRows. */
    predicate Valid() {
      && |columns| == |schema|
      && forall i :: 0 <= i < |columns| ==>
           && columns[i].WellFormed()
           && columns[i].Len() == numRows
           && columns[i].dataType == schema[i].dataType
    }
  }

  /** The batches a query produces are always valid. */
  type Batch = b: RecordBatch | b.Valid() witness RecordBatch([], [], 0)

  /** The logical content of one cell, independent of how it is stored. */
  datatype Cell =
    | NullCell
    | Utf8Cell(s: string)
    | Int32Cell(i: I32)
    | Float64Cell(f: F64)
    | BooleanCell(b: bool)
    | Unsupported(dataType: DataType)

  /** Reads the cell at `row`: a set null flag wins over the type. */
  function CellAt(col: Column, row: nat): Cell
    requires col.WellFormed() && row < col.Len()
  {
    if col.nulls[row] then NullCell
    else
      match col.values
      case Utf8Values(s) => Utf8Cell(s[row])
      case Int32Values(s) => Int32Cell(s[row])
      case Float64Values(s) => Float64Cell(s[row])
      case BooleanValues(s) => BooleanCell(s[row])
      case OtherValues => Unsupported(col.dataType)
  }
}
