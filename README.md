# Query pipeline of rust_arrow_datafusion, modelled in Dafny

The service answers `POST /query` by running the SQL text against one Parquet
file through DataFusion and returning JSON. This project models the part that
has logic, `src/query.rs`:

- `ejecutar_consulta` registers the file as table `mi_tabla`, plans the SQL and
  collects the result batches, returning at the first failure an
  `{"error": ...}` object whose message is prefixed by the failing stage
  (`Failed registration: `, `Invalid SQL: `, `Execution error: `), and
  otherwise `{"result": [...]}` holding the rows of every batch in order
  (`Query.ExecuteQuery`, a function over the engine's stage outcomes);
- `batch_to_json_rows` walks rows, then schema fields, inserting each
  converted cell into a JSON object under the field's name
  (`Query.BatchToJsonRows`, a method with the same nested loops, proved equal
  to the specification function `Query.BatchRows`);
- `column_value_to_json` and `as_json` dispatch on the column's data type
  (Utf8, Int32, Float64, Boolean, anything else) and test the null flag before
  extracting a value (`Query.ColumnValueToJson`, `Query.AsJson`).

Files: `primitives.dfy` (Option, Result, `i32`, `f64` as a binary64 bit
pattern with `IsFinite`), `json.dfy` (serde_json `Value` and `Number`),
`arrow.dfy` (data types, columns with null flags, record batches, and
`CellAt`, the logical content of a cell), `query.dfy` (the pipeline) and
`scenarios.dfy` (a worked four-column example).

The DataFusion calls (`register_parquet`, `ctx.sql`, `df.collect`) are foreign:
`Query.Engine` holds them as three functions that return `Ok` or an error
message, and every property holds for every engine. The Parquet file path
and the SQL text are plain parameters.

The table is registered as `mi_tabla`. Every error message carries its stage
prefix. A row object is a `serde_json::Map`, whose key order is not promised
(see Left out). The helper `as_json` (src/query.rs:80-91) is modelled by
`Query.AsJson` and covered by the `Query.ColumnValueToJson` row below.

## Model

| member | source | states |
|---|---|---|
| `Json.NumberFromF64` | src/query.rs:69-71 | `Number::from_f64` yields a number exactly when the float is finite, and then that same float |
| `Query.ColumnValueToJson` | src/query.rs:61-91 | the result is the conversion table applied to the cell's logical content; a set null flag gives Null for every type; an unsupported data type gives Null for every row; the result is Null exactly for null cells, unsupported types and non-finite floats; non-null Utf8, Int32, finite Float64 and Boolean cells keep their value as String, Number and Bool |
| `Query.ConversionKeepsCell` | src/query.rs:61-77 | the JSON value is always of the column's declared kind or Null, and for supported types (other than NaN or infinite floats) it reads back as the very cell it came from |
| `Query.BatchToJsonRows` | src/query.rs:44-58 | returns exactly `num_rows` objects, object `r` being the row object built from row `r` (equal to the specification `BatchRows`) |
| `Query.RowKeys` | src/query.rs:48-53 | a row object's keys are exactly the schema's field names |
| `Query.RowEntry` | src/query.rs:50-53 | the entry under field `i`'s name is the conversion of column `i` at the same row unless a later field has that name, whose value then replaces it |
| `Query.RowObjectEntries` | src/query.rs:49-54 | with distinct field names, each field's entry is its own column's cell converted |
| `Query.RowReadsOnlyItsRow` | src/query.rs:48-54 | object `r` depends on row `r` of the columns and on nothing else: rows whose cells agree give equal objects |
| `Query.FlatMapRows` | src/query.rs:35-38 | the concatenated rows number the sum of the batches' row counts |
| `Query.FlatMapRowsAt` | src/query.rs:35-40 | row `r` of batch `k` sits at the offset of all rows of the batches before `k`: batch order and row order are kept |
| `Query.ExecuteQuery` | src/query.rs:8-41 | the output is an object with exactly one key, "error" or "result", and "result" exactly when registration, planning and execution all succeed |
| `Query.ClassifyErrorOfPrefix` | src/query.rs:11-33 | the three stage prefixes are distinct, so an error message names the stage it came from |
| `Query.FirstFailureDecides` | src/query.rs:8-41 | the first failing stage alone decides the output, its message with that stage's prefix; with no failure the result is the in-order concatenation of the collected batches' rows |
| `Query.LaterStagesIrrelevant` | src/query.rs:11-33 | after a registration or planning failure the later stages never run: engines that agree up to that failure give the same output |
| `Query.SuccessHoldsAllRows` | src/query.rs:27-40 | on success the result holds as many rows as all batches together, row `r` of batch `k` after every row of the earlier batches |
| `Scenarios.SamplePipeline` | src/query.rs:8-41 | an engine that registers, plans and collects the sample batch answers `{"result": [...]}` with exactly those two objects |
| `Scenarios.SampleBatchRows` | src/query.rs:44-91 | a batch with id (int32), name (text), score (float64), active (bool) and nulls in its second row gives `{"id":1,"name":"a","score":9.5,"active":true}` and `{"id":2,"name":null,"score":null,"active":false}` |

## Left out

- `src/main.rs` (server bootstrap, TCP binding, tracing setup), `src/api.rs`
  (HTTP routing and request decoding) and `src/config.rs` (environment
  variables): process and HTTP plumbing with no logic of the query.
- The DataFusion and Parquet internals behind `register_parquet`, `ctx.sql`
  and `df.collect`: foreign engine calls, modelled only by their success or
  error message. The planning oracle depends on the SQL text alone, the
  registered table being fixed for the request; SQL semantics are not
  modelled, nor is the creation of the `SessionContext`.
- The `error!` log lines: a side effect only.
- `async`/`await`: the three stages run strictly in sequence; concurrency
  between requests has no bearing on them.
- IEEE 754 arithmetic and the text form of a float: a `f64` is its bit
  pattern, and only its finiteness matters to the code.
- The panic of `downcast_ref::<T>().unwrap()`: a column's concrete array
  type is required to agree with its data type (`Column.WellFormed`, implied
  by every record batch), so the panic cannot occur in the model.
- The key order of a row object: `serde_json::Map` keeps insertion order or
  sorts keys depending on a crate feature that is not visible, so a row is a
  map from field name to value and no order is claimed.
- How the engine's error is rendered as text (`Display` of the DataFusion
  error): it is the error string the engine oracle returns.
- The HTTP status code: always success-class, decided outside this file.
