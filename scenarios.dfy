/** A worked example: a four-column table of every supported type, with
    nulls in the second row, read back by `SELECT *`. */
module Scenarios {
  import opened Primitives
  import opened Json
  import opened Arrow
  import opened Query

  /** 9.5 as an IEEE 754 binary64 bit pattern. */
  const NineAndAHalf: FiniteF64 := 0x4023_0000_0000_0000

  function SampleBatch(): RecordBatch {
    RecordBatch(
      [Field("id", Int32), Field("name", Utf8), Field("score", Float64), Field("active", Boolean)],
      [ Column(Int32, [false, false], Int32Values([1, 2])),
        Column(Utf8, [false, true], Utf8Values(["a", ""])),
        Column(Float64, [false, true], Float64Values([NineAndAHalf, 0])),
        Column(Boolean, [false, false], BooleanValues([true, false])) ],
      2)
  }

  /** The two rows come out as
      {"id":1,"name":"a","score":9.5,"active":true} and
      {"id":2,"name":null,"score":null,"active":false}. */
  lemma SampleBatchRows()
    ensures SampleBatch().Valid()
    ensures BatchRows(SampleBatch()) == [
      Object(map["id" := Number(Int(1)), "name" := String("a"),
                 "score" := Number(Float(NineAndAHalf)), "active" := Bool(true)]),
      Object(map["id" := Number(Int(2)), "name" := Null, "score" := Null, "active" := Bool(false)])]
  {
    var b: Batch := SampleBatch();
    assert IsFinite(NineAndAHalf);
    assert RowPrefix(b, 0, 1) == map["id" := Number(Int(1))];
    assert RowPrefix(b, 0, 2) == map["id" := Number(Int(1)), "name" := String("a")];
    assert RowPrefix(b, 0, 3) == map["id" := Number(Int(1)), "name" := String("a"),
                                     "score" := Number(Float(NineAndAHalf))];
    assert RowPrefix(b, 1, 1) == map["id" := Number(Int(2))];
    assert RowPrefix(b, 1, 2) == map["id" := Number(Int(2)), "name" := Null];
    assert RowPrefix(b, 1, 3) == map["id" := Number(Int(2)), "name" := Null, "score" := Null];
    var rows := BatchRows(b);
    assert |rows| == 2;
    assert rows[0] == Object(RowObject(b, 0));
    assert rows[1] == Object(RowObject(b, 1));
  }

  /** An engine whose three stages succeed and whose execution yields the
      sample batch. */
  function SampleEngine(): Engine {
    var b: Batch := SampleBatch();
    Engine((table, path) => Ok(()), sql => Ok(DataFrame(0)), df => Ok([b]))
  }

  /** Through the whole pipeline, `SELECT *` on the sample table answers
      {"result": [{"id":1,...}, {"id":2,...}]}. */
  lemma SamplePipeline(sql: string, parquetPath: string)
    ensures ExecuteQuery(SampleEngine(), sql, parquetPath) == Object(map["result" := Array([
      Object(map["id" := Number(Int(1)), "name" := String("a"),
                 "score" := Number(Float(NineAndAHalf)), "active" := Bool(true)]),
      Object(map["id" := Number(Int(2)), "name" := Null, "score" := Null, "active" := Bool(false)])])])
  {
    SampleBatchRows();
    var b: Batch := SampleBatch();
    var e := SampleEngine();
    assert e.registerParquet(TableName, parquetPath) == Ok(());
    assert e.sql(sql) == Ok(DataFrame(0));
    assert e.collect(DataFrame(0)) == Ok([b]);
    assert FlatMapRows([b]) == BatchRows(b) + FlatMapRows([]);
    assert FlatMapRows([b]) == BatchRows(SampleBatch());
    assert ExecuteQuery(e, sql, parquetPath) == Object(map["result" := Array(FlatMapRows([b]))]);
  }
}
