/** History chunks holding reference-entry data series: a strictly ascending
    timestamp axis, one column of reference-entry ids per data series, and the
    reference-entries data map that holds the payload of every id in use.
    Payloads are kept abstract (type parameter D). */
module HistoryChunks {
  import opened Wrappers

  /** The history configuration, reduced to what the reference-entry chunks
      need: the DataSeriesId of every reference-entry data series, in column
      order. */
  datatype HistoryConfiguration = HistoryConfiguration(referenceEntryDataSeries: seq<int>)
  {
    function SeriesCount(): nat { |referenceEntryDataSeries| }
  }

  /** One sample: a timestamp and the reference-entry id of every series. */
  datatype Row = Row(timeStamp: real, ids: seq<int>)

  predicate StrictlyAscending(ts: seq<real>) {
    forall i, j :: 0 <= i < j < |ts| ==> ts[i] < ts[j]
  }

  /** A strictly ascending sequence is determined by the values it holds. */
  lemma {:induction false} AscendingUnique(xs: seq<real>, ys: seq<real>)
    requires StrictlyAscending(xs) && StrictlyAscending(ys)
    requires forall t :: t in xs <==> t in ys
    ensures xs == ys
    decreases |xs|
  {
    assert xs != [] ==> xs[0] in xs && xs[0] in ys;
    assert ys != [] ==> ys[0] in ys && ys[0] in xs;
    if xs != [] && ys != [] {
      var j :| 0 <= j < |ys| && ys[j] == xs[0];
      var i :| 0 <= i < |xs| && xs[i] == ys[0];
      assert xs[0] <= xs[i];
      assert ys[0] <= ys[j];
      forall t ensures t in xs[1..] <==> t in ys[1..] {
        AscendingTail(xs, t);
        AscendingTail(ys, t);
      }
      AscendingUnique(xs[1..], ys[1..]);
      assert xs == [xs[0]] + xs[1..];
      assert ys == [ys[0]] + ys[1..];
    }
  }

  lemma AscendingTail(xs: seq<real>, t: real)
    requires StrictlyAscending(xs) && xs != []
    ensures t in xs[1..] <==> t in xs && t != xs[0]
  {
    if t in xs[1..] {
      var k :| 0 <= k < |xs[1..]| && xs[1..][k] == t;
      assert xs[0] < xs[k + 1];
    }
    if t in xs && t != xs[0] {
      var k :| 0 <= k < |xs| && xs[k] == t;
      assert xs[1..][k - 1] == t;
    }
  }

  /** Every reference-entry id that occurs in some column. */
  function IdsIn(values: seq<seq<int>>): set<int> {
    set column, id | column in values && id in column :: id
  }

  /** Every reference-entry id that occurs in some row. */
  function IdsOfRows(rows: seq<Row>): set<int> {
    set row, id | row in rows && id in row.ids :: id
  }

  predicate RowsWellFormed(rows: seq<Row>, seriesCount: nat) {
    forall i :: 0 <= i < |rows| ==> |rows[i].ids| == seriesCount
  }

  function TimeStampsOf(rows: seq<Row>): seq<real> {
    seq(|rows|, i requires 0 <= i < |rows| => rows[i].timeStamp)
  }

  predicate RowsAscending(rows: seq<Row>) {
    StrictlyAscending(TimeStampsOf(rows))
  }

  /** The row form of RowsAscending. */
  lemma RowsAscendingAt(rows: seq<Row>)
    ensures RowsAscending(rows) <==>
      forall i, j :: 0 <= i < j < |rows| ==> rows[i].timeStamp < rows[j].timeStamp
  {
    assert forall i :: 0 <= i < |rows| ==> TimeStampsOf(rows)[i] == rows[i].timeStamp;
  }

  /** The tail of an ascending row sequence ascends, after its head. */
  lemma RowsAscendingTail(rows: seq<Row>)
    requires RowsAscending(rows) && rows != []
    ensures RowsAscending(rows[1..])
    ensures forall k :: 0 <= k < |rows| ==> rows[0].timeStamp <= rows[k].timeStamp
  {
    RowsAscendingAt(rows);
    RowsAscendingAt(rows[1..]);
    assert forall k :: 0 <= k < |rows[1..]| ==> rows[1..][k] == rows[k + 1];
  }

  /** A row before an ascending sequence of later rows keeps it ascending. */
  lemma RowsAscendingCons(head: Row, rest: seq<Row>)
    requires RowsAscending(rest)
    requires forall k :: 0 <= k < |rest| ==> head.timeStamp < rest[k].timeStamp
    ensures RowsAscending([head] + rest)
  {
    RowsAscendingAt(rest);
    RowsAscendingAt([head] + rest);
    assert forall k :: 0 <= k < |rest| ==> ([head] + rest)[k + 1] == rest[k];
  }

  /** values is the column-wise view of rows: values[s][i] is the id of
      series s in row i. */
  predicate Transposed(values: seq<seq<int>>, rows: seq<Row>) {
    && RowsWellFormed(rows, |values|)
    && (forall s :: 0 <= s < |values| ==> |values[s]| == |rows|)
    && (forall s, i :: 0 <= s < |values| && 0 <= i < |rows| ==> values[s][i] == rows[i].ids[s])
  }

  datatype HistoryChunk<D> = HistoryChunk(
    configuration: HistoryConfiguration,
    timeStamps: seq<real>,
    values: seq<seq<int>>,
    referenceEntriesDataMap: map<int, D>)
  {
    function TimeStampsCount(): nat { |timeStamps| }

    /** The chunk invariant: one id column per configured series, each as long
        as the timestamp axis, strictly ascending timestamps, and a data map
        that holds exactly the ids in use (no dangling id, no orphan entry). */
    predicate Valid() {
      && |values| == configuration.SeriesCount()
      && (forall s :: 0 <= s < |values| ==> |values[s]| == |timeStamps|)
      && StrictlyAscending(timeStamps)
      && referenceEntriesDataMap.Keys == IdsIn(values)
    }

    /** All timestamps lie in the window [start, end]. */
    predicate Within(start: real, end: real) {
      forall i :: 0 <= i < |timeStamps| ==> start <= timeStamps[i] <= end
    }

    function RowAt(i: nat): Row
      requires Valid() && i < |timeStamps|
    {
      Row(timeStamps[i], seq(|values|, s requires 0 <= s < |values| => values[s][i]))
    }

    /** The row-wise view of the chunk. */
    function Rows(): (rows: seq<Row>)
      requires Valid()
      ensures Transposed(values, rows)
      ensures TimeStampsOf(rows) == timeStamps
      ensures RowsAscending(rows)
    {
      seq(|timeStamps|, i requires 0 <= i < |timeStamps| => RowAt(i))
    }
  }

  /** The chunk built by `historyChunk(configuration) {}`: no samples. */
  function EmptyChunk<D>(configuration: HistoryConfiguration): (c: HistoryChunk<D>)
    ensures c.Valid() && c.configuration == configuration && c.TimeStampsCount() == 0
  {
    HistoryChunk(configuration, [], seq(configuration.SeriesCount(), _ => []), map[])
  }

  /** Builds a chunk from its rows, storing one column per series. */
  function FromRows<D>(configuration: HistoryConfiguration, rows: seq<Row>, dataMap: map<int, D>): (c: HistoryChunk<D>)
    requires RowsWellFormed(rows, configuration.SeriesCount())
  {
    var n := configuration.SeriesCount();
    HistoryChunk(configuration, TimeStampsOf(rows),
      seq(n, s requires 0 <= s < n => seq(|rows|, i requires 0 <= i < |rows| => rows[i].ids[s])),
      dataMap)
  }

  lemma TransposedIds(values: seq<seq<int>>, rows: seq<Row>)
    requires Transposed(values, rows)
    ensures IdsIn(values) == IdsOfRows(rows)
  {
    forall id | id in IdsIn(values) ensures id in IdsOfRows(rows) {
      var column :| column in values && id in column;
      var s :| 0 <= s < |values| && values[s] == column;
      var i :| 0 <= i < |column| && column[i] == id;
      assert rows[i].ids[s] == id;
      assert rows[i] in rows && id in rows[i].ids;
    }
    forall id | id in IdsOfRows(rows) ensures id in IdsIn(values) {
      var row :| row in rows && id in row.ids;
      var i :| 0 <= i < |rows| && rows[i] == row;
      var s :| 0 <= s < |row.ids| && row.ids[s] == id;
      assert values[s][i] == id;
      assert values[s] in values && id in values[s];
    }
  }

  lemma TransposedUnique(v1: seq<seq<int>>, v2: seq<seq<int>>, rows: seq<Row>)
    requires Transposed(v1, rows) && Transposed(v2, rows) && |v1| == |v2|
    ensures v1 == v2
  {
    forall s | 0 <= s < |v1| ensures v1[s] == v2[s] {
      assert |v1[s]| == |v2[s]| == |rows|;
      forall i | 0 <= i < |rows| ensures v1[s][i] == v2[s][i] {
        assert v1[s][i] == rows[i].ids[s] == v2[s][i];
      }
    }
  }

  /** Rows, then FromRows, gives the chunk back. */
  lemma {:induction false} FromRowsOfRows<D>(c: HistoryChunk<D>)
    requires c.Valid()
    ensures FromRows(c.configuration, c.Rows(), c.referenceEntriesDataMap) == c
  {
    var r := FromRows(c.configuration, c.Rows(), c.referenceEntriesDataMap);
    assert Transposed(r.values, c.Rows());
    TransposedUnique(r.values, c.values, c.Rows());
  }

  /** FromRows, then Rows, gives the rows back; the chunk is valid exactly
      when its data map holds the ids of the rows. */
  lemma {:induction false} RowsOfFromRows<D>(configuration: HistoryConfiguration, rows: seq<Row>, dataMap: map<int, D>)
    requires RowsWellFormed(rows, configuration.SeriesCount()) && RowsAscending(rows)
    requires dataMap.Keys == IdsOfRows(rows)
    ensures FromRows(configuration, rows, dataMap).Valid()
    ensures FromRows(configuration, rows, dataMap).Rows() == rows
  {
    var c := FromRows(configuration, rows, dataMap);
    assert Transposed(c.values, rows);
    TransposedIds(c.values, rows);
    assert c.Valid();
    var rs := c.Rows();
    assert |rs| == |rows|;
    forall i | 0 <= i < |rows| ensures rs[i] == rows[i] {
      assert rs[i].ids == rows[i].ids;
    }
  }

  /** The chunk with one more sample (timeStamp, ids) at its end; each id's
      payload is taken from entryData. */
  function Appended<D>(c: HistoryChunk<D>, timeStamp: real, ids: seq<int>, entryData: int -> D): HistoryChunk<D>
    requires |ids| == |c.values|
  {
    var n := |c.values|;
    HistoryChunk(c.configuration, c.timeStamps + [timeStamp],
      seq(n, s requires 0 <= s < n => c.values[s] + [ids[s]]),
      c.referenceEntriesDataMap + map id | id in ids :: entryData(id))
  }

  /** Appending a sample adds its ids to the ids in use. */
  lemma {:induction false} AppendedIds<D>(c: HistoryChunk<D>, timeStamp: real, ids: seq<int>, entryData: int -> D)
    requires |ids| == |c.values|
    ensures IdsIn(Appended(c, timeStamp, ids, entryData).values) == IdsIn(c.values) + set id | id in ids
  {
    var values, extended := c.values, Appended(c, timeStamp, ids, entryData).values;
    forall id | id in IdsIn(extended) ensures id in IdsIn(values) || id in ids {
      var column :| column in extended && id in column;
      var s :| 0 <= s < |extended| && extended[s] == column;
      if id != ids[s] {
        assert id in values[s];
        assert values[s] in values;
      }
    }
    forall id | id in IdsIn(values) ensures id in IdsIn(extended) {
      var column :| column in values && id in column;
      var s :| 0 <= s < |values| && values[s] == column;
      assert id in extended[s];
      assert extended[s] in extended;
    }
    forall id | id in ids ensures id in IdsIn(extended) {
      var s :| 0 <= s < |ids| && ids[s] == id;
      assert id in extended[s];
      assert extended[s] in extended;
    }
  }

  /** A sample whose timestamp follows the last one, with one id per series,
      keeps the chunk valid and becomes its last row. */
  lemma {:induction false} AppendedRows<D>(c: HistoryChunk<D>, timeStamp: real, ids: seq<int>, entryData: int -> D)
    requires c.Valid() && |ids| == c.configuration.SeriesCount()
    requires c.timeStamps == [] || c.timeStamps[|c.timeStamps| - 1] < timeStamp
    ensures Appended(c, timeStamp, ids, entryData).Valid()
    ensures Appended(c, timeStamp, ids, entryData).Rows() == c.Rows() + [Row(timeStamp, ids)]
  {
    var next := Appended(c, timeStamp, ids, entryData);
    AppendedIds(c, timeStamp, ids, entryData);
    assert StrictlyAscending(next.timeStamps) by {
      forall i, j | 0 <= i < j < |next.timeStamps| ensures next.timeStamps[i] < next.timeStamps[j] {
        if j == |c.timeStamps| && i < j - 1 {
          assert c.timeStamps[i] < c.timeStamps[j - 1];
        }
      }
    }
    assert next.Valid();
    var rows, before := next.Rows(), c.Rows();
    assert |rows| == |before| + 1;
    forall i | 0 <= i < |before| ensures rows[i] == before[i] {
      assert rows[i].ids == before[i].ids;
    }
    assert rows[|before|].ids == ids;
    assert rows == before + [Row(timeStamp, ids)];
  }

  /** The builder behind `historyChunk(configuration) { addReferenceEntryValues(...) }`:
      it appends one sample at a time to its timestamp axis and id columns and
      records the payload of every id it sees. */
  class HistoryChunkBuilder<D> {
    const configuration: HistoryConfiguration
    var timeStamps: seq<real>
    var values: seq<seq<int>>
    var referenceEntriesDataMap: map<int, D>

    function Current(): HistoryChunk<D>
      reads this
    {
      HistoryChunk(configuration, timeStamps, values, referenceEntriesDataMap)
    }

    ghost predicate Valid()
      reads this
    {
      Current().Valid()
    }

    constructor (configuration: HistoryConfiguration)
      ensures Valid()
      ensures this.configuration == configuration
      ensures Current() == EmptyChunk(configuration)
    {
      this.configuration := configuration;
      timeStamps := [];
      values := seq(configuration.SeriesCount(), _ => []);
      referenceEntriesDataMap := map[];
    }

    /** Appends the sample (timeStamp, ids), taking each id's payload from
        entryData. A sample that does not carry one id per series, or whose
        timestamp does not follow the last one, is refused and nothing changes. */
    method AddReferenceEntryValues(timeStamp: real, ids: seq<int>, entryData: int -> D) returns (ok: bool)
      requires Valid()
      modifies this
      ensures Valid()
      ensures ok <==> |ids| == configuration.SeriesCount()
                      && (old(timeStamps) == [] || old(timeStamps)[|old(timeStamps)| - 1] < timeStamp)
      ensures ok ==> timeStamps == old(timeStamps) + [timeStamp]
      ensures ok ==> |values| == |old(values)| && forall s :: 0 <= s < |values| ==> values[s] == old(values)[s] + [ids[s]]
      ensures ok ==> Current().Rows() == old(Current().Rows()) + [Row(timeStamp, ids)]
      ensures ok ==> referenceEntriesDataMap == old(referenceEntriesDataMap) + map id | id in ids :: entryData(id)
      ensures !ok ==> unchanged(this)
    {
      ok := |ids| == configuration.SeriesCount()
            && (timeStamps == [] || timeStamps[|timeStamps| - 1] < timeStamp);
      if !ok {
        return;
      }
      AppendedRows(Current(), timeStamp, ids, entryData);
      var next := Appended(Current(), timeStamp, ids, entryData);
      timeStamps, values, referenceEntriesDataMap := next.timeStamps, next.values, next.referenceEntriesDataMap;
    }

    /** The chunk holding every sample added so far. */
    method Build() returns (chunk: HistoryChunk<D>)
      requires Valid()
      ensures chunk.Valid()
      ensures chunk == Current()
    {
      chunk := HistoryChunk(configuration, timeStamps, values, referenceEntriesDataMap);
    }
  }
}
