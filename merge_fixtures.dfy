/** The reference-entry merge fixtures replayed on the model: a configuration
    of three reference-entry data series (DataSeriesId 10, 11 and 12), the
    chunks the fixtures build with generated payloads, and the merges they
    perform over the window [0, 500]. */
module HistoryMergeFixtures {
  import opened Wrappers
  import opened HistoryChunks
  import opened HistoryMerge

  /** `ReferenceEntriesDataMap.generated`: the payload is derived from the id. */
  function Generated(id: int): int { id }

  /** A data map holding the generated payload of every id in `ids`. */
  function Generate(ids: set<int>): map<int, int> {
    map id | id in ids :: Generated(id)
  }

  function Configuration(): HistoryConfiguration {
    HistoryConfiguration([10, 11, 12])
  }

  /** A chunk of the fixture configuration whose data map holds the generated
      payload of every id in use. */
  function FixtureChunk(timeStamps: seq<real>, values: seq<seq<int>>): HistoryChunk<int> {
    HistoryChunk(Configuration(), timeStamps, values, Generate(IdsIn(values)))
  }

  /** The chunk with samples at 100.0, 101.0, 102.0 and 103.0. */
  function Early(): HistoryChunk<int> {
    FixtureChunk([100.0, 101.0, 102.0, 103.0],
      [[1, 10, 100, 1000], [10, 100, 1000, 10000], [101, 1001, 10001, 100001]])
  }

  /** The chunk with samples at 105.0, 106.0, 107.0 and 108.0. */
  function Late(): HistoryChunk<int> {
    FixtureChunk([105.0, 106.0, 107.0, 108.0],
      [[101, 111, 100, 101], [1111, 1110, 1101, 1011], [11111, 11110, 11101, 11011]])
  }

  /** The chunk with samples at 100.5, 101.5 and 102.5. */
  function Woven(): HistoryChunk<int> {
    FixtureChunk([100.5, 101.5, 102.5],
      [[101, 111, 100], [1111, 1110, 1101], [11111, 11110, 11101]])
  }

  /** The ids in use in three columns are the ids of each column together. */
  lemma IdsInThree(values: seq<seq<int>>)
    requires |values| == 3
    ensures IdsIn(values) == (set id | id in values[0]) + (set id | id in values[1]) + (set id | id in values[2])
  {
    forall id | id in IdsIn(values) ensures id in values[0] || id in values[1] || id in values[2] {
      var column :| column in values && id in column;
    }
    forall id | id in values[0] || id in values[1] || id in values[2] ensures id in IdsIn(values) {
      assert values[0] in values && values[1] in values && values[2] in values;
    }
  }

  lemma ElementsOfFour(xs: seq<int>)
    requires |xs| == 4
    ensures (set id | id in xs) == {xs[0], xs[1], xs[2], xs[3]}
  {
    assert xs == [xs[0], xs[1], xs[2], xs[3]];
  }

  lemma ElementsOfThree(xs: seq<int>)
    requires |xs| == 3
    ensures (set id | id in xs) == {xs[0], xs[1], xs[2]}
  {
    assert xs == [xs[0], xs[1], xs[2]];
  }

  /** The early chunk is a valid chunk inside the window. */
  lemma EarlyValid()
    ensures Early().Valid() && Early().Within(0.0, 500.0)
  {
    assert StrictlyAscending(Early().timeStamps);
  }

  /** The late chunk is a valid chunk inside the window. */
  lemma LateValid()
    ensures Late().Valid() && Late().Within(0.0, 500.0)
  {
    assert StrictlyAscending(Late().timeStamps);
  }

  /** The interwoven chunk is a valid chunk inside the window. */
  lemma WovenValid()
    ensures Woven().Valid() && Woven().Within(0.0, 500.0)
  {
    assert StrictlyAscending(Woven().timeStamps);
  }

  /** The ids in use in the early chunk. */
  lemma EarlyIds()
    ensures IdsIn(Early().values) == {1, 10, 100, 1000, 10000, 101, 1001, 10001, 100001}
  {
    var values := Early().values;
    IdsInThree(values);
    ElementsOfFour(values[0]);
    ElementsOfFour(values[1]);
    ElementsOfFour(values[2]);
  }

  /** The ids in use in the late chunk. */
  lemma LateIds()
    ensures IdsIn(Late().values) == {101, 111, 100, 1111, 1110, 1101, 1011, 11111, 11110, 11101, 11011}
  {
    var values := Late().values;
    IdsInThree(values);
    ElementsOfFour(values[0]);
    ElementsOfFour(values[1]);
    ElementsOfFour(values[2]);
  }

  /** The ids in use in the interwoven chunk. */
  lemma WovenIds()
    ensures IdsIn(Woven().values) == {101, 111, 100, 1111, 1110, 1101, 11111, 11110, 11101}
  {
    var values := Woven().values;
    IdsInThree(values);
    ElementsOfThree(values[0]);
    ElementsOfThree(values[1]);
    ElementsOfThree(values[2]);
  }

  /** A generated data map has one entry per id. */
  lemma GenerateSize(ids: set<int>)
    ensures |Generate(ids)| == |ids|
  {
    assert Generate(ids).Keys == ids;
  }

  /** The early chunk's data map has one entry per id in use: nine. */
  lemma EarlyEntries()
    ensures |Early().referenceEntriesDataMap| == 9
  {
    var ids := IdsIn(Early().values);
    EarlyIds();
    GenerateSize(ids);
    CountEarly(ids);
  }

  lemma CountEarly(ids: set<int>)
    requires ids == {1, 10, 100, 1000, 10000, 101, 1001, 10001, 100001}
    ensures |ids| == 9
  {
  }

  lemma CountLate(ids: set<int>)
    requires ids == {101, 111, 100, 1111, 1110, 1101, 1011, 11111, 11110, 11101, 11011}
    ensures |ids| == 11
  {
  }

  lemma CountWoven(ids: set<int>)
    requires ids == {101, 111, 100, 1111, 1110, 1101, 11111, 11110, 11101}
    ensures |ids| == 9
  {
  }

  /** Ids 100 and 101 are used by the early chunk and by the other two. */
  lemma SharedWithLate(early: set<int>, late: set<int>)
    requires early == {1, 10, 100, 1000, 10000, 101, 1001, 10001, 100001}
    requires late == {101, 111, 100, 1111, 1110, 1101, 1011, 11111, 11110, 11101, 11011}
    ensures early * late == {100, 101} && |early * late| == 2
  {
  }

  lemma SharedWithWoven(early: set<int>, woven: set<int>)
    requires early == {1, 10, 100, 1000, 10000, 101, 1001, 10001, 100001}
    requires woven == {101, 111, 100, 1111, 1110, 1101, 11111, 11110, 11101}
    ensures early * woven == {100, 101} && |early * woven| == 2
  {
  }

  /** Inclusion and exclusion: ids used by both chunks are counted once. */
  lemma CountUnion(a: set<int>, b: set<int>)
    ensures |a + b| == |a| + |b| - |a * b|
  {
  }

  /** The early and the late chunk use eighteen distinct ids between them
      (100 and 101 occur in both). */
  lemma EarlyLateIdCount()
    ensures |IdsIn(Early().values) + IdsIn(Late().values)| == 18
  {
    var early, late := IdsIn(Early().values), IdsIn(Late().values);
    EarlyIds();
    LateIds();
    CountEarly(early);
    CountLate(late);
    SharedWithLate(early, late);
    CountUnion(early, late);
  }

  /** The early and the interwoven chunk use sixteen distinct ids between
      them (100 and 101 occur in both). */
  lemma EarlyWovenIdCount()
    ensures |IdsIn(Early().values) + IdsIn(Woven().values)| == 16
  {
    var early, woven := IdsIn(Early().values), IdsIn(Woven().values);
    EarlyIds();
    WovenIds();
    CountEarly(early);
    CountWoven(woven);
    SharedWithWoven(early, woven);
    CountUnion(early, woven);
  }

  /** `testWithEmpty`: merging with an empty chunk keeps the four samples and
      their ids, and the data map keeps nine entries. */
  lemma {:induction false} TestWithEmpty()
    ensures Early().Valid() && Early().Within(0.0, 500.0)
    ensures Merge(Early(), EmptyChunk(Configuration()), 0.0, 500.0) == Some(Early())
    ensures |Early().referenceEntriesDataMap| == 9
  {
    EarlyValid();
    MergeWithEmpty(Early(), 0.0, 500.0);
    EarlyEntries();
  }

  /** Both chunks are valid, lie in the window [0, 500] and share no
      timestamp: what `merge` is given in every fixture. */
  predicate Mergeable(chunk: HistoryChunk<int>, other: HistoryChunk<int>) {
    && chunk.Valid() && other.Valid()
    && chunk.Within(0.0, 500.0) && other.Within(0.0, 500.0)
    && DisjointTimeStamps(chunk.timeStamps, other.timeStamps)
  }

  /** The data maps of the fixture chunks agree on the ids they share. */
  lemma GeneratedAgree(a: set<int>, b: set<int>)
    ensures forall id :: id in Generate(a) && id in Generate(b) ==> Generate(a)[id] == Generate(b)[id]
  {
  }

  lemma EarlyLateMergeable()
    ensures Mergeable(Early(), Late()) && Mergeable(Late(), Early())
  {
    EarlyValid();
    LateValid();
  }

  /** `this before that`: the columns of the merge are those of the early
      chunk followed by those of the late chunk. */
  lemma EarlyLateColumns()
    ensures Mergeable(Early(), Late())
    ensures var m := Merge(Early(), Late(), 0.0, 500.0).value;
      && m.timeStamps == [100.0, 101.0, 102.0, 103.0, 105.0, 106.0, 107.0, 108.0]
      && m.values == [[1, 10, 100, 1000, 101, 111, 100, 101],
                      [10, 100, 1000, 10000, 1111, 1110, 1101, 1011],
                      [101, 1001, 10001, 100001, 11111, 11110, 11101, 11011]]
  {
    EarlyLateMergeable();
    MergeConsecutive(Early(), Late(), 0.0, 500.0);
    var m := Merge(Early(), Late(), 0.0, 500.0).value;
    assert |m.values| == 3;
    ConcatenatedColumns(m.values, Early().values, Late().values);
  }

  lemma ConcatenatedColumns(values: seq<seq<int>>, early: seq<seq<int>>, late: seq<seq<int>>)
    requires early == [[1, 10, 100, 1000], [10, 100, 1000, 10000], [101, 1001, 10001, 100001]]
    requires late == [[101, 111, 100, 101], [1111, 1110, 1101, 1011], [11111, 11110, 11101, 11011]]
    requires |values| == 3 && forall s :: 0 <= s < 3 ==> values[s] == early[s] + late[s]
    ensures values == [[1, 10, 100, 1000, 101, 111, 100, 101],
                       [10, 100, 1000, 10000, 1111, 1110, 1101, 1011],
                       [101, 1001, 10001, 100001, 11111, 11110, 11101, 11011]]
  {
    assert values[0] == early[0] + late[0] == [1, 10, 100, 1000, 101, 111, 100, 101];
    assert values[1] == early[1] + late[1] == [10, 100, 1000, 10000, 1111, 1110, 1101, 1011];
    assert values[2] == early[2] + late[2] == [101, 1001, 10001, 100001, 11111, 11110, 11101, 11011];
  }

  /** `this before that`: the merged data map holds eighteen entries. */
  lemma EarlyLateEntries()
    ensures Mergeable(Early(), Late())
    ensures |Merge(Early(), Late(), 0.0, 500.0).value.referenceEntriesDataMap| == 18
  {
    EarlyLateMergeable();
    MergeEntriesCount(Early(), Late(), 0.0, 500.0);
    EarlyLateIdCount();
  }

  /** `that before this`: swapping the arguments gives the same chunk. */
  lemma EarlyLateSwapped()
    ensures Mergeable(Early(), Late()) && Mergeable(Late(), Early())
    ensures Merge(Late(), Early(), 0.0, 500.0) == Merge(Early(), Late(), 0.0, 500.0)
  {
    EarlyLateMergeable();
    GeneratedAgree(IdsIn(Early().values), IdsIn(Late().values));
    MergeSymmetric(Early(), Late(), 0.0, 500.0);
  }

  /** `this before that - all` and `that before this - all`: eight samples in
      timestamp order, ids copied verbatim, eighteen data-map entries, and the
      same result in either order of the arguments. */
  lemma TestThisBeforeThat()
    ensures Mergeable(Early(), Late()) && Mergeable(Late(), Early())
    ensures var m := Merge(Early(), Late(), 0.0, 500.0);
      && m.Some?
      && m.value.TimeStampsCount() == 8
      && m.value.timeStamps == [100.0, 101.0, 102.0, 103.0, 105.0, 106.0, 107.0, 108.0]
      && m.value.values == [[1, 10, 100, 1000, 101, 111, 100, 101],
                            [10, 100, 1000, 10000, 1111, 1110, 1101, 1011],
                            [101, 1001, 10001, 100001, 11111, 11110, 11101, 11011]]
      && |m.value.referenceEntriesDataMap| == 18
      && Merge(Late(), Early(), 0.0, 500.0) == m
  {
    EarlyLateColumns();
    EarlyLateEntries();
    EarlyLateSwapped();
  }

  lemma EarlyWovenMergeable()
    ensures Mergeable(Early(), Woven()) && Mergeable(Woven(), Early())
  {
    EarlyValid();
    WovenValid();
  }

  /** `this interwoven with that`: the seven timestamps in ascending order. */
  lemma EarlyWovenTimeStamps()
    ensures Mergeable(Early(), Woven())
    ensures Merge(Early(), Woven(), 0.0, 500.0).value.timeStamps == [100.0, 100.5, 101.0, 101.5, 102.0, 102.5, 103.0]
  {
    EarlyWovenMergeable();
    var m := Merge(Early(), Woven(), 0.0, 500.0).value;
    var expected := [100.0, 100.5, 101.0, 101.5, 102.0, 102.5, 103.0];
    InterwovenAscending(expected);
    AscendingUnique(m.timeStamps, expected);
  }

  lemma InterwovenAscending(expected: seq<real>)
    requires expected == [100.0, 100.5, 101.0, 101.5, 102.0, 102.5, 103.0]
    ensures StrictlyAscending(expected)
  {
  }

  /** `this interwoven with that`: every merged row is the source row with
      its timestamp, taken alternately from the two chunks. */
  lemma EarlyWovenRows()
    ensures Mergeable(Early(), Woven())
    ensures var m := Merge(Early(), Woven(), 0.0, 500.0).value;
      && m.TimeStampsCount() == 7
      && m.RowAt(0) == Early().RowAt(0) && m.RowAt(1) == Woven().RowAt(0)
      && m.RowAt(2) == Early().RowAt(1) && m.RowAt(3) == Woven().RowAt(1)
      && m.RowAt(4) == Early().RowAt(2) && m.RowAt(5) == Woven().RowAt(2)
      && m.RowAt(6) == Early().RowAt(3)
  {
    EarlyWovenTimeStamps();
    MergeCopiesRows(Early(), Woven(), 0.0, 500.0);
  }

  /** The ids of every sample of the early chunk. */
  lemma EarlyRowIds()
    ensures Early().Valid()
    ensures && Early().RowAt(0).ids == [1, 10, 101] && Early().RowAt(1).ids == [10, 100, 1001]
            && Early().RowAt(2).ids == [100, 1000, 10001] && Early().RowAt(3).ids == [1000, 10000, 100001]
  {
    EarlyValid();
  }

  /** The ids of every sample of the interwoven chunk. */
  lemma WovenRowIds()
    ensures Woven().Valid()
    ensures && Woven().RowAt(0).ids == [101, 1111, 11111] && Woven().RowAt(1).ids == [111, 1110, 11110]
            && Woven().RowAt(2).ids == [100, 1101, 11101]
  {
    WovenValid();
  }

  /** A chunk's columns read its rows' ids series by series. */
  lemma ColumnsOfRows(m: HistoryChunk<int>, rows: seq<seq<int>>)
    requires m.Valid() && m.TimeStampsCount() == |rows|
    requires forall k :: 0 <= k < |rows| ==> m.RowAt(k).ids == rows[k]
    ensures forall s, k :: 0 <= s < |m.values| && 0 <= k < |rows| ==>
      |m.values[s]| == |rows| && s < |rows[k]| && m.values[s][k] == rows[k][s]
  {
    forall s, k | 0 <= s < |m.values| && 0 <= k < |rows|
      ensures |m.values[s]| == |rows| && s < |rows[k]| && m.values[s][k] == rows[k][s]
    {
      assert m.RowAt(k).ids[s] == m.values[s][k];
    }
  }

  lemma InterwovenColumns(values: seq<seq<int>>, rows: seq<seq<int>>)
    requires rows == [[1, 10, 101], [101, 1111, 11111], [10, 100, 1001], [111, 1110, 11110],
                      [100, 1000, 10001], [100, 1101, 11101], [1000, 10000, 100001]]
    requires |values| == 3
    requires forall s, k :: 0 <= s < 3 && 0 <= k < 7 ==> |values[s]| == 7 && values[s][k] == rows[k][s]
    ensures values == [[1, 101, 10, 111, 100, 100, 1000],
                       [10, 1111, 100, 1110, 1000, 1101, 10000],
                       [101, 11111, 1001, 11110, 10001, 11101, 100001]]
  {
    forall s | 0 <= s < 3
      ensures values[s] == [rows[0][s], rows[1][s], rows[2][s], rows[3][s], rows[4][s], rows[5][s], rows[6][s]]
    {
      assert |values[s]| == 7;
    }
  }

  /** `this interwoven with that`: the id columns of the merge. */
  lemma EarlyWovenColumns()
    ensures Mergeable(Early(), Woven())
    ensures Merge(Early(), Woven(), 0.0, 500.0).value.values
         == [[1, 101, 10, 111, 100, 100, 1000],
             [10, 1111, 100, 1110, 1000, 1101, 10000],
             [101, 11111, 1001, 11110, 10001, 11101, 100001]]
  {
    EarlyWovenRows();
    EarlyRowIds();
    WovenRowIds();
    var m := Merge(Early(), Woven(), 0.0, 500.0).value;
    var rows := [[1, 10, 101], [101, 1111, 11111], [10, 100, 1001], [111, 1110, 11110],
                 [100, 1000, 10001], [100, 1101, 11101], [1000, 10000, 100001]];
    ColumnsOfRows(m, rows);
    InterwovenColumns(m.values, rows);
  }

  /** `this interwoven with that`: the merged data map holds sixteen entries. */
  lemma EarlyWovenEntries()
    ensures Mergeable(Early(), Woven())
    ensures |Merge(Early(), Woven(), 0.0, 500.0).value.referenceEntriesDataMap| == 16
  {
    EarlyWovenMergeable();
    MergeEntriesCount(Early(), Woven(), 0.0, 500.0);
    EarlyWovenIdCount();
  }

  /** `that outside`: swapping the arguments gives the same chunk. */
  lemma EarlyWovenSwapped()
    ensures Mergeable(Early(), Woven()) && Mergeable(Woven(), Early())
    ensures Merge(Woven(), Early(), 0.0, 500.0) == Merge(Early(), Woven(), 0.0, 500.0)
  {
    EarlyWovenMergeable();
    GeneratedAgree(IdsIn(Early().values), IdsIn(Woven().values));
    MergeSymmetric(Early(), Woven(), 0.0, 500.0);
  }

  /** `this interwoven with that - this outside` and `- that outside`: seven
      samples in timestamp order, each with the ids of its source sample,
      sixteen data-map entries, in either order of the arguments. */
  lemma TestInterwoven()
    ensures Mergeable(Early(), Woven()) && Mergeable(Woven(), Early())
    ensures var m := Merge(Early(), Woven(), 0.0, 500.0);
      && m.Some?
      && m.value.TimeStampsCount() == 7
      && m.value.timeStamps == [100.0, 100.5, 101.0, 101.5, 102.0, 102.5, 103.0]
      && m.value.values == [[1, 101, 10, 111, 100, 100, 1000],
                            [10, 1111, 100, 1110, 1000, 1101, 10000],
                            [101, 11111, 1001, 11110, 10001, 11101, 100001]]
      && |m.value.referenceEntriesDataMap| == 16
      && Merge(Woven(), Early(), 0.0, 500.0) == m
  {
    EarlyWovenTimeStamps();
    EarlyWovenColumns();
    EarlyWovenEntries();
    EarlyWovenSwapped();
  }
}
