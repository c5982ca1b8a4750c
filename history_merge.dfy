/** `HistoryChunk.merge(other, start, end)` for reference-entry chunks: the
    rows of both chunks, ordered by timestamp, with every id copied verbatim
    from its source row, and a data map holding every id in use. */
module HistoryMerge {
  import opened Wrappers
  import opened HistoryChunks

  predicate DisjointTimeStamps(xs: seq<real>, ys: seq<real>) {
    forall i, j :: 0 <= i < |xs| && 0 <= j < |ys| ==> xs[i] != ys[j]
  }

  predicate DisjointRows(xs: seq<Row>, ys: seq<Row>) {
    DisjointTimeStamps(TimeStampsOf(xs), TimeStampsOf(ys))
  }

  /** The row form of DisjointRows, and the forms it takes on the tails. */
  lemma DisjointRowsAt(xs: seq<Row>, ys: seq<Row>)
    ensures DisjointRows(xs, ys) <==>
      forall i, j :: 0 <= i < |xs| && 0 <= j < |ys| ==> xs[i].timeStamp != ys[j].timeStamp
  {
    assert forall i :: 0 <= i < |xs| ==> TimeStampsOf(xs)[i] == xs[i].timeStamp;
    assert forall j :: 0 <= j < |ys| ==> TimeStampsOf(ys)[j] == ys[j].timeStamp;
  }

  lemma DisjointRowsTails(xs: seq<Row>, ys: seq<Row>)
    requires DisjointRows(xs, ys)
    ensures DisjointRows(ys, xs)
    ensures xs != [] ==> DisjointRows(xs[1..], ys)
    ensures ys != [] ==> DisjointRows(xs, ys[1..])
    ensures xs != [] && ys != [] ==> xs[0].timeStamp != ys[0].timeStamp
  {
    DisjointRowsAt(xs, ys);
    DisjointRowsAt(ys, xs);
    if xs != [] {
      DisjointRowsAt(xs[1..], ys);
      assert forall i :: 0 <= i < |xs[1..]| ==> xs[1..][i] == xs[i + 1];
    }
    if ys != [] {
      DisjointRowsAt(xs, ys[1..]);
      assert forall j :: 0 <= j < |ys[1..]| ==> ys[1..][j] == ys[j + 1];
    }
  }

  /** The two-cursor merge: repeatedly emit the front row with the smaller
      timestamp. Timestamps shared by both inputs are excluded by the
      precondition, so no tie-breaking rule is assumed. */
  function MergeRows(xs: seq<Row>, ys: seq<Row>): (merged: seq<Row>)
    requires DisjointRows(xs, ys)
    ensures |merged| == |xs| + |ys|
    ensures multiset(merged) == multiset(xs) + multiset(ys)
    decreases |xs| + |ys|
  {
    DisjointRowsTails(xs, ys);
    if xs == [] then ys
    else if ys == [] then xs
    else if xs[0].timeStamp < ys[0].timeStamp then
      assert xs == [xs[0]] + xs[1..];
      [xs[0]] + MergeRows(xs[1..], ys)
    else
      assert ys == [ys[0]] + ys[1..];
      [ys[0]] + MergeRows(xs, ys[1..])
  }

  /** A row of the merge is a row of one of the inputs, and conversely. */
  lemma MergedRowMembership(xs: seq<Row>, ys: seq<Row>, row: Row)
    requires DisjointRows(xs, ys)
    ensures row in MergeRows(xs, ys) <==> row in xs || row in ys
  {
    var merged := MergeRows(xs, ys);
    assert row in merged <==> row in multiset(merged);
    assert row in xs <==> row in multiset(xs);
    assert row in ys <==> row in multiset(ys);
  }

  /** Merging two ascending row sequences yields an ascending sequence. */
  lemma {:induction false} MergeRowsAscending(xs: seq<Row>, ys: seq<Row>)
    requires RowsAscending(xs) && RowsAscending(ys) && DisjointRows(xs, ys)
    ensures RowsAscending(MergeRows(xs, ys))
  {
    DisjointRowsTails(xs, ys);
    RowsAscendingAt(xs);
    RowsAscendingAt(ys);
    if xs == [] || ys == [] {
    } else if xs[0].timeStamp < ys[0].timeStamp {
      var rest := MergeRows(xs[1..], ys);
      RowsAscendingTail(xs);
      RowsAscendingTail(ys);
      MergeRowsAscending(xs[1..], ys);
      forall k | 0 <= k < |rest| ensures xs[0].timeStamp < rest[k].timeStamp {
        MergedRowMembership(xs[1..], ys, rest[k]);
        if rest[k] in xs[1..] {
          var m :| 0 <= m < |xs[1..]| && xs[1..][m] == rest[k];
          assert xs[m + 1] == rest[k];
        } else {
          var m :| 0 <= m < |ys| && ys[m] == rest[k];
          assert ys[0].timeStamp <= ys[m].timeStamp;
        }
      }
      RowsAscendingCons(xs[0], rest);
    } else {
      var rest := MergeRows(xs, ys[1..]);
      RowsAscendingTail(xs);
      RowsAscendingTail(ys);
      MergeRowsAscending(xs, ys[1..]);
      assert ys[0].timeStamp < xs[0].timeStamp;
      forall k | 0 <= k < |rest| ensures ys[0].timeStamp < rest[k].timeStamp {
        MergedRowMembership(xs, ys[1..], rest[k]);
        if rest[k] in ys[1..] {
          var m :| 0 <= m < |ys[1..]| && ys[1..][m] == rest[k];
          assert ys[m + 1] == rest[k];
        } else {
          var m :| 0 <= m < |xs| && xs[m] == rest[k];
          assert xs[0].timeStamp <= xs[m].timeStamp;
        }
      }
      RowsAscendingCons(ys[0], rest);
    }
  }

  /** With no shared timestamp, the order of the arguments does not matter. */
  lemma {:induction false} MergeRowsSymmetric(xs: seq<Row>, ys: seq<Row>)
    requires DisjointRows(xs, ys)
    ensures DisjointRows(ys, xs)
    ensures MergeRows(xs, ys) == MergeRows(ys, xs)
  {
    DisjointRowsTails(xs, ys);
    if xs == [] || ys == [] {
    } else if xs[0].timeStamp < ys[0].timeStamp {
      MergeRowsSymmetric(xs[1..], ys);
    } else {
      assert ys[0].timeStamp < xs[0].timeStamp;
      MergeRowsSymmetric(xs, ys[1..]);
    }
  }

  /** Every row of xs comes before every row of ys. */
  predicate Precedes(xs: seq<Row>, ys: seq<Row>) {
    forall i, j :: 0 <= i < |xs| && 0 <= j < |ys| ==> xs[i].timeStamp < ys[j].timeStamp
  }

  /** When all of xs precedes all of ys, the merge is the concatenation. */
  lemma {:induction false} MergeRowsPrecedes(xs: seq<Row>, ys: seq<Row>)
    requires Precedes(xs, ys)
    ensures DisjointRows(xs, ys)
    ensures MergeRows(xs, ys) == xs + ys
  {
    DisjointRowsAt(xs, ys);
    if xs == [] || ys == [] {
    } else {
      MergeRowsPrecedes(xs[1..], ys);
      assert [xs[0]] + (xs[1..] + ys) == xs + ys;
    }
  }

  /** The ids in use in the merged rows are those of both inputs. */
  lemma MergedRowIds(xs: seq<Row>, ys: seq<Row>)
    requires DisjointRows(xs, ys)
    ensures IdsOfRows(MergeRows(xs, ys)) == IdsOfRows(xs) + IdsOfRows(ys)
  {
    var merged := MergeRows(xs, ys);
    forall id | id in IdsOfRows(merged) ensures id in IdsOfRows(xs) + IdsOfRows(ys) {
      var row :| row in merged && id in row.ids;
      MergedRowMembership(xs, ys, row);
    }
    forall id | id in IdsOfRows(xs) + IdsOfRows(ys) ensures id in IdsOfRows(merged) {
      var row :| (row in xs || row in ys) && id in row.ids;
      MergedRowMembership(xs, ys, row);
    }
  }

  /** The timestamps of the merged rows are those of both inputs. */
  lemma MergedRowTimeStamps(xs: seq<Row>, ys: seq<Row>)
    requires DisjointRows(xs, ys)
    ensures forall t :: t in TimeStampsOf(MergeRows(xs, ys)) <==> t in TimeStampsOf(xs) || t in TimeStampsOf(ys)
  {
    var merged := MergeRows(xs, ys);
    forall t | t in TimeStampsOf(merged) ensures t in TimeStampsOf(xs) || t in TimeStampsOf(ys) {
      var k :| 0 <= k < |merged| && merged[k].timeStamp == t;
      MergedRowMembership(xs, ys, merged[k]);
      if merged[k] in xs {
        var i :| 0 <= i < |xs| && xs[i] == merged[k];
        assert TimeStampsOf(xs)[i] == t;
      } else {
        var j :| 0 <= j < |ys| && ys[j] == merged[k];
        assert TimeStampsOf(ys)[j] == t;
      }
    }
    forall t | t in TimeStampsOf(xs) || t in TimeStampsOf(ys) ensures t in TimeStampsOf(merged) {
      var row: Row;
      if t in TimeStampsOf(xs) {
        var i :| 0 <= i < |xs| && TimeStampsOf(xs)[i] == t;
        row := xs[i];
      } else {
        var j :| 0 <= j < |ys| && TimeStampsOf(ys)[j] == t;
        row := ys[j];
      }
      MergedRowMembership(xs, ys, row);
      var k :| 0 <= k < |merged| && merged[k] == row;
      assert TimeStampsOf(merged)[k] == t;
    }
  }

  /** The merged data map: every id in use in either input, each with the
      payload of an input that holds it. */
  function MergeEntries<D>(existing: map<int, D>, incoming: map<int, D>): (merged: map<int, D>)
    ensures merged.Keys == existing.Keys + incoming.Keys
    ensures forall id :: id in merged ==>
      (id in existing && merged[id] == existing[id]) || (id in incoming && merged[id] == incoming[id])
  {
    incoming + existing
  }

  /** The chunk the merge builds, before it is wrapped in an option. */
  function MergedChunk<D>(chunk: HistoryChunk<D>, other: HistoryChunk<D>): HistoryChunk<D>
    requires chunk.Valid() && other.Valid() && chunk.configuration == other.configuration
    requires DisjointTimeStamps(chunk.timeStamps, other.timeStamps)
  {
    RowsDisjoint(chunk, other);
    var rows := MergeRows(chunk.Rows(), other.Rows());
    MergedRowsWellFormed(chunk, other);
    FromRows(chunk.configuration, rows, MergeEntries(chunk.referenceEntriesDataMap, other.referenceEntriesDataMap))
  }

  lemma RowsDisjoint<D>(chunk: HistoryChunk<D>, other: HistoryChunk<D>)
    requires chunk.Valid() && other.Valid()
    requires DisjointTimeStamps(chunk.timeStamps, other.timeStamps)
    ensures DisjointRows(chunk.Rows(), other.Rows())
  {
    var xs, ys := chunk.Rows(), other.Rows();
    forall i, j | 0 <= i < |xs| && 0 <= j < |ys| ensures xs[i].timeStamp != ys[j].timeStamp {
      assert xs[i].timeStamp == TimeStampsOf(xs)[i] == chunk.timeStamps[i];
      assert ys[j].timeStamp == TimeStampsOf(ys)[j] == other.timeStamps[j];
    }
  }

  lemma MergedRowsWellFormed<D>(chunk: HistoryChunk<D>, other: HistoryChunk<D>)
    requires chunk.Valid() && other.Valid() && chunk.configuration == other.configuration
    requires DisjointRows(chunk.Rows(), other.Rows())
    ensures RowsWellFormed(MergeRows(chunk.Rows(), other.Rows()), chunk.configuration.SeriesCount())
  {
    var xs, ys := chunk.Rows(), other.Rows();
    var merged := MergeRows(xs, ys);
    forall k | 0 <= k < |merged| ensures |merged[k].ids| == chunk.configuration.SeriesCount() {
      MergedRowMembership(xs, ys, merged[k]);
    }
  }

  /** The merged chunk is valid and its rows are the merge of the inputs' rows. */
  lemma {:induction false} MergedChunkRows<D>(chunk: HistoryChunk<D>, other: HistoryChunk<D>)
    requires chunk.Valid() && other.Valid() && chunk.configuration == other.configuration
    requires DisjointTimeStamps(chunk.timeStamps, other.timeStamps)
    ensures DisjointRows(chunk.Rows(), other.Rows())
    ensures MergedChunk(chunk, other).Valid()
    ensures MergedChunk(chunk, other).Rows() == MergeRows(chunk.Rows(), other.Rows())
  {
    var xs, ys := chunk.Rows(), other.Rows();
    RowsDisjoint(chunk, other);
    MergedRowsWellFormed(chunk, other);
    MergeRowsAscending(xs, ys);
    MergedRowIds(xs, ys);
    TransposedIds(chunk.values, xs);
    TransposedIds(other.values, ys);
    RowsOfFromRows(chunk.configuration, MergeRows(xs, ys),
      MergeEntries(chunk.referenceEntriesDataMap, other.referenceEntriesDataMap));
  }

  /** `chunk.merge(other, start, end)`. The result is taken to be absent
      exactly when the two chunks have different configurations; otherwise it
      is a valid chunk of that configuration holding every row of both
      inputs, in strictly ascending timestamp order, and the merged data
      map. */
  function Merge<D>(chunk: HistoryChunk<D>, other: HistoryChunk<D>, start: real, end: real): (merged: Option<HistoryChunk<D>>)
    requires chunk.Valid() && other.Valid()
    requires chunk.Within(start, end) && other.Within(start, end)
    requires DisjointTimeStamps(chunk.timeStamps, other.timeStamps)
    ensures merged.Some? <==> chunk.configuration == other.configuration
    ensures merged.Some? ==> merged.value.Valid() && merged.value.configuration == chunk.configuration
    ensures merged.Some? ==> merged.value.TimeStampsCount() == chunk.TimeStampsCount() + other.TimeStampsCount()
    ensures merged.Some? ==>
      forall t :: t in merged.value.timeStamps <==> t in chunk.timeStamps || t in other.timeStamps
    ensures merged.Some? ==>
      merged.value.referenceEntriesDataMap == MergeEntries(chunk.referenceEntriesDataMap, other.referenceEntriesDataMap)
  {
    if chunk.configuration != other.configuration then None
    else
      MergedChunkRows(chunk, other);
      MergedRowTimeStamps(chunk.Rows(), other.Rows());
      Some(MergedChunk(chunk, other))
  }

  /** Every merged row carries, in every series, exactly the ids of the source
      row with the same timestamp: ids are copied, never renumbered. */
  lemma {:induction false} MergeCopiesRows<D>(chunk: HistoryChunk<D>, other: HistoryChunk<D>, start: real, end: real)
    requires chunk.Valid() && other.Valid() && chunk.configuration == other.configuration
    requires chunk.Within(start, end) && other.Within(start, end)
    requires DisjointTimeStamps(chunk.timeStamps, other.timeStamps)
    ensures var m := Merge(chunk, other, start, end).value;
      && (forall k, i :: 0 <= k < m.TimeStampsCount() && 0 <= i < chunk.TimeStampsCount()
            && m.timeStamps[k] == chunk.timeStamps[i]
            ==> m.RowAt(k) == chunk.RowAt(i))
      && (forall k, j :: 0 <= k < m.TimeStampsCount() && 0 <= j < other.TimeStampsCount()
            && m.timeStamps[k] == other.timeStamps[j]
            ==> m.RowAt(k) == other.RowAt(j))
  {
    var m := Merge(chunk, other, start, end).value;
    MergedChunkRows(chunk, other);
    forall k, i | 0 <= k < m.TimeStampsCount() && 0 <= i < chunk.TimeStampsCount()
                  && m.timeStamps[k] == chunk.timeStamps[i]
      ensures m.RowAt(k) == chunk.RowAt(i)
    {
      SourceRowInMerge(chunk, other, m, chunk.Rows(), k, i);
    }
    forall k, j | 0 <= k < m.TimeStampsCount() && 0 <= j < other.TimeStampsCount()
                  && m.timeStamps[k] == other.timeStamps[j]
      ensures m.RowAt(k) == other.RowAt(j)
    {
      SourceRowInMerge(chunk, other, m, other.Rows(), k, j);
    }
  }

  /** A source row that occurs in a chunk with strictly ascending timestamps
      sits at the one position carrying its timestamp. */
  lemma SourceRowInMerge<D>(chunk: HistoryChunk<D>, other: HistoryChunk<D>, m: HistoryChunk<D>, source: seq<Row>, k: nat, i: nat)
    requires chunk.Valid() && other.Valid() && m.Valid()
    requires DisjointRows(chunk.Rows(), other.Rows())
    requires m.Rows() == MergeRows(chunk.Rows(), other.Rows())
    requires source == chunk.Rows() || source == other.Rows()
    requires k < m.TimeStampsCount() && i < |source| && m.timeStamps[k] == source[i].timeStamp
    ensures m.RowAt(k) == source[i]
  {
    var rows := m.Rows();
    MergedRowMembership(chunk.Rows(), other.Rows(), source[i]);
    var k' :| 0 <= k' < |rows| && rows[k'] == source[i];
    assert m.timeStamps[k'] == TimeStampsOf(rows)[k'] == source[i].timeStamp;
    assert k' == k;
    assert rows[k] == m.RowAt(k);
  }

  /** Merging with an empty chunk of the same configuration, in either order,
      gives the non-empty chunk back unchanged. */
  lemma {:induction false} MergeWithEmpty<D>(chunk: HistoryChunk<D>, start: real, end: real)
    requires chunk.Valid() && chunk.Within(start, end)
    ensures Merge(chunk, EmptyChunk(chunk.configuration), start, end) == Some(chunk)
    ensures Merge(EmptyChunk(chunk.configuration), chunk, start, end) == Some(chunk)
  {
    var empty: HistoryChunk<D> := EmptyChunk(chunk.configuration);
    assert empty.Rows() == [];
    assert MergeEntries(chunk.referenceEntriesDataMap, empty.referenceEntriesDataMap) == chunk.referenceEntriesDataMap;
    assert MergeEntries(empty.referenceEntriesDataMap, chunk.referenceEntriesDataMap) == chunk.referenceEntriesDataMap;
    FromRowsOfRows(chunk);
  }

  /** `a.merge(b)` and `b.merge(a)` agree on timestamps, id columns and the ids
      held by the data map; when the two data maps agree on the ids they
      share, the two results are identical. */
  lemma {:induction false} MergeSymmetric<D>(chunk: HistoryChunk<D>, other: HistoryChunk<D>, start: real, end: real)
    requires chunk.Valid() && other.Valid()
    requires chunk.Within(start, end) && other.Within(start, end)
    requires DisjointTimeStamps(chunk.timeStamps, other.timeStamps)
    ensures DisjointTimeStamps(other.timeStamps, chunk.timeStamps)
    ensures var ab, ba := Merge(chunk, other, start, end), Merge(other, chunk, start, end);
      && ab.Some? == ba.Some?
      && (ab.Some? ==> ab.value.timeStamps == ba.value.timeStamps && ab.value.values == ba.value.values
                       && ab.value.referenceEntriesDataMap.Keys == ba.value.referenceEntriesDataMap.Keys)
      && ((forall id :: id in chunk.referenceEntriesDataMap && id in other.referenceEntriesDataMap
             ==> chunk.referenceEntriesDataMap[id] == other.referenceEntriesDataMap[id]) ==> ab == ba)
  {
    if chunk.configuration == other.configuration {
      RowsDisjoint(chunk, other);
      MergeRowsSymmetric(chunk.Rows(), other.Rows());
      var m1 := MergeEntries(chunk.referenceEntriesDataMap, other.referenceEntriesDataMap);
      var m2 := MergeEntries(other.referenceEntriesDataMap, chunk.referenceEntriesDataMap);
      if forall id :: id in chunk.referenceEntriesDataMap && id in other.referenceEntriesDataMap
           ==> chunk.referenceEntriesDataMap[id] == other.referenceEntriesDataMap[id]
      {
        assert m1 == m2;
      }
    }
  }

  /** When every row of `chunk` precedes every row of `other`, the merge is the
      concatenation: timestamps and every id column are those of `chunk`
      followed by those of `other`. */
  lemma {:induction false} MergeConsecutive<D>(chunk: HistoryChunk<D>, other: HistoryChunk<D>, start: real, end: real)
    requires chunk.Valid() && other.Valid() && chunk.configuration == other.configuration
    requires chunk.Within(start, end) && other.Within(start, end)
    requires forall i, j :: 0 <= i < |chunk.timeStamps| && 0 <= j < |other.timeStamps| ==> chunk.timeStamps[i] < other.timeStamps[j]
    ensures DisjointTimeStamps(chunk.timeStamps, other.timeStamps)
    ensures var m := Merge(chunk, other, start, end).value;
      && m.timeStamps == chunk.timeStamps + other.timeStamps
      && forall s :: 0 <= s < |m.values| ==> m.values[s] == chunk.values[s] + other.values[s]
  {
    var xs, ys := chunk.Rows(), other.Rows();
    forall i, j | 0 <= i < |xs| && 0 <= j < |ys| ensures xs[i].timeStamp < ys[j].timeStamp {
      assert xs[i].timeStamp == TimeStampsOf(xs)[i] == chunk.timeStamps[i];
      assert ys[j].timeStamp == TimeStampsOf(ys)[j] == other.timeStamps[j];
    }
    MergeRowsPrecedes(xs, ys);
    MergedChunkRows(chunk, other);
    var m := Merge(chunk, other, start, end).value;
    assert m.Rows() == xs + ys;
    TimeStampsOfConcat(xs, ys);
    TransposedConcat(m.values, chunk.values, other.values, xs, ys);
  }

  lemma TimeStampsOfConcat(xs: seq<Row>, ys: seq<Row>)
    ensures TimeStampsOf(xs + ys) == TimeStampsOf(xs) + TimeStampsOf(ys)
  {
  }

  /** The columns of concatenated rows are the concatenated columns. */
  lemma TransposedConcat(values: seq<seq<int>>, left: seq<seq<int>>, right: seq<seq<int>>, xs: seq<Row>, ys: seq<Row>)
    requires Transposed(values, xs + ys) && Transposed(left, xs) && Transposed(right, ys)
    requires |left| == |right| == |values|
    ensures forall s :: 0 <= s < |values| ==> values[s] == left[s] + right[s]
  {
    forall s | 0 <= s < |values| ensures values[s] == left[s] + right[s] {
      forall k | 0 <= k < |xs + ys| ensures values[s][k] == (left[s] + right[s])[k] {
        if k < |xs| {
          assert (xs + ys)[k] == xs[k];
        } else {
          assert (xs + ys)[k] == ys[k - |xs|];
        }
      }
    }
  }

  /** The merged data map holds one entry per distinct id in use anywhere in
      the merged columns, across all series, and these are the ids of both
      inputs together. */
  lemma {:induction false} MergeEntriesCount<D>(chunk: HistoryChunk<D>, other: HistoryChunk<D>, start: real, end: real)
    requires chunk.Valid() && other.Valid() && chunk.configuration == other.configuration
    requires chunk.Within(start, end) && other.Within(start, end)
    requires DisjointTimeStamps(chunk.timeStamps, other.timeStamps)
    ensures var m := Merge(chunk, other, start, end).value;
      && IdsIn(m.values) == IdsIn(chunk.values) + IdsIn(other.values)
      && |m.referenceEntriesDataMap| == |IdsIn(chunk.values) + IdsIn(other.values)|
  {
    var m := Merge(chunk, other, start, end).value;
    MergedChunkRows(chunk, other);
    TransposedIds(m.values, m.Rows());
    TransposedIds(chunk.values, chunk.Rows());
    TransposedIds(other.values, other.Rows());
    MergedRowIds(chunk.Rows(), other.Rows());
    assert |m.referenceEntriesDataMap| == |m.referenceEntriesDataMap.Keys|;
  }
}
