# meistercharts: history-chunk merge, layout cache and render-loop listeners

This project models three small parts of meistercharts in Dafny and proves properties of them. The implementations are not part of this model. The behaviour is taken from the tests that pin it down.

- **History chunks with reference-entry series** (`history_chunk.dfy`, `history_merge.dfy`).
  - A chunk has a strictly ascending timestamp axis.
  - It has one column of reference-entry ids per configured data series.
  - Its reference-entries data map holds the payload of every id in use.
  - `historyChunk(configuration) { addReferenceEntryValues(...) }` is the class `HistoryChunkBuilder`. It appends one sample at a time.
  - `chunk.merge(other, start, end)` is the pure function `Merge`. It returns an `Option`; the model takes `None` (the `null` that `merge` may return) to mean that the two configurations differ.
  - `merge` is defined through a two-cursor merge of the row views of both chunks.
  - It is proved to keep the chunk invariant, to copy every row's ids verbatim and to be symmetric. It is proved to be the concatenation when one chunk precedes the other, and to return the chunk unchanged when merged with an empty chunk.
  - The data map holds exactly the ids in use, so its size is the number of distinct ids.
- **The merge fixtures replayed** (`merge_fixtures.dfy`). The chunks of the reference-entry merge tests, with generated payloads, and the outcome of every merge they perform. This covers timestamps, every id column, the data-map size (9, 18 and 16) and the order of the arguments.
- **The generational layout cache** (`layout_cache.dfy`).
  - `MappedLayoutCache` is a class holding a map from keys to mutable `MyLayoutVariable` records.
  - `get` creates a record through the factory on first access. Every factory call is counted, as in the test fixture.
  - `resetIfNewLoopIndex` resets every record in place when the loop index changes.
  - `clear` drops the records.
  - The NaN used for "not computed" is the `Unset` case of a datatype.
- **Render-loop listener bookkeeping** (`render_loop.dfy`).
  - `ChartSupport` holds `renderLoopListeners` (a sequence) and `renderLoopListenersToRemove` (a set).
  - `onRender` appends a listener.
  - `render` first removes the listeners scheduled on the previous render. It then schedules the ones that report finished on this frame.
  - `ChartAnimation.dispose` marks the listener so that it reports finished.

Two choices are fixed by the tests alone:

- The merge copies ids verbatim (`HistoryChunkMergeReferenceEntriesTest.kt:80-82`, `:137-139`).
- The data map is keyed by id alone, because the sizes 9, 18 and 16 (`:55`, `:84`, `:141`) are the counts of distinct ids across all three series.

## Model

| member | source | states |
|---|---|---|
| HistoryChunks.HistoryChunk.Rows | meistercharts-history/meistercharts-history-core/src/jvmTest/kotlin/com/meistercharts/history/impl/HistoryChunkMergeReferenceEntriesTest.kt:51-53 | the row view of a valid chunk: row i holds timestamp i and, for every series s, the id `values[s][i]`; row timestamps ascend strictly |
| HistoryChunks.EmptyChunk | meistercharts-history/meistercharts-history-core/src/jvmTest/kotlin/com/meistercharts/history/impl/HistoryChunkMergeReferenceEntriesTest.kt:45 | `historyChunk(configuration) {}` is a valid chunk of that configuration with no samples |
| HistoryChunks.AscendingUnique | meistercharts-history/meistercharts-history-core/src/jvmTest/kotlin/com/meistercharts/history/impl/HistoryChunkMergeReferenceEntriesTest.kt:135 | two strictly ascending timestamp sequences with the same members are equal, so the merged axis is fixed by its set of timestamps |
| HistoryChunks.FromRowsOfRows | meistercharts-history/meistercharts-history-core/src/jvmTest/kotlin/com/meistercharts/history/impl/HistoryChunkMergeReferenceEntriesTest.kt:51-53 | building a chunk from a chunk's rows gives the chunk back (column view, then row view, then column view) |
| HistoryChunks.RowsOfFromRows | meistercharts-history/meistercharts-history-core/src/jvmTest/kotlin/com/meistercharts/history/impl/HistoryChunkMergeReferenceEntriesTest.kt:51-53 | a chunk built from well-formed ascending rows, with a data map holding exactly their ids, is valid and has exactly those rows |
| HistoryChunks.TransposedIds | meistercharts-history/meistercharts-history-core/src/jvmTest/kotlin/com/meistercharts/history/impl/HistoryChunkMergeReferenceEntriesTest.kt:55 | the ids in use in the columns are the ids in use in the rows |
| HistoryChunks.AppendedIds | meistercharts-history/meistercharts-history-core/src/jvmTest/kotlin/com/meistercharts/history/impl/HistoryChunkMergeReferenceEntriesTest.kt:39-42 | appending a sample adds exactly its ids to the ids in use |
| HistoryChunks.AppendedRows | meistercharts-history/meistercharts-history-core/src/jvmTest/kotlin/com/meistercharts/history/impl/HistoryChunkMergeReferenceEntriesTest.kt:39-42 | a sample with one id per series and a later timestamp keeps the chunk valid and becomes its last row |
| HistoryChunks.HistoryChunkBuilder.constructor | meistercharts-history/meistercharts-history-core/src/jvmTest/kotlin/com/meistercharts/history/impl/HistoryChunkMergeReferenceEntriesTest.kt:38 | a fresh builder holds the empty chunk of its configuration |
| HistoryChunks.HistoryChunkBuilder.AddReferenceEntryValues | meistercharts-history/meistercharts-history-core/src/jvmTest/kotlin/com/meistercharts/history/impl/HistoryChunkMergeReferenceEntriesTest.kt:39-42 | a sample is accepted exactly when it has one id per series and a timestamp after the last one; then the timestamp and each series' id are appended, the chunk gains the row, the ids' payloads enter the data map and the chunk stays valid; a refused sample changes nothing |
| HistoryChunks.HistoryChunkBuilder.Build | meistercharts-history/meistercharts-history-core/src/jvmTest/kotlin/com/meistercharts/history/impl/HistoryChunkMergeReferenceEntriesTest.kt:38-43 | the built chunk is valid and is exactly the samples added so far |
| HistoryMerge.MergeRows | meistercharts-history/meistercharts-history-core/src/jvmTest/kotlin/com/meistercharts/history/impl/HistoryChunkMergeReferenceEntriesTest.kt:77 | the two-cursor merge has as many rows as both inputs together and is a permutation of their rows |
| HistoryMerge.MergedRowMembership | meistercharts-history/meistercharts-history-core/src/jvmTest/kotlin/com/meistercharts/history/impl/HistoryChunkMergeReferenceEntriesTest.kt:80-82 | a row is in the merge if and only if it is a row of one of the inputs |
| HistoryMerge.MergeRowsAscending | meistercharts-history/meistercharts-history-core/src/jvmTest/kotlin/com/meistercharts/history/impl/HistoryChunkMergeReferenceEntriesTest.kt:135 | merging two strictly ascending row sequences with disjoint timestamps gives a strictly ascending sequence |
| HistoryMerge.MergeRowsSymmetric | meistercharts-history/meistercharts-history-core/src/jvmTest/kotlin/com/meistercharts/history/impl/HistoryChunkMergeReferenceEntriesTest.kt:87-114 | merging xs with ys gives the same rows as merging ys with xs |
| HistoryMerge.MergeRowsPrecedes | meistercharts-history/meistercharts-history-core/src/jvmTest/kotlin/com/meistercharts/history/impl/HistoryChunkMergeReferenceEntriesTest.kt:78-82 | when every row of xs precedes every row of ys, the merge is xs followed by ys |
| HistoryMerge.MergedRowIds | meistercharts-history/meistercharts-history-core/src/jvmTest/kotlin/com/meistercharts/history/impl/HistoryChunkMergeReferenceEntriesTest.kt:84 | the ids in use in the merged rows are the ids of both inputs together |
| HistoryMerge.MergedRowTimeStamps | meistercharts-history/meistercharts-history-core/src/jvmTest/kotlin/com/meistercharts/history/impl/HistoryChunkMergeReferenceEntriesTest.kt:78 | a timestamp occurs in the merge if and only if it occurs in one of the inputs |
| HistoryMerge.MergeEntries | meistercharts-history/meistercharts-history-core/src/jvmTest/kotlin/com/meistercharts/history/impl/HistoryChunkMergeReferenceEntriesTest.kt:84 | the merged data map holds the ids of both maps, each with the payload of a map that holds it |
| HistoryMerge.MergedChunkRows | meistercharts-history/meistercharts-history-core/src/jvmTest/kotlin/com/meistercharts/history/impl/HistoryChunkMergeReferenceEntriesTest.kt:74-82 | the merged chunk is valid and its rows are the two-cursor merge of the inputs' rows |
| HistoryMerge.Merge | meistercharts-history/meistercharts-history-core/src/jvmTest/kotlin/com/meistercharts/history/impl/HistoryChunkMergeReferenceEntriesTest.kt:74-78 | the result is present exactly when the configurations agree (an assumption, see Left out); it is then a valid chunk of that configuration whose sample count is the sum of the inputs', whose timestamps are exactly those of the two inputs, and whose data map is the merge of the inputs' maps (every id of both, each with the payload of a map holding it) |
| HistoryMerge.MergeCopiesRows | meistercharts-history/meistercharts-history-core/src/jvmTest/kotlin/com/meistercharts/history/impl/HistoryChunkMergeReferenceEntriesTest.kt:137-139 | every merged row is, id for id, the source row carrying the same timestamp: ids are copied, not renumbered |
| HistoryMerge.MergeWithEmpty | meistercharts-history/meistercharts-history-core/src/jvmTest/kotlin/com/meistercharts/history/impl/HistoryChunkMergeReferenceEntriesTest.kt:45-53 | merging with an empty chunk of the same configuration, in either order, returns the chunk unchanged |
| HistoryMerge.MergeSymmetric | meistercharts-history/meistercharts-history-core/src/jvmTest/kotlin/com/meistercharts/history/impl/HistoryChunkMergeReferenceEntriesTest.kt:87-114 | `a.merge(b)` and `b.merge(a)` agree on presence, timestamps, id columns and data-map ids, and are identical when the two maps agree on shared ids |
| HistoryMerge.MergeConsecutive | meistercharts-history/meistercharts-history-core/src/jvmTest/kotlin/com/meistercharts/history/impl/HistoryChunkMergeReferenceEntriesTest.kt:77-82 | when every sample of the first chunk precedes every sample of the second, the merged timestamps and every id column are the first chunk's followed by the second's |
| HistoryMerge.MergeEntriesCount | meistercharts-history/meistercharts-history-core/src/jvmTest/kotlin/com/meistercharts/history/impl/HistoryChunkMergeReferenceEntriesTest.kt:141 | the merged columns use exactly the ids of both inputs, and the merged data map has one entry per distinct id among them |
| HistoryMergeFixtures.EarlyValid | meistercharts-history/meistercharts-history-core/src/jvmTest/kotlin/com/meistercharts/history/impl/HistoryChunkMergeReferenceEntriesTest.kt:38-43 | the 100.0..103.0 fixture chunk is valid and lies inside the window [0, 500] |
| HistoryMergeFixtures.LateValid | meistercharts-history/meistercharts-history-core/src/jvmTest/kotlin/com/meistercharts/history/impl/HistoryChunkMergeReferenceEntriesTest.kt:67-72 | the 105.0..108.0 fixture chunk is valid and lies inside the window |
| HistoryMergeFixtures.WovenValid | meistercharts-history/meistercharts-history-core/src/jvmTest/kotlin/com/meistercharts/history/impl/HistoryChunkMergeReferenceEntriesTest.kt:125-129 | the 100.5..102.5 fixture chunk is valid and lies inside the window |
| HistoryMergeFixtures.EarlyEntries | meistercharts-history/meistercharts-history-core/src/jvmTest/kotlin/com/meistercharts/history/impl/HistoryChunkMergeReferenceEntriesTest.kt:55 | the 100.0..103.0 chunk's data map has nine entries |
| HistoryMergeFixtures.EarlyLateIdCount | meistercharts-history/meistercharts-history-core/src/jvmTest/kotlin/com/meistercharts/history/impl/HistoryChunkMergeReferenceEntriesTest.kt:84 | the early and late chunks use eighteen distinct ids between them |
| HistoryMergeFixtures.EarlyWovenIdCount | meistercharts-history/meistercharts-history-core/src/jvmTest/kotlin/com/meistercharts/history/impl/HistoryChunkMergeReferenceEntriesTest.kt:141 | the early and interwoven chunks use sixteen distinct ids between them |
| HistoryMergeFixtures.TestWithEmpty | meistercharts-history/meistercharts-history-core/src/jvmTest/kotlin/com/meistercharts/history/impl/HistoryChunkMergeReferenceEntriesTest.kt:37-56 | merging the four-sample chunk with an empty one gives it back, with nine data-map entries |
| HistoryMergeFixtures.EarlyLateColumns | meistercharts-history/meistercharts-history-core/src/jvmTest/kotlin/com/meistercharts/history/impl/HistoryChunkMergeReferenceEntriesTest.kt:77-82 | the merge has the eight expected timestamps and the three expected id columns |
| HistoryMergeFixtures.EarlyLateEntries | meistercharts-history/meistercharts-history-core/src/jvmTest/kotlin/com/meistercharts/history/impl/HistoryChunkMergeReferenceEntriesTest.kt:84 | the merged data map has eighteen entries |
| HistoryMergeFixtures.EarlyLateSwapped | meistercharts-history/meistercharts-history-core/src/jvmTest/kotlin/com/meistercharts/history/impl/HistoryChunkMergeReferenceEntriesTest.kt:88-114 | `that before this` gives the same chunk as `this before that` |
| HistoryMergeFixtures.TestThisBeforeThat | meistercharts-history/meistercharts-history-core/src/jvmTest/kotlin/com/meistercharts/history/impl/HistoryChunkMergeReferenceEntriesTest.kt:59-114 | eight samples in order, ids copied verbatim, eighteen entries, in either order of the arguments |
| HistoryMergeFixtures.EarlyWovenTimeStamps | meistercharts-history/meistercharts-history-core/src/jvmTest/kotlin/com/meistercharts/history/impl/HistoryChunkMergeReferenceEntriesTest.kt:134-135 | the interwoven merge lists the seven timestamps in ascending order |
| HistoryMergeFixtures.EarlyWovenRows | meistercharts-history/meistercharts-history-core/src/jvmTest/kotlin/com/meistercharts/history/impl/HistoryChunkMergeReferenceEntriesTest.kt:137-139 | the merged rows alternate between the two chunks' rows, each copied whole |
| HistoryMergeFixtures.EarlyWovenColumns | meistercharts-history/meistercharts-history-core/src/jvmTest/kotlin/com/meistercharts/history/impl/HistoryChunkMergeReferenceEntriesTest.kt:137-139 | the three merged id columns are the expected ones |
| HistoryMergeFixtures.EarlyWovenEntries | meistercharts-history/meistercharts-history-core/src/jvmTest/kotlin/com/meistercharts/history/impl/HistoryChunkMergeReferenceEntriesTest.kt:141 | the merged data map has sixteen entries |
| HistoryMergeFixtures.EarlyWovenSwapped | meistercharts-history/meistercharts-history-core/src/jvmTest/kotlin/com/meistercharts/history/impl/HistoryChunkMergeReferenceEntriesTest.kt:145-170 | `that outside` gives the same chunk as `this outside` |
| HistoryMergeFixtures.TestInterwoven | meistercharts-history/meistercharts-history-core/src/jvmTest/kotlin/com/meistercharts/history/impl/HistoryChunkMergeReferenceEntriesTest.kt:116-170 | seven interleaved samples in order, each with its source ids, sixteen entries, in either order of the arguments |
| LayoutCache.MyLayoutVariable.constructor | meistercharts-canvas/src/jvmTest/kotlin/com/meistercharts/canvas/layout/cache/MappedLayoutCacheTest.kt:88-89 | a fresh layout variable is unset |
| LayoutCache.MyLayoutVariable.Reset | meistercharts-canvas/src/jvmTest/kotlin/com/meistercharts/canvas/layout/cache/MappedLayoutCacheTest.kt:91-93 | `reset()` makes the variable unset again |
| LayoutCache.MappedLayoutCache.constructor | meistercharts-canvas/src/jvmTest/kotlin/com/meistercharts/canvas/layout/cache/MappedLayoutCacheTest.kt:45-50 | a fresh cache holds no record, has seen no loop index and has made no factory call |
| LayoutCache.MappedLayoutCache.Get | meistercharts-canvas/src/jvmTest/kotlin/com/meistercharts/canvas/layout/cache/MappedLayoutCacheTest.kt:24-33 | an existing key returns its own record and changes nothing; a new key gets a fresh unset record, one more factory call, and no other key changes; the invariant (one distinct record per key, factory calls = records held + dropped) is kept |
| LayoutCache.MappedLayoutCache.ResetIfNewLoopIndex | meistercharts-canvas/src/jvmTest/kotlin/com/meistercharts/canvas/layout/cache/MappedLayoutCacheTest.kt:71-75 | on a new loop index every stored record becomes unset, in place, with no record created or replaced and no factory call; on the same loop index every record keeps its value |
| LayoutCache.MappedLayoutCache.Clear | meistercharts-canvas/src/jvmTest/kotlin/com/meistercharts/canvas/layout/cache/MappedLayoutCacheTest.kt:35-38 | `clear()` leaves no record, so the next access to any key makes a new one |
| LayoutCache.ApiScenario | meistercharts-canvas/src/jvmTest/kotlin/com/meistercharts/canvas/layout/cache/MappedLayoutCacheTest.kt:12-39 | the `testApi` sequence observes sizes 0, 1, 2, unset first reads, the written values read back, and unset values after `clear()` |
| LayoutCache.FirstPaint | meistercharts-canvas/src/jvmTest/kotlin/com/meistercharts/canvas/layout/cache/MappedLayoutCacheTest.kt:55-67 | the first paint makes two factory calls and paint reads what layout wrote |
| LayoutCache.SecondPaint | meistercharts-canvas/src/jvmTest/kotlin/com/meistercharts/canvas/layout/cache/MappedLayoutCacheTest.kt:70-84 | after a new loop index both records read unset, no factory call is made, and layout then paint read back the written values |
| LayoutCache.SimulatePaintSameIndices | meistercharts-canvas/src/jvmTest/kotlin/com/meistercharts/canvas/layout/cache/MappedLayoutCacheTest.kt:42-85 | the whole `testSimulatePaintSameIndices` sequence: factory calls 0, 2, 2, 2 and the values read in each pass |
| RenderLoop.RenderLoopListener.constructor | meistercharts-canvas/src/jvmTest/kotlin/com/meistercharts/canvas/animation/ChartAnimationTest.kt:42-44 | a new listener carries its finished-at verdict and is not disposed |
| RenderLoop.RenderLoopListener.Dispose | meistercharts-canvas/src/jvmTest/kotlin/com/meistercharts/canvas/animation/ChartAnimationTest.kt:78-85 | after `dispose()` the listener reports finished on every frame |
| RenderLoop.ChartSupport.constructor | meistercharts-canvas/src/jvmTest/kotlin/com/meistercharts/canvas/animation/ChartAnimationTest.kt:34-37 | a fresh chart support has no listener and nothing scheduled |
| RenderLoop.ChartSupport.OnRender | meistercharts-canvas/src/jvmTest/kotlin/com/meistercharts/canvas/animation/ChartAnimationTest.kt:70-72 | `onRender` appends the listener and leaves the removal schedule alone |
| RenderLoop.ChartSupport.Render | meistercharts-canvas/src/jvmTest/kotlin/com/meistercharts/canvas/animation/ChartAnimationTest.kt:51-59 | the new list is the old list without the listeners scheduled before this render; a listener is scheduled now if and only if it is still listed and reports finished on this frame |
| RenderLoop.WithoutMembers | meistercharts-canvas/src/jvmTest/kotlin/com/meistercharts/canvas/animation/ChartAnimationTest.kt:58-59 | a listener survives removeAll if and only if it was listed and not removed |
| RenderLoop.WithoutNothing | meistercharts-canvas/src/jvmTest/kotlin/com/meistercharts/canvas/animation/ChartAnimationTest.kt:74-76 | removing listeners none of which are listed leaves the list as it was |
| RenderLoop.WithoutConcat | meistercharts-canvas/src/jvmTest/kotlin/com/meistercharts/canvas/animation/ChartAnimationTest.kt:86-88 | removeAll distributes over concatenation |
| RenderLoop.RegisterThenRemove | meistercharts-canvas/src/jvmTest/kotlin/com/meistercharts/canvas/animation/ChartAnimationTest.kt:83-89 | registering a new listener and later removing exactly it restores the previous list |
| RenderLoop.FinishedScenario | meistercharts-canvas/src/jvmTest/kotlin/com/meistercharts/canvas/animation/ChartAnimationTest.kt:40-60 | the `testFinished` sequence: registered, still listed after frame 10000, scheduled yet listed after frame 20000, gone after frame 30000 with only the fixture's listener left |
| RenderLoop.DisposeScenario | meistercharts-canvas/src/jvmTest/kotlin/com/meistercharts/canvas/animation/ChartAnimationTest.kt:62-90 | the `testDispose` sequence: sizes 1, 2, 2, still 2 right after `dispose()`, scheduled on the next render, size 1 without the animation after the one after |

## Left out

- HistoryMerge.Merge: the condition under which `merge` returns `null` is an assumption of this model, not taken from the source: the tests only require a non-null result, and the model returns `None` exactly when the configurations differ (so two empty chunks of one configuration merge to an empty chunk).
- HistoryMerge.Merge: requires disjoint timestamps and every sample inside [start, end]. The rule for equal timestamps and for rows outside the window is not modelled, because no test fixes it.
- HistoryMerge.MergeEntries: for an id held by both maps, the contract says only that the payload comes from one of them. The body keeps the receiver's payload, but no test decides between the two.
- HistoryMerge.MergeSymmetric: states full equality of `a.merge(b)` and `b.merge(a)` only when the two data maps agree on shared ids. This is the case in every fixture, where payloads are generated from the id.
- HistoryChunks.HistoryChunkBuilder.AddReferenceEntryValues: refuses a sample with the wrong number of ids or a timestamp not after the last one, by returning false and changing nothing. The builder's own code is not part of this model, so the exact failure mode (exception or refusal) is not captured.
- HistoryMergeFixtures: the fixture chunks are written as chunk values. The builder calls that produce them are not replayed step by step.
- Decimal and enumeration data series, the "no entry" sentinel, per-series index spaces and fixed chunk capacity are not modelled. Only reference-entry series appear in the modelled tests.
- Reference-entry payloads are kept abstract (a type parameter). Only their presence per id is tracked.
- LayoutCache.MappedLayoutCache: the generic factory is fixed to the `MyLayoutVariable` constructor used by both tests. The NaN "unset" value is the datatype case `Unset`, and floating-point coordinates are `real`.
- LayoutCache.MappedLayoutCache.Clear: leaves the last seen loop index as it was. The test does not observe it.
- `GlobalCacheSupport` is not part of this model.
- RenderLoop.ChartSupport.Render: the frame delta, painting, layers and the canvas are left out. Only the listener bookkeeping is modelled.
- RenderLoop.FinishedScenario and RenderLoop.DisposeScenario: the listener the test fixture's chart setup registers is modelled as a listener that never finishes, registered first. The setup code that registers it is not part of this model.
- Tween interpolation (`testUsageWithProperty`) is left out. It is floating-point arithmetic through an easing function that is not part of this model.
- The remaining files of the repository are not part of this model:
  - the decimal value generator, which uses randomness, trigonometry and the wall clock;
  - chart gestalts and JavaScript API extensions;
  - colour tables, date and time-zone formatting, demos, layers, the compass;
  - build settings and constant providers.
