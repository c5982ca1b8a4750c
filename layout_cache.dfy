/** The generational layout cache `MappedLayoutCache`: a keyed store of mutable
    layout variables, created lazily on first access, reset in place when a new
    painting loop index is seen, and dropped by `clear()`. */
module LayoutCache {
  import opened Wrappers

  /** A layout coordinate; `Unset` stands for the NaN the layout variables use
      for "not computed yet". */
  datatype Coordinate = Unset | Set(value: real)

  /** The layout variable `MyLayoutVariable`: one x location, NaN when fresh. */
  class MyLayoutVariable {
    var xLocation: Coordinate

    constructor ()
      ensures xLocation == Unset
    {
      xLocation := Unset;
    }

    /** `reset()`: back to "unset". */
    method Reset()
      modifies this
      ensures xLocation == Unset
    {
      xLocation := Unset;
    }
  }

  /** The cache. Its factory is the `MyLayoutVariable` constructor; every call
      of the factory is counted in `factoryCalls`, as the closure of the test
      fixture counts them. */
  class MappedLayoutCache<K(==)> {
    var records: map<K, MyLayoutVariable>
    var lastLoopIndex: Option<int>
    var factoryCalls: nat
    /** Records created by the factory and later dropped by `clear()`. */
    ghost var dropped: nat

    /** Every key owns its own record, and the factory ran once for every
        record held now or dropped before. */
    ghost predicate Valid()
      reads this
    {
      && (forall k1, k2 :: k1 in records && k2 in records && k1 != k2 ==> records[k1] != records[k2])
      && factoryCalls == |records| + dropped
    }

    /** The size of `values`: one record per key. */
    function ValuesCount(): nat
      reads this
    {
      |records|
    }

    constructor ()
      ensures Valid()
      ensures records == map[] && lastLoopIndex == None && factoryCalls == 0
    {
      records := map[];
      lastLoopIndex := None;
      factoryCalls := 0;
      dropped := 0;
    }

    /** `get(key)`: the record of `key`, created by the factory on first
        access. An existing record is returned as it is and nothing changes. */
    method Get(key: K) returns (v: MyLayoutVariable)
      requires Valid()
      modifies this
      ensures Valid()
      ensures key in records && records[key] == v
      ensures lastLoopIndex == old(lastLoopIndex)
      ensures key in old(records) ==> records == old(records) && factoryCalls == old(factoryCalls)
      ensures key !in old(records) ==>
        && fresh(v) && v.xLocation == Unset
        && records == old(records)[key := v]
        && factoryCalls == old(factoryCalls) + 1
    {
      if key in records {
        v := records[key];
      } else {
        v := new MyLayoutVariable();
        records := records[key := v];
        factoryCalls := factoryCalls + 1;
      }
    }

    /** `resetIfNewLoopIndex(loopIndex)`: on a loop index other than the last
        one seen, every stored record is reset to "unset" in place; no record
        is created, dropped or replaced. On the same loop index nothing
        changes. */
    method ResetIfNewLoopIndex(loopIndex: int)
      requires Valid()
      modifies this, records.Values
      ensures Valid()
      ensures records == old(records) && factoryCalls == old(factoryCalls)
      ensures lastLoopIndex == Some(loopIndex)
      ensures old(lastLoopIndex) != Some(loopIndex) ==>
        forall k :: k in records ==> records[k].xLocation == Unset
      ensures old(lastLoopIndex) == Some(loopIndex) ==>
        forall k :: k in records ==> records[k].xLocation == old(records[k].xLocation)
    {
      if lastLoopIndex == Some(loopIndex) {
        return;
      }
      lastLoopIndex := Some(loopIndex);
      var pending := records.Keys;
      while pending != {}
        invariant pending <= records.Keys
        invariant records == old(records) && factoryCalls == old(factoryCalls) && dropped == old(dropped)
        invariant lastLoopIndex == Some(loopIndex)
        invariant forall k :: k in records.Keys - pending ==> records[k].xLocation == Unset
        decreases pending
      {
        var k :| k in pending;
        records[k].Reset();
        pending := pending - {k};
      }
    }

    /** `clear()`: drops every record, so the factory runs again on the next
        access to any key. */
    method Clear()
      requires Valid()
      modifies this
      ensures Valid()
      ensures records == map[]
      ensures factoryCalls == old(factoryCalls) && lastLoopIndex == old(lastLoopIndex)
    {
      dropped := dropped + |records|;
      records := map[];
    }
  }

  /** The `testApi` sequence: clear, first access to keys 7 and 8, writes
      through `get`, reads back, clear, access again. Returns what the
      sequence observes. */
  method ApiScenario() returns (sizeAfterClear: nat, first7: Coordinate, sizeAfter7: nat, first8: Coordinate,
                                sizeAfter8: nat, read7: Coordinate, read8: Coordinate,
                                cleared7: Coordinate, cleared8: Coordinate)
    ensures sizeAfterClear == 0
    ensures first7 == Unset && sizeAfter7 == 1 && first8 == Unset && sizeAfter8 == 2
    ensures read7 == Set(7.7) && read8 == Set(8.8)
    ensures cleared7 == Unset && cleared8 == Unset
  {
    var cache := new MappedLayoutCache<int>();
    cache.Clear();
    sizeAfterClear := cache.ValuesCount();

    var v := cache.Get(7);
    first7 := v.xLocation;
    sizeAfter7 := cache.ValuesCount();
    v := cache.Get(8);
    first8 := v.xLocation;
    sizeAfter8 := cache.ValuesCount();

    v := cache.Get(7);
    v.xLocation := Set(7.7);
    v := cache.Get(8);
    v.xLocation := Set(8.8);

    v := cache.Get(7);
    read7 := v.xLocation;
    v := cache.Get(8);
    read8 := v.xLocation;

    cache.Clear();
    v := cache.Get(7);
    cleared7 := v.xLocation;
    v := cache.Get(8);
    cleared8 := v.xLocation;
  }

  /** The first paint of `testSimulatePaintSameIndices` on a fresh cache:
      loop index 0, a layout pass writing keys 7 and 8, a paint pass reading
      them. */
  method FirstPaint(cache: MappedLayoutCache<int>) returns (callsAfterLayout: nat, paint7: Coordinate, paint8: Coordinate)
    requires cache.Valid() && cache.records == map[] && cache.lastLoopIndex == None && cache.factoryCalls == 0
    modifies cache
    ensures cache.Valid() && cache.records.Keys == {7, 8} && cache.lastLoopIndex == Some(0) && cache.factoryCalls == 2
    ensures forall k :: k in cache.records ==> fresh(cache.records[k])
    ensures callsAfterLayout == 2 && paint7 == Set(7.7) && paint8 == Set(8.8)
  {
    cache.ResetIfNewLoopIndex(0);
    var v := cache.Get(7);
    v.xLocation := Set(7.7);
    v := cache.Get(8);
    v.xLocation := Set(8.8);
    callsAfterLayout := cache.factoryCalls;
    v := cache.Get(7);
    paint7 := v.xLocation;
    v := cache.Get(8);
    paint8 := v.xLocation;
  }

  /** The second paint of `testSimulatePaintSameIndices`: loop index 1
      resets both records in place, then layout and paint run again without
      a factory call. */
  method SecondPaint(cache: MappedLayoutCache<int>) returns (reset7: Coordinate, reset8: Coordinate, callsAfterReset: nat,
                                                            callsAfterRelayout: nat, repaint7: Coordinate, repaint8: Coordinate)
    requires cache.Valid() && cache.records.Keys == {7, 8} && cache.lastLoopIndex == Some(0) && cache.factoryCalls == 2
    modifies cache, cache.records.Values
    ensures reset7 == Unset && reset8 == Unset && callsAfterReset == 2
    ensures callsAfterRelayout == 2 && repaint7 == Set(7.7) && repaint8 == Set(8.8)
  {
    cache.ResetIfNewLoopIndex(1);
    var v := cache.Get(7);
    reset7 := v.xLocation;
    v := cache.Get(8);
    reset8 := v.xLocation;
    callsAfterReset := cache.factoryCalls;
    v := cache.Get(7);
    v.xLocation := Set(7.7);
    v := cache.Get(8);
    v.xLocation := Set(8.8);
    callsAfterRelayout := cache.factoryCalls;
    v := cache.Get(7);
    repaint7 := v.xLocation;
    v := cache.Get(8);
    repaint8 := v.xLocation;
  }

  /** The `testSimulatePaintSameIndices` sequence: two paints, each a layout
      pass writing keys 7 and 8 and a paint pass reading them, with a new
      loop index before each. Returns the factory call counts and the values
      read. */
  method SimulatePaintSameIndices() returns (callsAtStart: nat, callsAfterLayout: nat, paint7: Coordinate, paint8: Coordinate,
                                             reset7: Coordinate, reset8: Coordinate, callsAfterReset: nat,
                                             callsAfterRelayout: nat, repaint7: Coordinate, repaint8: Coordinate)
    ensures callsAtStart == 0 && callsAfterLayout == 2
    ensures paint7 == Set(7.7) && paint8 == Set(8.8)
    ensures reset7 == Unset && reset8 == Unset && callsAfterReset == 2
    ensures callsAfterRelayout == 2 && repaint7 == Set(7.7) && repaint8 == Set(8.8)
  {
    var cache := new MappedLayoutCache<int>();
    callsAtStart := cache.factoryCalls;
    callsAfterLayout, paint7, paint8 := FirstPaint(cache);
    reset7, reset8, callsAfterReset, callsAfterRelayout, repaint7, repaint8 := SecondPaint(cache);
  }
}
