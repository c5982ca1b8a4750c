/** The render-loop listener bookkeeping of `ChartSupport`: listeners are
    appended by `onRender`; a listener that reports "finished" during a render
    is only scheduled in `renderLoopListenersToRemove`, and leaves
    `renderLoopListeners` at the start of the following render. */
module RenderLoop {

  /** A render-loop listener. `finishedAt` is its verdict for a frame
      timestamp (for a `ChartAnimation`, the `AnimationState.finishedIf(...)`
      its animation function returns); after `dispose()` it reports finished
      on every frame. */
  class RenderLoopListener {
    const finishedAt: real -> bool
    var disposed: bool

    constructor (finishedAt: real -> bool)
      ensures this.finishedAt == finishedAt && !disposed
    {
      this.finishedAt := finishedAt;
      disposed := false;
    }

    predicate ReportsFinished(frameTimestamp: real)
      reads this
    {
      disposed || finishedAt(frameTimestamp)
    }

    /** `dispose()`: only marks the listener; the chart support drops it on
        later renders. */
    method Dispose()
      modifies this
      ensures disposed
      ensures forall t :: ReportsFinished(t)
    {
      disposed := true;
    }
  }

  /** `listeners.removeAll(gone)`: every occurrence of a listener in `gone`
      is dropped, the others keep their order. */
  function Without<T(==)>(listeners: seq<T>, gone: set<T>): seq<T>
  {
    if listeners == [] then []
    else if listeners[0] in gone then Without(listeners[1..], gone)
    else [listeners[0]] + Without(listeners[1..], gone)
  }

  /** An element survives removeAll exactly when it was there and is not
      removed. */
  lemma {:induction false} WithoutMembers<T>(listeners: seq<T>, gone: set<T>, x: T)
    ensures x in Without(listeners, gone) <==> x in listeners && x !in gone
  {
    if listeners != [] {
      WithoutMembers(listeners[1..], gone, x);
      assert listeners == [listeners[0]] + listeners[1..];
    }
  }

  /** Removing nothing that is present leaves the list as it was. */
  lemma {:induction false} WithoutNothing<T>(listeners: seq<T>, gone: set<T>)
    requires forall i :: 0 <= i < |listeners| ==> listeners[i] !in gone
    ensures Without(listeners, gone) == listeners
  {
    if listeners != [] {
      WithoutNothing(listeners[1..], gone);
      assert listeners == [listeners[0]] + listeners[1..];
    }
  }

  /** removeAll distributes over concatenation. */
  lemma {:induction false} WithoutConcat<T>(xs: seq<T>, ys: seq<T>, gone: set<T>)
    ensures Without(xs + ys, gone) == Without(xs, gone) + Without(ys, gone)
  {
    if xs != [] {
      WithoutConcat(xs[1..], ys, gone);
      assert (xs + ys)[0] == xs[0];
      assert (xs + ys)[1..] == xs[1..] + ys;
      if xs[0] !in gone {
        assert Without(xs + ys, gone) == [xs[0]] + Without(xs[1..] + ys, gone);
        assert Without(xs, gone) == [xs[0]] + Without(xs[1..], gone);
        assert [xs[0]] + (Without(xs[1..], gone) + Without(ys, gone))
            == ([xs[0]] + Without(xs[1..], gone)) + Without(ys, gone);
      }
    } else {
      assert xs + ys == ys;
    }
  }

  /** Registering a listener and later removing exactly it restores the list
      it was appended to, when it was not there before. */
  lemma {:induction false} RegisterThenRemove<T>(listeners: seq<T>, x: T)
    requires x !in listeners
    ensures Without(listeners + [x], {x}) == listeners
  {
    WithoutConcat(listeners, [x], {x});
    WithoutNothing(listeners, {x});
    assert Without([x], {x}) == Without([], {x});
  }

  /** The listener bookkeeping of `ChartSupport`. */
  class ChartSupport {
    var renderLoopListeners: seq<RenderLoopListener>
    var renderLoopListenersToRemove: set<RenderLoopListener>

    constructor ()
      ensures renderLoopListeners == [] && renderLoopListenersToRemove == {}
    {
      renderLoopListeners := [];
      renderLoopListenersToRemove := {};
    }

    /** `onRender(listener)`: appends the listener. */
    method OnRender(listener: RenderLoopListener)
      modifies this
      ensures renderLoopListeners == old(renderLoopListeners) + [listener]
      ensures renderLoopListenersToRemove == old(renderLoopListenersToRemove)
    {
      renderLoopListeners := renderLoopListeners + [listener];
    }

    /** `render(frameTimestamp, ...)`: first the listeners scheduled on the
        previous render leave the list; then every remaining listener renders
        and those that report finished are scheduled for removal (they stay
        in the list until the next render). */
    method Render(frameTimestamp: real)
      modifies this
      ensures renderLoopListeners == Without(old(renderLoopListeners), old(renderLoopListenersToRemove))
      ensures forall l :: l in renderLoopListenersToRemove <==>
        l in renderLoopListeners && l.ReportsFinished(frameTimestamp)
    {
      renderLoopListeners := Without(renderLoopListeners, renderLoopListenersToRemove);
      renderLoopListenersToRemove := {};
      var i := 0;
      while i < |renderLoopListeners|
        invariant 0 <= i <= |renderLoopListeners|
        invariant renderLoopListeners == Without(old(renderLoopListeners), old(renderLoopListenersToRemove))
        invariant forall l :: l in renderLoopListenersToRemove <==>
          exists j :: 0 <= j < i && renderLoopListeners[j] == l && l.ReportsFinished(frameTimestamp)
      {
        var listener := renderLoopListeners[i];
        if listener.ReportsFinished(frameTimestamp) {
          renderLoopListenersToRemove := renderLoopListenersToRemove + {listener};
        }
        i := i + 1;
      }
    }
  }

  /** The `testFinished` sequence, with the listener that the test fixture
      registers while setting up the chart (it never finishes) and an
      animation finished after frame 10000. Returns what it observes. */
  method FinishedScenario() returns (registered: bool, afterFirst: bool, scheduled: bool, stillListed: bool, afterThird: bool,
                                     remaining: seq<RenderLoopListener>, fixtureListener: RenderLoopListener)
    ensures registered && afterFirst && scheduled && stillListed && !afterThird
    ensures remaining == [fixtureListener]
  {
    var chartSupport := new ChartSupport();
    fixtureListener := new RenderLoopListener(_ => false);
    chartSupport.OnRender(fixtureListener);
    var animation := new RenderLoopListener(t => t > 10000.0);

    chartSupport.OnRender(animation);
    registered := animation in chartSupport.renderLoopListeners;

    var both := [fixtureListener, animation];
    WithoutNothing(both, {});
    chartSupport.Render(10000.0);
    afterFirst := animation in chartSupport.renderLoopListeners;
    assert chartSupport.renderLoopListenersToRemove == {};

    chartSupport.Render(20000.0);
    scheduled := animation in chartSupport.renderLoopListenersToRemove;
    stillListed := animation in chartSupport.renderLoopListeners;
    assert chartSupport.renderLoopListenersToRemove == {animation};

    RegisterThenRemove([fixtureListener], animation);
    chartSupport.Render(30000.0);
    afterThird := animation in chartSupport.renderLoopListeners;
    remaining := chartSupport.renderLoopListeners;
  }

  /** The `testDispose` sequence: disposing does not remove the animation
      right away; two renders later the list holds only the fixture's
      listener again. */
  method DisposeScenario() returns (sizeBefore: nat, sizeRegistered: nat, sizeAfterRender: nat, sizeAfterDispose: nat,
                                    listedAfterDispose: bool, scheduled: bool, sizeAtEnd: nat, listedAtEnd: bool)
    ensures sizeBefore == 1 && sizeRegistered == 2 && sizeAfterRender == 2
    ensures sizeAfterDispose == 2 && listedAfterDispose && scheduled
    ensures sizeAtEnd == 1 && !listedAtEnd
  {
    var chartSupport := new ChartSupport();
    var fixtureListener := new RenderLoopListener(_ => false);
    chartSupport.OnRender(fixtureListener);
    var animation := new RenderLoopListener(t => t > 10000.0);
    sizeBefore := |chartSupport.renderLoopListeners|;

    chartSupport.OnRender(animation);
    sizeRegistered := |chartSupport.renderLoopListeners|;

    var both := [fixtureListener, animation];
    WithoutNothing(both, {});
    chartSupport.Render(10000.0);
    sizeAfterRender := |chartSupport.renderLoopListeners|;
    assert chartSupport.renderLoopListenersToRemove == {};

    animation.Dispose();
    sizeAfterDispose := |chartSupport.renderLoopListeners|;
    listedAfterDispose := animation in chartSupport.renderLoopListeners;

    chartSupport.Render(20000.0);
    scheduled := animation in chartSupport.renderLoopListenersToRemove;
    assert chartSupport.renderLoopListenersToRemove == {animation};

    RegisterThenRemove([fixtureListener], animation);
    chartSupport.Render(30000.0);
    sizeAtEnd := |chartSupport.renderLoopListeners|;
    listedAtEnd := animation in chartSupport.renderLoopListeners;
  }
}
