/** One animation frame of 3d_figures.js: `draw` issues one draw call per
    object in list order, then `run` calls every object's update once, in
    list order. The frame is recorded as a trace of events. */
module Frame {
  import opened Scene

  /** What happens to object `index` during a frame: it is drawn with its
      current model-view transform, strides and index count, or it is
      updated. */
  datatype Event =
    | Drawn(index: nat, view: Transform, vertSize: nat, colorSize: nat, count: int)
    | Updated(index: nat)

  /** The update calls of a frame over n objects, in list order. */
  function UpdatePhase(n: nat): seq<Event> {
    if n == 0 then [] else UpdatePhase(n - 1) + [Updated(n - 1)]
  }

  /** Update event i is the update of object i. */
  lemma {:induction false} UpdatePhaseLayout(n: nat)
    ensures |UpdatePhase(n)| == n
    ensures forall i :: 0 <= i < n ==> UpdatePhase(n)[i] == Updated(i)
  {
    if n > 0 {
      UpdatePhaseLayout(n - 1);
    }
  }

  /** The shape of a frame over n objects: n draw events for objects
      0 .. n-1 in order, then n update events for objects 0 .. n-1 in order. */
  predicate DrawsThenUpdates(events: seq<Event>, n: nat) {
    && |events| == 2 * n
    && (forall k :: 0 <= k < n ==> events[k].Drawn? && events[k].index == k)
    && (forall k :: n <= k < 2 * n ==> events[k] == Updated(k - n))
  }

  /** In such a frame every draw comes before every update, and each object
      is updated exactly once: Updated(i) occurs at position n + i and
      nowhere else. */
  lemma FrameOrdering(events: seq<Event>, n: nat)
    requires DrawsThenUpdates(events, n)
    ensures forall j, k :: 0 <= j < |events| && 0 <= k < |events| && events[j].Drawn? && events[k].Updated? ==> j < k
    ensures forall i, k :: 0 <= i < n && 0 <= k < |events| ==> (events[k] == Updated(i) <==> k == n + i)
  {
    forall i, k | 0 <= i < n && 0 <= k < |events|
      ensures events[k] == Updated(i) <==> k == n + i
    {
      if k >= n {
        assert events[k] == Updated(k - n);
      }
    }
  }

  /** A draw phase over n objects followed by the update phase makes a
      frame of that shape, and the two phases can be read back from it. */
  lemma FrameOfPhases(drawn: seq<Event>, updated: seq<Event>, n: nat)
    requires |drawn| == n
    requires forall k :: 0 <= k < n ==> drawn[k].Drawn? && drawn[k].index == k
    requires updated == UpdatePhase(n)
    ensures DrawsThenUpdates(drawn + updated, n)
    ensures (drawn + updated)[..n] == drawn
    ensures (drawn + updated)[n..] == updated
  {
    UpdatePhaseLayout(n);
    var events := drawn + updated;
    assert events[n..] == updated;
    forall k | n <= k < 2 * n
      ensures events[k] == Updated(k - n)
    {
      assert events[k] == updated[k - n];
    }
  }

  /** draw: one draw event per object, in list order, carrying the object's
      transform, strides and index count as they are at the call. */
  method Draw(objs: seq<SceneObject>) returns (events: seq<Event>)
    ensures |events| == |objs|
    ensures forall k :: 0 <= k < |objs| ==>
      events[k] == Drawn(k, objs[k].modelView, objs[k].mesh.vertSize, objs[k].mesh.colorSize, objs[k].mesh.nIndices)
  {
    events := [];
    for i := 0 to |objs|
      invariant |events| == i
      invariant forall k :: 0 <= k < i ==>
        events[k] == Drawn(k, objs[k].modelView, objs[k].mesh.vertSize, objs[k].mesh.colorSize, objs[k].mesh.nIndices)
    {
      var obj := objs[i];
      events := events + [Drawn(i, obj.modelView, obj.mesh.vertSize, obj.mesh.colorSize, obj.mesh.nIndices)];
    }
  }

  /** The ticks object `o` receives in an update phase over `objs`: the
      ticks at the positions where `o` occurs, in list order. */
  function TicksFor(objs: seq<SceneObject>, ticks: seq<Tick>, o: SceneObject): (mine: seq<Tick>)
    requires |ticks| == |objs|
    ensures |mine| <= |objs|
    ensures o !in objs ==> mine == []
    decreases |objs|
  {
    if |objs| == 0 then []
    else
      var n := |objs| - 1;
      TicksFor(objs[..n], ticks[..n], o) + (if objs[n] == o then [ticks[n]] else [])
  }

  /** An object receives one tick per occurrence in the list: an object
      listed twice is updated twice in the frame. */
  lemma {:induction false} TicksForCount(objs: seq<SceneObject>, ticks: seq<Tick>, o: SceneObject)
    requires |ticks| == |objs|
    ensures |TicksFor(objs, ticks, o)| == multiset(objs)[o]
    decreases |objs|
  {
    if |objs| > 0 {
      var n := |objs| - 1;
      assert objs == objs[..n] + [objs[n]];
      TicksForCount(objs[..n], ticks[..n], o);
    }
  }

  /** Extending the update phase by position i adds that position's tick to
      the object found there and nothing to any other object. */
  lemma TicksForExtend(objs: seq<SceneObject>, ticks: seq<Tick>, i: nat, o: SceneObject)
    requires |ticks| == |objs| && i < |objs|
    ensures TicksFor(objs[..i + 1], ticks[..i + 1], o)
      == TicksFor(objs[..i], ticks[..i], o) + (if objs[i] == o then [ticks[i]] else [])
  {
    assert objs[..i + 1][..i] == objs[..i];
    assert ticks[..i + 1][..i] == ticks[..i];
  }

  /** In a list without repetitions, each object receives exactly the tick at
      its own position. */
  lemma {:induction false} TicksForDistinct(objs: seq<SceneObject>, ticks: seq<Tick>, k: nat)
    requires |ticks| == |objs| && k < |objs|
    requires forall i, j :: 0 <= i < j < |objs| ==> objs[i] != objs[j]
    ensures TicksFor(objs, ticks, objs[k]) == [ticks[k]]
    decreases |objs|
  {
    var n := |objs| - 1;
    if k == n {
      assert objs[k] !in objs[..n];
    } else {
      assert objs[..n][k] == objs[k];
      TicksForDistinct(objs[..n], ticks[..n], k);
    }
  }

  /** The update loop of run: object k is updated with the clock and height
      of ticks[k], in list order. Each object ends in the state its update
      rule gives after replaying the ticks it received, in order; when no
      object occurs twice that is one update with its own tick. */
  method UpdateAll(objs: seq<SceneObject>, ticks: seq<Tick>) returns (events: seq<Event>)
    requires |ticks| == |objs|
    modifies objs
    ensures events == UpdatePhase(|objs|)
    ensures forall k :: 0 <= k < |objs| ==>
      objs[k].Current() == Replay(objs[k].motion, old(objs[k].Current()), TicksFor(objs, ticks, objs[k]))
    ensures (forall i, j :: 0 <= i < j < |objs| ==> objs[i] != objs[j]) ==>
      forall k :: 0 <= k < |objs| ==>
        objs[k].Current() == Step(objs[k].motion, old(objs[k].Current()), ticks[k])
  {
    events := [];
    var i := 0;
    while i < |objs|
      invariant 0 <= i <= |objs|
      invariant events == UpdatePhase(i)
      invariant forall k :: 0 <= k < |objs| ==>
        objs[k].Current() == Replay(objs[k].motion, old(objs[k].Current()), TicksFor(objs[..i], ticks[..i], objs[k]))
    {
      label BeforeUpdate:
      objs[i].Update(ticks[i].now, ticks[i].height);
      forall k | 0 <= k < |objs|
        ensures objs[k].Current() == Replay(objs[k].motion, old(objs[k].Current()), TicksFor(objs[..i + 1], ticks[..i + 1], objs[k]))
      {
        var o := objs[k];
        var received := TicksFor(objs[..i], ticks[..i], o);
        assert old@BeforeUpdate(o.Current()) == Replay(o.motion, old(o.Current()), received);
        TicksForExtend(objs, ticks, i, o);
        if o == objs[i] {
          assert TicksFor(objs[..i + 1], ticks[..i + 1], o) == received + [ticks[i]];
          assert o.Current() == Step(o.motion, old@BeforeUpdate(o.Current()), ticks[i]);
          ReplayExtend(o.motion, old(o.Current()), received, ticks[i]);
        } else {
          assert TicksFor(objs[..i + 1], ticks[..i + 1], o) == received + [];
          assert received + [] == received;
          assert o.Current() == old@BeforeUpdate(o.Current());
        }
      }
      events := events + [Updated(i)];
      i := i + 1;
    }
    assert objs[..i] == objs && ticks[..i] == ticks;
    if forall i, j :: 0 <= i < j < |objs| ==> objs[i] != objs[j] {
      forall k | 0 <= k < |objs|
        ensures objs[k].Current() == Step(objs[k].motion, old(objs[k].Current()), ticks[k])
      {
        TicksForDistinct(objs, ticks, k);
        assert [ticks[k]][..0] == [];
      }
    }
  }

  /** One step of run: draw every object, then update every object once in
      list order, object k reading the clock and height of ticks[k]. The
      draws show the transforms from before the frame; afterwards each
      object is in the state its update rule gives for the ticks it
      received, which is one update when no object occurs twice. */
  method RunFrame(objs: seq<SceneObject>, ticks: seq<Tick>) returns (events: seq<Event>)
    requires |ticks| == |objs|
    modifies objs
    ensures DrawsThenUpdates(events, |objs|)
    ensures forall k :: 0 <= k < |objs| ==>
      events[k] == Drawn(k, old(objs[k].modelView), objs[k].mesh.vertSize, objs[k].mesh.colorSize, objs[k].mesh.nIndices)
    ensures events[|objs|..] == UpdatePhase(|objs|)
    ensures forall k :: 0 <= k < |objs| ==>
      objs[k].Current() == Replay(objs[k].motion, old(objs[k].Current()), TicksFor(objs, ticks, objs[k]))
    ensures (forall i, j :: 0 <= i < j < |objs| ==> objs[i] != objs[j]) ==>
      forall k :: 0 <= k < |objs| ==>
        objs[k].Current() == Step(objs[k].motion, old(objs[k].Current()), ticks[k])
  {
    var drawn := Draw(objs);
    var updated := UpdateAll(objs, ticks);
    events := drawn + updated;
    FrameOfPhases(drawn, updated, |objs|);
  }
}
