/** The per-object animation state of 3d_figures.js: the timestamp each
    object keeps, its model-view transform and the octahedron's bounce
    direction, with the update rule every object runs once per frame. */
module Scene {
  import opened Geometry

  /** Milliseconds for one full turn (the global `duration`). */
  const Duration: int := 5000

  /** The translation height beyond which the bouncing object turns back. */
  const BounceLimit: real := 3.1

  /** Vertical distance travelled per animation period while bouncing. */
  const BounceSpeed: real := 10.0

  /** A model-view matrix, kept as the history of the gl-matrix operations
      applied to the identity. A rotation records its angle in turns
      (angle = 2 * pi * turns); the matrix arithmetic itself is not modelled. */
  datatype Transform =
    | Identity
    | Translated(base: Transform, offset: Vec3)
    | Rotated(base: Transform, turns: real, axis: Vec3)

  /** Sum of the turns of every rotation in a transform's history. */
  function TotalTurns(t: Transform): real {
    match t
    case Identity => 0.0
    case Translated(base, _) => TotalTurns(base)
    case Rotated(base, turns, _) => TotalTurns(base) + turns
  }

  /** One rotation: by `turns` full turns about `axis`. */
  datatype Turn = Turn(turns: real, axis: Vec3)

  /** The rotations in a transform's history, oldest first. */
  function Rotations(t: Transform): seq<Turn> {
    match t
    case Identity => []
    case Translated(base, _) => Rotations(base)
    case Rotated(base, turns, axis) => Rotations(base) + [Turn(turns, axis)]
  }

  /** The update rule an object carries: the pyramid spins about one axis,
      the dodecahedron about two axes in turn, the octahedron spins about one
      axis and bounces vertically. */
  datatype Motion =
    | Spin(axis: Vec3)
    | SpinTwice(first: Vec3, second: Vec3)
    | SpinAndBounce(axis: Vec3)

  /** The axes one update rotates about, in the order of its rotate calls. */
  function AxesOf(motion: Motion): seq<Vec3> {
    match motion
    case Spin(axis) => [axis]
    case SpinTwice(first, second) => [first, second]
    case SpinAndBounce(axis) => [axis]
  }

  /** A rotation by f about each of `axes`, in order. */
  function TurnsAbout(f: real, axes: seq<Vec3>): seq<Turn> {
    if |axes| == 0 then [] else [Turn(f, axes[0])] + TurnsAbout(f, axes[1..])
  }

  /** The transform `t` with each turn of `turns` applied in order, as a run
      of `mat4.rotate` calls and nothing else. */
  function RotatedBy(t: Transform, turns: seq<Turn>): Transform
    decreases |turns|
  {
    if |turns| == 0 then t else RotatedBy(Rotated(t, turns[0].turns, turns[0].axis), turns[1..])
  }

  /** Applying a run of turns appends exactly those turns to the history. */
  lemma {:induction false} RotationsOfRotatedBy(t: Transform, turns: seq<Turn>)
    ensures Rotations(RotatedBy(t, turns)) == Rotations(t) + turns
    decreases |turns|
  {
    if |turns| > 0 {
      RotationsOfRotatedBy(Rotated(t, turns[0].turns, turns[0].axis), turns[1..]);
      assert [turns[0]] + turns[1..] == turns;
    }
  }

  /** The turns one update adds when each of its rotations turns by f:
      f once per axis of AxesOf(motion), written as a sum so that the time
      lemmas below stay linear. */
  function Turned(motion: Motion, f: real): real {
    if motion.SpinTwice? then f + f else f
  }

  /** That is f once per rotation axis. */
  lemma TurnedPerAxis(motion: Motion, f: real)
    ensures Turned(motion, f) == |AxesOf(motion)| as real * f
  {
  }

  /** The part of an object that updates change. `translationUp` is the
      octahedron's bounce direction; the other motions never touch it. */
  datatype State = State(currentTime: int, modelView: Transform, translationUp: bool)

  /** What one update call reads from outside the object: the clock
      (Date.now()) and element 13 of its model-view matrix, the vertical
      translation after the rotation, which only matrix arithmetic could
      compute. Only the bouncing motion looks at the height. */
  datatype Tick = Tick(now: int, height: real)

  /** The share of a full turn that `deltat` milliseconds stand for:
      `deltat` measured in animation periods. */
  function Fraction(deltat: int): (fract: real)
    ensures fract * Duration as real == deltat as real
  {
    deltat as real / Duration as real
  }

  /** Beyond the limit on either side. */
  predicate Extreme(height: real) {
    height > BounceLimit || height < -BounceLimit
  }

  /** The two threshold checks, in the order the update makes them: down
      above the limit, up below minus the limit, otherwise as before. */
  function BounceDirection(up: bool, height: real): (newUp: bool)
    ensures height > BounceLimit ==> !newUp
    ensures height < -BounceLimit ==> newUp
    ensures !Extreme(height) ==> newUp == up
  {
    var afterHighCheck := if height > BounceLimit then false else up;
    if height < -BounceLimit then true else afterHighCheck
  }

  /** The vertical translation one bounce step applies. */
  function BounceOffset(up: bool, fract: real): Vec3 {
    if up then Vec3(0.0, fract * BounceSpeed, 0.0) else Vec3(0.0, -fract * BounceSpeed, 0.0)
  }

  /** One update call as a function of the state before it. The new
      timestamp is the call's `now`; only the bouncing rule reads the height
      and changes the direction. */
  function Step(motion: Motion, s: State, tick: Tick): (r: State)
    ensures r.currentTime == tick.now
    ensures motion.SpinAndBounce? ==> r.translationUp == BounceDirection(s.translationUp, tick.height)
    ensures !motion.SpinAndBounce? ==> r.translationUp == s.translationUp
  {
    var fract := Fraction(tick.now - s.currentTime);
    match motion
    case Spin(axis) =>
      State(tick.now, Rotated(s.modelView, fract, axis), s.translationUp)
    case SpinTwice(first, second) =>
      State(tick.now, Rotated(Rotated(s.modelView, fract, first), fract, second), s.translationUp)
    case SpinAndBounce(axis) =>
      var up := BounceDirection(s.translationUp, tick.height);
      State(tick.now, Translated(Rotated(s.modelView, fract, axis), BounceOffset(up, fract)), up)
  }

  /** A run of update calls, one per tick, in order: no ticks leave the
      state alone, otherwise the timestamp is the last tick's `now`. */
  function Replay(motion: Motion, s: State, ticks: seq<Tick>): (r: State)
    ensures |ticks| == 0 ==> r == s
    ensures |ticks| > 0 ==> r.currentTime == ticks[|ticks| - 1].now
    decreases |ticks|
  {
    if |ticks| == 0 then s else Step(motion, Replay(motion, s, ticks[..|ticks| - 1]), ticks[|ticks| - 1])
  }

  /** Replaying one more tick is one more update. */
  lemma ReplayExtend(motion: Motion, s: State, ticks: seq<Tick>, tick: Tick)
    ensures Replay(motion, s, ticks + [tick]) == Step(motion, Replay(motion, s, ticks), tick)
  {
    assert (ticks + [tick])[..|ticks|] == ticks;
  }

  /** An update appends exactly one rotation per axis of its rule, in the
      order of the rotate calls, each by the time elapsed since the previous
      timestamp, measured in periods. */
  lemma StepRotations(motion: Motion, s: State, tick: Tick)
    ensures Rotations(Step(motion, s, tick).modelView)
         == Rotations(s.modelView) + TurnsAbout(Fraction(tick.now - s.currentTime), AxesOf(motion))
  {
    var f := Fraction(tick.now - s.currentTime);
    match motion
    case Spin(axis) =>
      assert TurnsAbout(f, [axis]) == [Turn(f, axis)];
    case SpinTwice(first, second) =>
      assert [first, second][1..] == [second];
      assert TurnsAbout(f, [second]) == [Turn(f, second)];
      assert TurnsAbout(f, [first, second]) == [Turn(f, first)] + TurnsAbout(f, [second]);
    case SpinAndBounce(axis) =>
      assert TurnsAbout(f, [axis]) == [Turn(f, axis)];
  }

  /** The spinning rules (pyramid, dodecahedron) only rotate: the new
      transform is the old one turned about each axis in order by the
      elapsed fraction, with no translation. */
  lemma SpinStep(motion: Motion, s: State, tick: Tick)
    requires !motion.SpinAndBounce?
    ensures Step(motion, s, tick).modelView
         == RotatedBy(s.modelView, TurnsAbout(Fraction(tick.now - s.currentTime), AxesOf(motion)))
  {
    var f := Fraction(tick.now - s.currentTime);
    match motion
    case Spin(axis) =>
      assert TurnsAbout(f, [axis]) == [Turn(f, axis)];
      assert [Turn(f, axis)][1..] == [];
      assert RotatedBy(s.modelView, [Turn(f, axis)]) == RotatedBy(Rotated(s.modelView, f, axis), []);
    case SpinTwice(first, second) =>
      var once := Rotated(s.modelView, f, first);
      assert [first, second][1..] == [second];
      assert TurnsAbout(f, [second]) == [Turn(f, second)];
      assert TurnsAbout(f, [first, second]) == [Turn(f, first), Turn(f, second)];
      assert [Turn(f, first), Turn(f, second)][1..] == [Turn(f, second)];
      assert [Turn(f, second)][1..] == [];
      assert RotatedBy(s.modelView, [Turn(f, first), Turn(f, second)]) == RotatedBy(once, [Turn(f, second)]);
      assert RotatedBy(once, [Turn(f, second)]) == RotatedBy(Rotated(once, f, second), []);
  }

  /** The turns an update adds sum to the elapsed fraction once per axis. */
  lemma StepTurns(motion: Motion, s: State, tick: Tick)
    ensures TotalTurns(Step(motion, s, tick).modelView)
         == TotalTurns(s.modelView) + Turned(motion, Fraction(tick.now - s.currentTime))
  {
  }

  /** One animation period of elapsed time is exactly one full turn per axis. */
  lemma FullPeriodIsOneTurn(motion: Motion, s: State, tick: Tick)
    requires tick.now - s.currentTime == Duration
    ensures TotalTurns(Step(motion, s, tick).modelView) == TotalTurns(s.modelView) + |AxesOf(motion)| as real
    ensures Rotations(Step(motion, s, tick).modelView) == Rotations(s.modelView) + TurnsAbout(1.0, AxesOf(motion))
  {
    StepTurns(motion, s, tick);
    StepRotations(motion, s, tick);
  }

  /** Elapsed fractions add up: from t0 to t1 and on to t2 is t0 to t2. */
  lemma FractionSplit(t0: int, t1: int, t2: int)
    ensures Fraction(t1 - t0) + Fraction(t2 - t1) == Fraction(t2 - t0)
  {
  }

  /** The rotations of any run of updates add up to the time between the
      first timestamp and the last `now`, however that time was split into
      frames: no elapsed time is lost or counted twice. */
  lemma {:induction false} ReplayElapsed(motion: Motion, s: State, ticks: seq<Tick>)
    requires |ticks| > 0
    ensures Replay(motion, s, ticks).currentTime == ticks[|ticks| - 1].now
    ensures TotalTurns(Replay(motion, s, ticks).modelView)
         == TotalTurns(s.modelView) + Turned(motion, Fraction(ticks[|ticks| - 1].now - s.currentTime))
    decreases |ticks|
  {
    var init := ticks[..|ticks| - 1];
    var before := Replay(motion, s, init);
    var last := ticks[|ticks| - 1];
    StepTurns(motion, before, last);
    if |init| > 0 {
      ReplayElapsed(motion, s, init);
      FractionSplit(s.currentTime, init[|init| - 1].now, last.now);
    }
  }

  /** The two checks never both fire, and together they set the direction to
      down above the limit, to up below minus the limit, and leave it
      otherwise. */
  lemma BounceDirectionRule(up: bool, height: real)
    ensures !(height > BounceLimit && height < -BounceLimit)
    ensures BounceDirection(up, height)
         == if height > BounceLimit then false else if height < -BounceLimit then true else up
  {
  }

  /** A bouncing update first rotates, then translates along y only, by
      fract * 10 upwards exactly when the new direction is up; when time has
      moved forward the step goes up if and only if the direction is up. */
  lemma BounceStep(axis: Vec3, s: State, tick: Tick)
    ensures var r := Step(SpinAndBounce(axis), s, tick);
      var fract := Fraction(tick.now - s.currentTime);
      && r.translationUp == BounceDirection(s.translationUp, tick.height)
      && r.modelView.Translated?
      && r.modelView.base == Rotated(s.modelView, fract, axis)
      && r.modelView.offset.x == 0.0 && r.modelView.offset.z == 0.0
      && r.modelView.offset.y == (if r.translationUp then fract * BounceSpeed else -(fract * BounceSpeed))
      && (tick.now > s.currentTime ==> (r.modelView.offset.y > 0.0 <==> r.translationUp))
  {
  }

  /** Only the bouncing motion reads the height or changes the direction. */
  lemma SpinIgnoresHeight(motion: Motion, s: State, now: int, h1: real, h2: real)
    requires !motion.SpinAndBounce?
    ensures Step(motion, s, Tick(now, h1)) == Step(motion, s, Tick(now, h2))
    ensures Step(motion, s, Tick(now, h1)).translationUp == s.translationUp
  {
  }

  /** The direction survives any run of bouncing updates that never sees a
      height beyond the limit. */
  lemma {:induction false} DirectionPersists(axis: Vec3, s: State, ticks: seq<Tick>)
    requires forall k :: 0 <= k < |ticks| ==> !Extreme(ticks[k].height)
    ensures Replay(SpinAndBounce(axis), s, ticks).translationUp == s.translationUp
    decreases |ticks|
  {
    if |ticks| > 0 {
      var init := ticks[..|ticks| - 1];
      assert !Extreme(ticks[|ticks| - 1].height);
      DirectionPersists(axis, s, init);
    }
  }

  /** After a run of bouncing updates the direction is the one chosen by the
      last height beyond the limit: up if it was below, down if above. */
  lemma {:induction false} DirectionFollowsLastExtreme(axis: Vec3, s: State, ticks: seq<Tick>, k: nat)
    requires k < |ticks| && Extreme(ticks[k].height)
    requires forall j :: k < j < |ticks| ==> !Extreme(ticks[j].height)
    ensures Replay(SpinAndBounce(axis), s, ticks).translationUp == (ticks[k].height < -BounceLimit)
    decreases |ticks|
  {
    var init := ticks[..|ticks| - 1];
    if k < |ticks| - 1 {
      assert init[k] == ticks[k];
      assert !Extreme(ticks[|ticks| - 1].height);
      DirectionFollowsLastExtreme(axis, s, init, k);
    }
  }

  /** One drawable solid: geometry fixed at creation, and the state its
      update rule changes in place. */
  class SceneObject {
    const mesh: Mesh
    const motion: Motion
    var modelView: Transform
    var currentTime: int
    var translationUp: bool

    /** The object's mutable fields as one value. */
    function Current(): State
      reads this
    {
      State(currentTime, modelView, translationUp)
    }

    /** The object's start: the identity translated to its place, the
        creation time as its timestamp, and the direction up. */
    constructor (mesh: Mesh, motion: Motion, translation: Vec3, now: int)
      ensures this.mesh == mesh && this.motion == motion
      ensures Current() == State(now, Translated(Identity, translation), true)
    {
      this.mesh := mesh;
      this.motion := motion;
      modelView := Translated(Identity, translation);
      currentTime := now;
      translationUp := true;
    }

    /** The object's update closure, called with the clock reading `now`
        and the matrix element 13 it would read. */
    method Update(now: int, height: real)
      modifies this
      ensures Current() == Step(motion, old(Current()), Tick(now, height))
      ensures currentTime == now
      ensures motion.SpinAndBounce? ==>
        translationUp == if height > BounceLimit then false
                         else if height < -BounceLimit then true
                         else old(translationUp)
      ensures !motion.SpinAndBounce? ==> translationUp == old(translationUp)
    {
      var deltat := now - currentTime;
      currentTime := now;
      var fract := Fraction(deltat);
      match motion {
        case Spin(axis) =>
          modelView := Rotated(modelView, fract, axis);
        case SpinTwice(first, second) =>
          modelView := Rotated(modelView, fract, first);
          modelView := Rotated(modelView, fract, second);
        case SpinAndBounce(axis) =>
          modelView := Rotated(modelView, fract, axis);
          if height > BounceLimit {
            translationUp := false;
          }
          if height < -BounceLimit {
            translationUp := true;
          }
          if translationUp {
            modelView := Translated(modelView, Vec3(0.0, fract * BounceSpeed, 0.0));
          } else {
            modelView := Translated(modelView, Vec3(0.0, -fract * BounceSpeed, 0.0));
          }
      }
    }
  }
}
