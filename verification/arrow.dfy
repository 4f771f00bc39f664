/** The `Arrow` entity class (`shooting/components/arrow.js`): a projectile with its own
    velocity and an active flag, which moves only while active, turns to face along its
    velocity when that velocity is long enough, and is switched off for good by
    `dispose`. */
module ArrowEntity {
  import opened Vectors

  /** Where the arrow points: still in the fixed pose the constructor gives it, or turned
      by `lookAt` to face along a direction. */
  datatype Facing = Initial | Toward(direction: Vec3)

  datatype Arrow = Arrow(position: Vec3, velocity: Vec3, isActive: bool, facing: Facing)

  /** Arrows move `velocity * delta * 20` per update. The `Arrow` class writes this 20 on
      its own, apart from the frame loop's 20 in `main.js`, so `Volley.FlightScale` is a
      separate constant that merely has the same value. */
  const FlightScale: real := 20.0
  /** `velocity.lengthSq() > 0.01` guards the turn. */
  const TurnLenSq: real := 0.01

  /** The constructor: takes no arguments and builds an active arrow at rest at the
      origin, in its initial pose; the caller moves it into place afterwards. */
  function New(): (a: Arrow)
    ensures a.isActive && a.velocity == Zero && a.facing == Initial
    ensures a.position == Zero
  {
    Arrow(Zero, Zero, true, Initial)
  }

  predicate Turns(a: Arrow) {
    a.isActive && LenSq(a.velocity) > TurnLenSq
  }

  /** `update(delta)`: an inactive arrow is left exactly as it is; an active one moves by
      `velocity * delta * 20`, keeps its velocity and stays active, and turns to face
      along its velocity exactly when the squared speed exceeds 0.01. */
  function Update(a: Arrow, delta: real): (r: Arrow)
    ensures !a.isActive ==> r == a
    ensures a.isActive ==> r.isActive && r.velocity == a.velocity
    ensures a.isActive ==> r.position == Add(a.position, Scale(a.velocity, delta * FlightScale))
    ensures Turns(a) ==> r.facing == Toward(a.velocity)
    ensures !Turns(a) ==> r.facing == a.facing
  {
    if !a.isActive then a
    else
      var moved := a.(position := Add(a.position, Scale(a.velocity, delta * FlightScale)));
      if LenSq(a.velocity) > TurnLenSq then moved.(facing := Toward(a.velocity)) else moved
  }

  /** `dispose()`: the render resources are released (not modelled) and the arrow is
      switched off; position, velocity and facing are kept. */
  function Dispose(a: Arrow): (r: Arrow)
    ensures !r.isActive
    ensures r.position == a.position && r.velocity == a.velocity && r.facing == a.facing
  {
    a.(isActive := false)
  }

  lemma DisposeIdempotent(a: Arrow)
    ensures Dispose(Dispose(a)) == Dispose(a)
  {
  }

  /** A run of updates, one step size per frame. */
  function Updates(a: Arrow, deltas: seq<real>): Arrow
    decreases |deltas|
  {
    if deltas == [] then a else Updates(Update(a, deltas[0]), deltas[1..])
  }

  /** After `dispose`, no sequence of updates changes anything. */
  lemma {:induction false} DisposedArrowIsInert(a: Arrow, deltas: seq<real>)
    ensures Updates(Dispose(a), deltas) == Dispose(a)
    decreases |deltas|
  {
    if deltas != [] {
      DisposedArrowIsInert(a, deltas[1..]);
    }
  }

  /** While an arrow stays active its velocity never changes, so it flies in a straight
      line: after any run of updates it has moved `velocity * 20` times the total time. */
  lemma {:induction false} ActiveArrowFliesStraight(a: Arrow, deltas: seq<real>)
    requires a.isActive
    ensures Updates(a, deltas).isActive && Updates(a, deltas).velocity == a.velocity
    ensures Updates(a, deltas).position == Add(a.position, Scale(a.velocity, Total(deltas) * FlightScale))
    decreases |deltas|
  {
    if deltas == [] {
      assert Scale(a.velocity, 0.0 * FlightScale) == Zero;
    } else {
      var next := Update(a, deltas[0]);
      ActiveArrowFliesStraight(next, deltas[1..]);
      var t := Total(deltas[1..]);
      ScaleDistributesOverSum(a.velocity, deltas[0] * FlightScale, t * FlightScale);
      assert deltas[0] * FlightScale + t * FlightScale == Total(deltas) * FlightScale;
    }
  }

  function Total(deltas: seq<real>): real
    decreases |deltas|
  {
    if deltas == [] then 0.0 else deltas[0] + Total(deltas[1..])
  }

  lemma ScaleDistributesOverSum(v: Vec3, s: real, t: real)
    ensures Add(Scale(v, s), Scale(v, t)) == Scale(v, s + t)
  {
    assert v.x * s + v.x * t == v.x * (s + t);
    assert v.y * s + v.y * t == v.y * (s + t);
    assert v.z * s + v.z * t == v.z * (s + t);
  }
}
