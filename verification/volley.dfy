/** The arrows of the shooting range (`shooting/main.js`): a list of plain meshes, each
    carrying its own velocity, spawned at the camera on a click while the pointer is
    locked, moved every frame, and removed once farther than 100 units from the camera. */
module Volley {
  import opened Vectors
  import opened Locomotion
  import opened Controls

  /** An arrow mesh: its position and the velocity kept in its user data. */
  datatype Shot = Shot(position: Vec3, velocity: Vec3)

  /** `direction.clone().multiplyScalar(1)`. */
  const ShotSpeed: real := 1.0
  /** Arrows move `velocity * delta * 20` per frame. */
  const FlightScale: real := 20.0
  /** `distanceTo(camera) > 100`, compared as squares. */
  const RetireDistSq: real := 10000.0

  /** `shootArrow`: one new arrow appended at the camera position, flying along the
      camera's view direction; the arrows already in flight are untouched. */
  function Shoot(arrows: seq<Shot>, cameraPosition: Vec3, direction: Vec3): (r: seq<Shot>)
    ensures |r| == |arrows| + 1
    ensures r[..|arrows|] == arrows
    ensures r[|arrows|].position == cameraPosition && r[|arrows|].velocity == direction
  {
    arrows + [Shot(cameraPosition, Scale(direction, ShotSpeed))]
  }

  /** The mousedown handler: an arrow is fired only while the pointer is locked. */
  function OnMouseDown(arrows: seq<Shot>, pointerLocked: bool, cameraPosition: Vec3, direction: Vec3): (r: seq<Shot>)
    ensures !pointerLocked ==> r == arrows
    ensures pointerLocked ==> |r| == |arrows| + 1 && r[..|arrows|] == arrows
                              && r[|arrows|] == Shot(cameraPosition, direction)
  {
    if pointerLocked then Shoot(arrows, cameraPosition, direction) else arrows
  }

  /** One frame of flight: the position moves by exactly `velocity * delta * 20` and the
      velocity is kept. */
  function Advance(a: Shot, delta: real): (r: Shot)
    ensures r.velocity == a.velocity
    ensures r.position.x == a.position.x + a.velocity.x * (delta * FlightScale)
    ensures r.position.y == a.position.y + a.velocity.y * (delta * FlightScale)
    ensures r.position.z == a.position.z + a.velocity.z * (delta * FlightScale)
  {
    a.(position := Add(a.position, Scale(a.velocity, delta * FlightScale)))
  }

  predicate OutOfRange(a: Shot, camera: Vec3) {
    DistSq(a.position, camera) > RetireDistSq
  }

  /** The reference definition of one frame of the arrow list: every arrow advanced, then
      an order-preserving filter that keeps those still within range of the camera. */
  function Survivors(arrows: seq<Shot>, camera: Vec3, delta: real): (r: seq<Shot>)
    ensures |r| <= |arrows|
    ensures forall i :: 0 <= i < |r| ==> !OutOfRange(r[i], camera)
    decreases |arrows|
  {
    if arrows == [] then []
    else
      var a := Advance(arrows[0], delta);
      (if OutOfRange(a, camera) then [] else [a]) + Survivors(arrows[1..], camera, delta)
  }

  /** The loop in `animate`: walk the list from the back, advance each arrow, and splice
      out the ones that are now too far away. It computes exactly the filter above, so
      removing while iterating neither skips nor reorders arrows. */
  method AdvanceAndRetire(arrows: seq<Shot>, camera: Vec3, delta: real) returns (live: seq<Shot>)
    ensures live == Survivors(arrows, camera, delta)
    ensures forall i :: 0 <= i < |live| ==> DistSq(live[i].position, camera) <= RetireDistSq
  {
    live := arrows;
    var i := |arrows|;
    while i > 0
      invariant 0 <= i <= |arrows|
      invariant live == arrows[..i] + Survivors(arrows[i..], camera, delta)
      decreases i
    {
      i := i - 1;
      assert live[i] == arrows[i];
      assert arrows[i..] == [arrows[i]] + arrows[i + 1..];
      assert arrows[..i + 1] == arrows[..i] + [arrows[i]];
      var a := Advance(live[i], delta);
      if OutOfRange(a, camera) {
        live := live[..i] + live[i + 1..];
      } else {
        live := live[..i] + [a] + live[i + 1..];
      }
    }
    assert arrows[0..] == arrows;
  }

  // ---- the filter's properties ----

  /** Filtering distributes over concatenation: relative order is kept. */
  lemma {:induction false} SurvivorsAppend(xs: seq<Shot>, ys: seq<Shot>, camera: Vec3, delta: real)
    ensures Survivors(xs + ys, camera, delta) == Survivors(xs, camera, delta) + Survivors(ys, camera, delta)
    decreases |xs|
  {
    if xs != [] {
      assert (xs + ys)[1..] == xs[1..] + ys;
      SurvivorsAppend(xs[1..], ys, camera, delta);
    } else {
      assert xs + ys == ys;
    }
  }

  /** Exactly the arrows that end the frame out of range are removed: an arrow is in the
      result if and only if it is some arrow advanced by one frame and within range. */
  lemma {:induction false} SurvivorsMembership(arrows: seq<Shot>, camera: Vec3, delta: real, s: Shot)
    ensures s in Survivors(arrows, camera, delta)
        <==> !OutOfRange(s, camera) && exists i :: 0 <= i < |arrows| && s == Advance(arrows[i], delta)
    decreases |arrows|
  {
    if arrows != [] {
      SurvivorsMembership(arrows[1..], camera, delta, s);
      if exists i :: 0 <= i < |arrows| && s == Advance(arrows[i], delta) {
        var i :| 0 <= i < |arrows| && s == Advance(arrows[i], delta);
        if i > 0 {
          assert s == Advance(arrows[1..][i - 1], delta);
        }
      }
      if exists j :: 0 <= j < |arrows[1..]| && s == Advance(arrows[1..][j], delta) {
        var j :| 0 <= j < |arrows[1..]| && s == Advance(arrows[1..][j], delta);
        assert s == Advance(arrows[j + 1], delta);
      }
    }
  }

  /** When every arrow stays in range, none is removed and each is advanced in place. */
  lemma {:induction false} AllInRangeKept(arrows: seq<Shot>, camera: Vec3, delta: real)
    requires forall i :: 0 <= i < |arrows| ==> !OutOfRange(Advance(arrows[i], delta), camera)
    ensures |Survivors(arrows, camera, delta)| == |arrows|
    ensures forall i :: 0 <= i < |arrows| ==> Survivors(arrows, camera, delta)[i] == Advance(arrows[i], delta)
    decreases |arrows|
  {
    if arrows != [] {
      AllInRangeKept(arrows[1..], camera, delta);
    }
  }

  /** A freshly fired arrow is kept by the next frame exactly when one frame of flight
      leaves it within range; the arrows fired before it are filtered as before. */
  lemma NewShotSurvives(arrows: seq<Shot>, cameraPosition: Vec3, direction: Vec3, camera: Vec3, delta: real)
    ensures var fired := Shoot(arrows, cameraPosition, direction);
      var shot := Advance(Shot(cameraPosition, direction), delta);
      Survivors(fired, camera, delta)
        == Survivors(arrows, camera, delta) + (if OutOfRange(shot, camera) then [] else [shot])
  {
    var shot := Shot(cameraPosition, Scale(direction, ShotSpeed));
    assert shot == Shot(cameraPosition, direction);
    SurvivorsAppend(arrows, [shot], camera, delta);
    assert [shot][1..] == [];
  }

  /** The shooting range's world: the player and the arrows in flight. */
  datatype World = World(player: Controller, arrows: seq<Shot>)

  /** One pass of `animate`: the elapsed time is capped at 0.1 s, the player moves, and
      then the arrows advance and retire against the camera's new position. */
  function Animate(w: World, forward: Direction, right: Direction, elapsed: real): (r: World)
    ensures r.player.body.position.y >= GroundHeight
    ensures |r.arrows| <= |w.arrows|
    ensures forall i :: 0 <= i < |r.arrows| ==>
      DistSq(r.arrows[i].position, r.player.body.position) <= RetireDistSq
    ensures r.player.look == w.player.look && r.player.keys == w.player.keys
    ensures r.player == Update(w.player, forward, right, ClampDelta(elapsed))
    ensures r.arrows == Survivors(w.arrows, r.player.body.position, ClampDelta(elapsed))
  {
    var delta := ClampDelta(elapsed);
    var player := Update(w.player, forward, right, delta);
    World(player, Survivors(w.arrows, player.body.position, delta))
  }
}
