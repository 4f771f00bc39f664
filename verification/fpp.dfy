/** The third-person-animated copy of the controller (`FPP.js`): after each locomotion
    tick it picks which of the player model's run, walk and idle animations is shown, and
    its frame loop caps the step size. */
module Fpp {
  import opened Vectors
  import opened Input
  import opened Locomotion
  import opened Controls

  /** The three animation weights handed to the animation mixer. */
  datatype Weights = Weights(run: real, walk: real, idle: real)

  const Running: Weights := Weights(1.0, 0.0, 0.0)
  const Walking: Weights := Weights(0.0, 1.0, 0.0)
  const Idle: Weights := Weights(0.0, 0.0, 1.0)

  /** `|velocity| > 0.01`, compared as squares. */
  const MovingLenSq: real := 0.0001

  predicate IsMoving(velocity: Vec3) {
    LenSq(velocity) > MovingLenSq
  }

  /** Exactly one animation is fully on and the other two are off: run when moving with
      shift held, walk when moving without it, idle when not moving. */
  function SelectAnimation(keys: KeyState, velocity: Vec3): (w: Weights)
    ensures w == Running || w == Walking || w == Idle
    ensures w.run == 1.0 <==> Held(keys, "shift") && IsMoving(velocity)
    ensures w.walk == 1.0 <==> !Held(keys, "shift") && IsMoving(velocity)
    ensures w.idle == 1.0 <==> !IsMoving(velocity)
    ensures w.run + w.walk + w.idle == 1.0
  {
    if Held(keys, "shift") && IsMoving(velocity) then Running
    else if IsMoving(velocity) then Walking
    else Idle
  }

  /** The player after a frame, with the animation it shows. */
  datatype Frame = Frame(player: Controller, weights: Weights)

  /** `handleMovement(delta)`: the locomotion tick, then the animation chosen from the
      velocity the tick leaves. A player brought to a stop by the snap is always idle. */
  function HandleMovement(c: Controller, forward: Direction, right: Direction, delta: real): (f: Frame)
    ensures f.player.body == StepAsWritten(c.body, c.keys, forward, right, delta)
    ensures f.player.body.position.y >= GroundHeight
    ensures f.player.look == c.look && f.player.keys == c.keys
    ensures f.player.body.velocity == Zero ==> f.weights == Idle
    ensures f.weights == Idle <==> !IsMoving(f.player.body.velocity)
    ensures f.weights == Running ==> Held(c.keys, "shift")
    ensures f.weights == SelectAnimation(c.keys, f.player.body.velocity)
  {
    var next := Update(c, forward, right, delta);
    Frame(next, SelectAnimation(c.keys, next.body.velocity))
  }

  /** One pass of `animate`: the elapsed time is capped at 0.1 s before the movement step,
      so any longer stall moves the player exactly as a 0.1 s frame would. */
  function Animate(c: Controller, forward: Direction, right: Direction, elapsed: real): (f: Frame)
    ensures elapsed >= MaxDelta ==> f == HandleMovement(c, forward, right, MaxDelta)
    ensures elapsed <= MaxDelta ==> f == HandleMovement(c, forward, right, elapsed)
    ensures f.player.body.position.y >= GroundHeight
  {
    HandleMovement(c, forward, right, ClampDelta(elapsed))
  }
}
