/** The `Controls` class: one player's locomotion body, mouse look and key map, and the
    handlers that write them. The free-standing copies in `FPP.js` and `shooting/main.js`
    keep the same state in module-level variables and behave identically. */
module Controls {
  import opened Vectors
  import opened Input
  import opened Locomotion
  import LocomotionFacts

  datatype Controller = Controller(body: Body, look: Look, keys: KeyState)

  /** The constructor: the camera stays where it is, standing still and grounded, with no
      jump pending, looking level, and no key held. */
  function Init(position: Vec3): (c: Controller)
    ensures c.body.position == position
    ensures c.body.velocity == Zero && c.body.isOnGround && !c.body.jumpRequested
    ensures c.look.yaw == 0.0 && c.look.pitch == 0.0
    ensures forall k :: !Held(c.keys, k)
  {
    Controller(Body(position, Zero, true, false), Look(0.0, 0.0), map[])
  }

  /** What a keydown does besides updating the controller: whether it asks for pointer
      lock. */
  datatype KeyDownEffect = KeyDownEffect(controller: Controller, requestLock: bool)

  /** keydown: the lower-cased key reads as held; space requests a jump, but only while
      grounded; enter asks for pointer lock when the pointer is not locked. Nothing else
      changes. */
  function OnKeyDown(c: Controller, eventKey: string, pointerLocked: bool): (r: KeyDownEffect)
    ensures Held(r.controller.keys, Lower(eventKey))
    ensures forall k :: k != Lower(eventKey) ==> (Held(r.controller.keys, k) <==> Held(c.keys, k))
    ensures r.controller.body.jumpRequested
        <==> c.body.jumpRequested || (Lower(eventKey) == " " && c.body.isOnGround)
    ensures r.controller.body.position == c.body.position
    ensures r.controller.body.velocity == c.body.velocity
    ensures r.controller.body.isOnGround == c.body.isOnGround
    ensures r.controller.look == c.look
    ensures r.requestLock <==> Lower(eventKey) == "enter" && !pointerLocked
  {
    var key := Lower(eventKey);
    var body := if key == " " && c.body.isOnGround then c.body.(jumpRequested := true) else c.body;
    KeyDownEffect(Controller(body, c.look, Press(c.keys, key)), key == "enter" && !pointerLocked)
  }

  /** keyup: the lower-cased key reads as released; nothing else changes. */
  function OnKeyUp(c: Controller, eventKey: string): (r: Controller)
    ensures !Held(r.keys, Lower(eventKey))
    ensures forall k :: k != Lower(eventKey) ==> (Held(r.keys, k) <==> Held(c.keys, k))
    ensures r.body == c.body && r.look == c.look
  {
    c.(keys := Release(c.keys, Lower(eventKey)))
  }

  /** mousemove (delivered only while the pointer is locked): only the look changes; pitch
      stays clamped and yaw moves by exactly `-movementX * 0.002`. */
  function OnMouseMove(c: Controller, movementX: real, movementY: real): (r: Controller)
    ensures PitchInRange(r.look.pitch)
    ensures r.look.yaw == c.look.yaw - movementX * Sensitivity
    ensures PitchInRange(c.look.pitch - movementY * Sensitivity)
        ==> r.look.pitch == c.look.pitch - movementY * Sensitivity
    ensures c.look.pitch - movementY * Sensitivity > HalfPi ==> r.look.pitch == HalfPi
    ensures c.look.pitch - movementY * Sensitivity < -HalfPi ==> r.look.pitch == -HalfPi
    ensures r.body == c.body && r.keys == c.keys
  {
    c.(look := MouseMove(c.look, movementX, movementY))
  }

  /** `update(delta)`: one locomotion tick driven by the held keys, as the source computes
      it (in-place key impulse included), with the camera's horizontal forward and right
      directions supplied by the caller. */
  function Update(c: Controller, forward: Direction, right: Direction, delta: real): (r: Controller)
    ensures r.body.position.y >= GroundHeight
    ensures r.body.velocity == Zero || LenSq(r.body.velocity) >= SnapLenSq
    ensures r.body.jumpRequested <==> c.body.jumpRequested && !c.body.isOnGround
    ensures r.look == c.look && r.keys == c.keys
  {
    c.(body := StepAsWritten(c.body, c.keys, forward, right, delta))
  }

  /** A jump is only ever pending while grounded: space sets the request only on the
      ground, and the tick clears the grounded flag only together with the request. */
  predicate RequestOnlyOnGround(c: Controller) {
    c.body.jumpRequested ==> c.body.isOnGround
  }

  /** Every handler keeps a pending jump on the ground, and after any tick no jump is
      pending at all: the request is one-shot, and the airborne-request state that
      `StepWith` also allows for is never reached from `Init`. */
  lemma HandlersKeepRequestOnGround(c: Controller, position: Vec3, eventKey: string, pointerLocked: bool,
                                    movementX: real, movementY: real,
                                    forward: Direction, right: Direction, delta: real)
    requires RequestOnlyOnGround(c)
    ensures RequestOnlyOnGround(Init(position))
    ensures RequestOnlyOnGround(OnKeyDown(c, eventKey, pointerLocked).controller)
    ensures RequestOnlyOnGround(OnKeyUp(c, eventKey))
    ensures RequestOnlyOnGround(OnMouseMove(c, movementX, movementY))
    ensures !Update(c, forward, right, delta).body.jumpRequested
    ensures RequestOnlyOnGround(Update(c, forward, right, delta))
  {
  }

  /** Unless both keys of an opposing pair are held, the controller's tick is the corrected
      one: the in-place scaling only shows with w and s, or a and d, held together. */
  lemma UpdateIsCorrectedWithoutOpposingKeys(c: Controller, forward: Direction, right: Direction, delta: real)
    requires !(Held(c.keys, "w") && Held(c.keys, "s")) && !(Held(c.keys, "a") && Held(c.keys, "d"))
    ensures Update(c, forward, right, delta).body == Step(c.body, c.keys, forward, right, delta)
  {
    LocomotionFacts.AsWrittenAgreesWithoutOpposingKeys(MovementOf(c.keys), forward, right, delta);
  }

  /** Space pressed while standing on or above the ground, then one tick: the player is
      airborne, the request is spent, the camera rose by `0.35 * delta * 60`, and a second
      space press in the air requests nothing. */
  lemma SpaceThenUpdateJumpsOnce(c: Controller, forward: Direction, right: Direction, delta: real)
    requires c.body.isOnGround && c.body.position.y >= GroundHeight && delta >= 0.0
    ensures var up := Update(OnKeyDown(c, " ", true).controller, forward, right, delta);
      && !up.body.isOnGround && !up.body.jumpRequested
      && up.body.position.y == c.body.position.y + JumpSpeed * (delta * FrameRate)
      && !OnKeyDown(up, " ", true).controller.body.jumpRequested
  {
    assert Lower(" ") == " ";
    var pressed := OnKeyDown(c, " ", true).controller;
    var m := MovementOf(pressed.keys);
    LocomotionFacts.JumpLiftsOff(pressed.body, KeyImpulseAsWritten(m, forward, right, delta), delta);
  }
}
