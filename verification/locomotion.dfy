/** The first-person locomotion step (`update(delta)` / `handleMovement(delta)`), which
    the repository carries in three identical copies. The body is a two-state machine,
    grounded or airborne, over position, velocity and the jump flags; each tick runs the
    stages accelerate, gravity, jump, integrate, ground clamp, damp and snap, in that
    order. */
module Locomotion {
  import opened Vectors
  import opened Input

  datatype Body = Body(position: Vec3, velocity: Vec3, isOnGround: bool, jumpRequested: bool)

  /** A camera-derived movement direction after its vertical component is dropped. It is
      taken as given rather than computed from the camera quaternion. */
  type Direction = v: Vec3 | Horizontal(v) witness Zero

  const GroundHeight: real := 1.0
  const BaseMoveSpeed: real := 0.01
  const SprintFactor: real := 2.0
  const Gravity: real := 0.02
  const JumpSpeed: real := 0.35
  const Damping: real := 0.9
  /** Speeds are per frame at 60 frames per second; `delta * 60` rescales them. */
  const FrameRate: real := 60.0
  /** `|v| < 0.001`, compared as squares. */
  const SnapLenSq: real := 0.000001
  /** The largest step `animate` passes on. */
  const MaxDelta: real := 0.1

  /** `Math.min(0.1, clock.getDelta())`. */
  function ClampDelta(raw: real): (d: real)
    ensures d <= MaxDelta
    ensures d <= raw
    ensures raw <= MaxDelta ==> d == raw
    ensures raw > MaxDelta ==> d == MaxDelta
  {
    if raw <= MaxDelta then raw else MaxDelta
  }

  /** The five keys the step reads: `w`, `s`, `a`, `d` and `shift`. */
  datatype Movement = Movement(forward: bool, back: bool, left: bool, right: bool, sprint: bool)

  function MovementOf(keys: KeyState): (m: Movement)
    ensures m.forward <==> Held(keys, "w")
    ensures m.back <==> Held(keys, "s")
    ensures m.left <==> Held(keys, "a")
    ensures m.right <==> Held(keys, "d")
    ensures m.sprint <==> Held(keys, "shift")
  {
    Movement(Held(keys, "w"), Held(keys, "s"), Held(keys, "a"), Held(keys, "d"), Held(keys, "shift"))
  }

  function MoveSpeed(m: Movement): (s: real)
    ensures s == BaseMoveSpeed || s == BaseMoveSpeed * SprintFactor
    ensures s == BaseMoveSpeed * SprintFactor <==> m.sprint
  {
    if m.sprint then BaseMoveSpeed * SprintFactor else BaseMoveSpeed
  }

  /** How a pair of opposing keys pulls along its axis: +1, -1, or 0 when both or neither
      are held. */
  function Axis(positive: bool, negative: bool): (a: real)
    ensures a == 1.0 || a == 0.0 || a == -1.0
    ensures a == 1.0 <==> positive && !negative
    ensures a == -1.0 <==> negative && !positive
  {
    (if positive then 1.0 else 0.0) - (if negative then 1.0 else 0.0)
  }

  /** What one key adds when held: its direction scaled by its signed step. */
  function Push(held: bool, direction: Direction, step: real): Direction {
    if held then Scale(direction, step) else Zero
  }

  /** The four key guards read one at a time, as their text intends: `w` adds
      `forward * k`, `s` adds `forward * -k`, `d` adds `right * k` and `a` adds
      `right * -k`, each on its own, `k` being the per-tick move step. */
  function HeldKeysSum(m: Movement, forward: Direction, right: Direction, k: real): Direction {
    Add(Add(Push(m.forward, forward, k), Push(m.back, forward, -k)),
        Add(Push(m.right, right, k), Push(m.left, right, -k)))
  }

  /** The velocity the four movement keys add in one tick: each held key adds its own
      direction (`w` forward, `s` backward, `d` right, `a` left) scaled by the per-tick
      move step, independently of the others. */
  function KeyImpulse(m: Movement, forward: Direction, right: Direction, delta: real): (r: Direction)
    ensures m.forward == m.back && m.left == m.right ==> r == Zero
  {
    Scale(KeyDirection(m, forward, right), MoveSpeed(m) * delta * FrameRate)
  }

  /** The sum of the held keys' directions, before scaling by the move step. */
  function KeyDirection(m: Movement, forward: Direction, right: Direction): Direction
  {
    Add(Scale(forward, Axis(m.forward, m.back)), Scale(right, Axis(m.right, m.left)))
  }

  /** The key impulse as the source computes it: `forward.multiplyScalar(..)` and
      `right.multiplyScalar(..)` scale the direction vectors in place, so the second key
      of an opposing pair adds a direction that the first key has already scaled. */
  function KeyImpulseAsWritten(m: Movement, forward: Direction, right: Direction, delta: real): (r: Direction)
    ensures !m.forward && !m.back && !m.left && !m.right ==> r == Zero
    ensures m.forward && !m.back && !m.left && !m.right ==> r == Scale(forward, MoveSpeed(m) * delta * FrameRate)
  {
    var k := MoveSpeed(m) * delta * FrameRate;
    SideKeysAsWritten(m, AheadKeysAsWritten(m, forward, k), right, k)
  }

  /** The `w` then `s` guards: `s` scales the vector `w` has already scaled. */
  function AheadKeysAsWritten(m: Movement, forward: Direction, k: real): Direction
  {
    var (v1, f1) := if m.forward then (Scale(forward, k), Scale(forward, k)) else (Zero, forward);
    if m.back then Add(v1, Scale(f1, -k)) else v1
  }

  /** The `a` then `d` guards, adding to the velocity `v` built so far: `d` scales the
      vector `a` has already scaled. */
  function SideKeysAsWritten(m: Movement, v: Direction, right: Direction, k: real): Direction
  {
    var (v3, r3) := if m.left then (Add(v, Scale(right, -k)), Scale(right, -k)) else (v, right);
    if m.right then Add(v3, Scale(r3, k)) else v3
  }

  // ---- the stages of one tick ----

  /** Key impulse plus gravity; gravity acts every tick, grounded or not. */
  function Accelerate(b: Body, impulse: Direction, delta: real): (r: Body)
    ensures r.position == b.position && r.isOnGround == b.isOnGround && r.jumpRequested == b.jumpRequested
    ensures r.velocity.x == b.velocity.x + impulse.x && r.velocity.z == b.velocity.z + impulse.z
    ensures r.velocity.y == b.velocity.y - Gravity * delta * FrameRate
  {
    var v := Add(b.velocity, impulse);
    b.(velocity := v.(y := v.y - Gravity * delta * FrameRate))
  }

  predicate JumpFires(b: Body) {
    b.jumpRequested && b.isOnGround
  }

  /** The one-shot jump: it fires only on a grounded, requested body, and then sets the
      vertical speed outright and consumes both flags. */
  function Jump(b: Body): (r: Body)
    ensures JumpFires(b) ==> r.velocity.y == JumpSpeed && !r.isOnGround && !r.jumpRequested
    ensures JumpFires(b) ==> r.velocity.x == b.velocity.x && r.velocity.z == b.velocity.z && r.position == b.position
    ensures !JumpFires(b) ==> r == b
  {
    if JumpFires(b) then b.(velocity := b.velocity.(y := JumpSpeed), isOnGround := false, jumpRequested := false)
    else b
  }

  function Integrate(b: Body, delta: real): (r: Body)
    ensures r.velocity == b.velocity && r.isOnGround == b.isOnGround && r.jumpRequested == b.jumpRequested
    ensures r.position.x == b.position.x + b.velocity.x * (delta * FrameRate)
    ensures r.position.y == b.position.y + b.velocity.y * (delta * FrameRate)
    ensures r.position.z == b.position.z + b.velocity.z * (delta * FrameRate)
  {
    b.(position := Add(b.position, Scale(b.velocity, delta * FrameRate)))
  }

  /** Landing: a body below ground height is lifted onto the ground, loses its vertical
      speed and becomes grounded; a body at or above it is left alone. */
  function ClampToGround(b: Body): (r: Body)
    ensures r.position.y >= GroundHeight
    ensures b.position.y >= GroundHeight ==> r == b
    ensures b.position.y < GroundHeight ==>
      r.position.y == GroundHeight && r.velocity.y == 0.0 && r.isOnGround && r.jumpRequested == b.jumpRequested
    ensures r.position.x == b.position.x && r.position.z == b.position.z
    ensures r.velocity.x == b.velocity.x && r.velocity.z == b.velocity.z
  {
    if b.position.y < GroundHeight then
      b.(position := b.position.(y := GroundHeight), velocity := b.velocity.(y := 0.0), isOnGround := true)
    else b
  }

  /** Friction: the velocity keeps its direction and its squared length shrinks by 0.81. */
  function Damp(b: Body): (r: Body)
    ensures r.position == b.position && r.isOnGround == b.isOnGround && r.jumpRequested == b.jumpRequested
    ensures r.velocity == Scale(b.velocity, Damping)
    ensures LenSq(r.velocity) == Damping * Damping * LenSq(b.velocity)
  {
    b.(velocity := Scale(b.velocity, Damping))
  }

  /** Snap-to-zero: afterwards the velocity is either exactly zero or at least 0.001 long,
      and a velocity that was long enough is kept as it was. */
  function Snap(b: Body): (r: Body)
    ensures r.position == b.position && r.isOnGround == b.isOnGround && r.jumpRequested == b.jumpRequested
    ensures r.velocity == Zero || LenSq(r.velocity) >= SnapLenSq
    ensures LenSq(b.velocity) >= SnapLenSq ==> r.velocity == b.velocity
    ensures LenSq(b.velocity) < SnapLenSq ==> r.velocity == Zero
  {
    if LenSq(b.velocity) < SnapLenSq then b.(velocity := Zero) else b
  }

  /** One tick after the key impulse is known. */
  function StepWith(b: Body, impulse: Direction, delta: real): (r: Body)
    ensures r.position.y >= GroundHeight
    ensures r.velocity == Zero || LenSq(r.velocity) >= SnapLenSq
    ensures r.jumpRequested <==> b.jumpRequested && !b.isOnGround
  {
    Snap(Damp(ClampToGround(Integrate(Jump(Accelerate(b, impulse, delta)), delta))))
  }

  /** One locomotion tick: the source's `update(delta)` / `handleMovement(delta)`, with the
      key impulse in its corrected form. */
  function Step(b: Body, keys: KeyState, forward: Direction, right: Direction, delta: real): (r: Body)
    ensures r.position.y >= GroundHeight
    ensures r.velocity == Zero || LenSq(r.velocity) >= SnapLenSq
  {
    StepWith(b, KeyImpulse(MovementOf(keys), forward, right, delta), delta)
  }

  /** The tick exactly as the source writes it, in-place direction scaling included. */
  function StepAsWritten(b: Body, keys: KeyState, forward: Direction, right: Direction, delta: real): (r: Body)
    ensures r.position.y >= GroundHeight
    ensures r.velocity == Zero || LenSq(r.velocity) >= SnapLenSq
  {
    StepWith(b, KeyImpulseAsWritten(MovementOf(keys), forward, right, delta), delta)
  }
}
