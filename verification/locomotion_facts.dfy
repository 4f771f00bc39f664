/** Properties of the locomotion step: the ground clamp, the one-shot jump, the resting
    fixed point, sprint doubling, and how the source's in-place key impulse compares with
    the corrected one. */
module LocomotionFacts {
  import opened Vectors
  import opened Locomotion

  /** A body standing still on the ground with no jump pending. */
  predicate Resting(b: Body) {
    b.isOnGround && !b.jumpRequested && b.position.y == GroundHeight && b.velocity.y == 0.0
  }

  lemma LenSqAtLeastVertical(v: Vec3)
    ensures LenSq(v) >= v.y * v.y
  {
    Square(v.x);
    Square(v.z);
  }

  /** A requested jump from the ground lifts the body by exactly `0.35 * delta * 60`,
      leaves it airborne with both flags consumed, and its vertical speed is the jump
      speed damped once; the snap cannot cancel it. */
  lemma JumpLiftsOff(b: Body, impulse: Direction, delta: real)
    requires JumpFires(b) && b.position.y >= GroundHeight && delta >= 0.0
    ensures var r := StepWith(b, impulse, delta);
      && !r.isOnGround && !r.jumpRequested
      && r.position.y == b.position.y + JumpSpeed * (delta * FrameRate)
      && r.velocity.y == JumpSpeed * Damping
  {
    var j := Jump(Accelerate(b, impulse, delta));
    assert j.velocity.y == JumpSpeed;
    var i := Integrate(j, delta);
    assert JumpSpeed * (delta * FrameRate) >= 0.0;
    assert ClampToGround(i) == i;
    var d := Damp(i);
    assert d.velocity.y == JumpSpeed * Damping;
    LenSqAtLeastVertical(d.velocity);
    assert Snap(d) == d;
  }

  /** While airborne the jump never fires: the pending request survives the tick, and the
      vertical speed is the previous one less gravity right up to integration. The handlers
      never leave a request pending in the air (`Controls.HandlersKeepRequestOnGround`), so
      this is about the tick on its own, not a state the game reaches. */
  lemma NoJumpInFlight(b: Body, impulse: Direction, delta: real)
    requires !b.isOnGround
    ensures StepWith(b, impulse, delta).jumpRequested == b.jumpRequested
    ensures Jump(Accelerate(b, impulse, delta)).velocity.y == b.velocity.y - Gravity * delta * FrameRate
  {
  }

  lemma NegativeProduct(a: real, c: real)
    requires a < 0.0 && c > 0.0
    ensures a * c < 0.0
  {
    assert (-a) * c > 0.0;
  }

  /** Resting is a fixed point of the step, whatever the keys and the step size: gravity
      pulls the body under the ground and the clamp puts it back with no vertical speed. */
  lemma RestingStaysResting(b: Body, impulse: Direction, delta: real)
    requires Resting(b)
    ensures Resting(StepWith(b, impulse, delta))
  {
    var a := Accelerate(b, impulse, delta);
    assert Jump(a) == a;
    var i := Integrate(a, delta);
    if delta > 0.0 {
      NegativeProduct(a.velocity.y, delta * FrameRate);
      assert i.position.y < GroundHeight;
    } else if delta < 0.0 {
      NegativeProduct(delta * FrameRate, a.velocity.y);
      assert i.position.y < GroundHeight;
    } else {
      assert i.position.y == GroundHeight;
    }
  }

  /** Within one tick the keys only steer horizontally: whatever is held, the tick leaves
      the same height, the same grounded flag and the same jump request. */
  lemma VerticalIgnoresKeys(b: Body, i1: Direction, i2: Direction, delta: real)
    ensures StepWith(b, i1, delta).position.y == StepWith(b, i2, delta).position.y
    ensures StepWith(b, i1, delta).isOnGround == StepWith(b, i2, delta).isOnGround
    ensures StepWith(b, i1, delta).jumpRequested == StepWith(b, i2, delta).jumpRequested
  {
    var j1 := Jump(Accelerate(b, i1, delta));
    var j2 := Jump(Accelerate(b, i2, delta));
    assert j1.velocity.y == j2.velocity.y;
    assert Integrate(j1, delta).position.y == Integrate(j2, delta).position.y;
  }

  /** Beyond one tick the keys do reach the vertical, through the snap: it tests the whole
      length of the velocity. A body rising slowly in the air loses its vertical speed to
      the snap when no key is held, but keeps it when `w` adds enough horizontal speed,
      and so the next tick leaves it at a different height. */
  lemma KeysReachVerticalThroughSnap()
    ensures StepWith(SlowRiser, Zero, 0.01) == IdleAfter && IdleAfter.velocity.y == 0.0
    ensures StepWith(SlowRiser, ForwardPush, 0.01) == HeldAfter && HeldAfter.velocity.y == 0.00045
    ensures StepWith(IdleAfter, Zero, 0.01).position.y != StepWith(HeldAfter, Zero, 0.01).position.y
  {
    IdleFirstTick();
    HeldFirstTick();
    IdleSecondTick();
    HeldSecondTick();
  }

  /** The example: airborne at height 5, rising at 0.0125 per frame. */
  const SlowRiser: Body := Body(Vec3(0.0, 5.0, 0.0), Vec3(0.0, 0.0125, 0.0), false, false)
  /** What `w` adds facing down -z over a 0.01 s step. */
  const ForwardPush: Direction := Vec3(0.0, 0.0, -0.006)
  const IdleAfter: Body := Body(Vec3(0.0, 5.0003, 0.0), Zero, false, false)
  const HeldAfter: Body := Body(Vec3(0.0, 5.0003, -0.0036), Vec3(0.0, 0.00045, -0.0054), false, false)

  /** With no key the damped speed 0.00045 is below the snap threshold and is cleared. */
  lemma IdleFirstTick()
    ensures StepWith(SlowRiser, Zero, 0.01) == IdleAfter
  {
    var a := Body(Vec3(0.0, 5.0, 0.0), Vec3(0.0, 0.0005, 0.0), false, false);
    assert Accelerate(SlowRiser, Zero, 0.01) == a;
    var i := Body(Vec3(0.0, 5.0003, 0.0), Vec3(0.0, 0.0005, 0.0), false, false);
    assert Integrate(Jump(a), 0.01) == i;
    var d := Body(Vec3(0.0, 5.0003, 0.0), Vec3(0.0, 0.00045, 0.0), false, false);
    assert Damp(ClampToGround(i)) == d;
    assert Snap(d) == IdleAfter;
  }

  /** With `w` held the horizontal speed keeps the velocity, vertical part included. */
  lemma HeldFirstTick()
    ensures StepWith(SlowRiser, ForwardPush, 0.01) == HeldAfter
  {
    assert ForwardPush == Vec3(0.0, 0.0, -0.006);
    var a := Body(Vec3(0.0, 5.0, 0.0), Vec3(0.0, 0.0005, -0.006), false, false);
    assert Accelerate(SlowRiser, ForwardPush, 0.01) == a;
    var i := Body(Vec3(0.0, 5.0003, -0.0036), Vec3(0.0, 0.0005, -0.006), false, false);
    assert Integrate(Jump(a), 0.01) == i;
    assert Damp(ClampToGround(i)) == HeldAfter;
    assert Snap(HeldAfter) == HeldAfter;
  }

  lemma IdleSecondTick()
    ensures StepWith(IdleAfter, Zero, 0.01).position.y == 4.9931
  {
    var a := Body(Vec3(0.0, 5.0003, 0.0), Vec3(0.0, -0.012, 0.0), false, false);
    assert Accelerate(IdleAfter, Zero, 0.01) == a;
    assert Integrate(Jump(a), 0.01).position.y == 4.9931;
  }

  lemma HeldSecondTick()
    ensures StepWith(HeldAfter, Zero, 0.01).position.y == 4.99337
  {
    var a := Body(Vec3(0.0, 5.0003, -0.0036), Vec3(0.0, -0.01155, -0.0054), false, false);
    assert Accelerate(HeldAfter, Zero, 0.01) == a;
    assert Integrate(Jump(a), 0.01).position.y == 4.99337;
  }

  /** Holding shift doubles the whole corrected key impulse, whatever else is held. */
  lemma SprintDoublesImpulse(m: Movement, forward: Direction, right: Direction, delta: real)
    ensures KeyImpulse(m.(sprint := true), forward, right, delta)
         == Scale(KeyImpulse(m.(sprint := false), forward, right, delta), SprintFactor)
  {
    var fast := MoveSpeed(m.(sprint := true)) * delta * FrameRate;
    var slow := MoveSpeed(m.(sprint := false)) * delta * FrameRate;
    SprintStep(m, delta);
    ImpulseAtSpeed(m.(sprint := true), forward, right, delta, fast);
    ImpulseAtSpeed(m.(sprint := false), forward, right, delta, slow);
    ScaledTwice(KeyImpulse(m.(sprint := true), forward, right, delta),
                KeyImpulse(m.(sprint := false), forward, right, delta),
                KeyDirection(m.(sprint := false), forward, right), fast, slow, SprintFactor);
  }

  /** The sprinting move step is twice the walking one. */
  lemma SprintStep(m: Movement, delta: real)
    ensures MoveSpeed(m.(sprint := true)) * delta * FrameRate
         == MoveSpeed(m.(sprint := false)) * delta * FrameRate * SprintFactor
  {
  }

  lemma ScaledTwice(fast: Vec3, slow: Vec3, dir: Vec3, kFast: real, kSlow: real, c: real)
    requires kFast == kSlow * c
    requires fast == Scale(dir, kFast) && slow == Scale(dir, kSlow)
    ensures fast == Scale(slow, c)
  {
    ScaleTwice(dir, kSlow, c);
  }

  /** Shift doubles the impulse as the source computes it too, as long as no opposing
      pair is held. */
  lemma SprintDoublesImpulseAsWritten(m: Movement, forward: Direction, right: Direction, delta: real)
    requires !(m.forward && m.back) && !(m.left && m.right)
    ensures KeyImpulseAsWritten(m.(sprint := true), forward, right, delta)
         == Scale(KeyImpulseAsWritten(m.(sprint := false), forward, right, delta), SprintFactor)
  {
    AsWrittenAgreesWithoutOpposingKeys(m.(sprint := true), forward, right, delta);
    AsWrittenAgreesWithoutOpposingKeys(m.(sprint := false), forward, right, delta);
    SprintDoublesImpulse(m, forward, right, delta);
  }

  /** With `w` and `s` held, shift does not double the source's impulse: the longest step
      facing down -z gives 0.1056 with shift and 0.0564 without. */
  lemma SprintDoesNotDoubleAsWritten()
    ensures var m := Movement(true, true, false, false, false);
      && KeyImpulseAsWritten(m.(sprint := true), Vec3(0.0, 0.0, -1.0), Vec3(1.0, 0.0, 0.0), MaxDelta)
         == Vec3(0.0, 0.0, -0.1056)
      && KeyImpulseAsWritten(m.(sprint := true), Vec3(0.0, 0.0, -1.0), Vec3(1.0, 0.0, 0.0), MaxDelta)
         != Scale(KeyImpulseAsWritten(m, Vec3(0.0, 0.0, -1.0), Vec3(1.0, 0.0, 0.0), MaxDelta), SprintFactor)
  {
    var m := Movement(true, true, false, false, true);
    var forward: Direction := Vec3(0.0, 0.0, -1.0);
    var right: Direction := Vec3(1.0, 0.0, 0.0);
    NoSideKeysAsWritten(m, forward, right, MaxDelta);
    assert MoveSpeed(m) * MaxDelta * FrameRate == 0.12;
    AheadDrift(m, forward, 0.12);
    assert Scale(forward, 0.12 - 0.12 * 0.12) == Vec3(0.0, 0.0, -0.1056);
    AsWrittenForwardBackExample();
  }

  /** What one pair of opposing keys adds, scaled by the move step, is the sum of what
      each key of the pair adds on its own. */
  lemma PairSum(v: Direction, positive: bool, negative: bool, k: real)
    ensures Scale(Scale(v, Axis(positive, negative)), k) == Add(Push(positive, v, k), Push(negative, v, -k))
  {
    UnitStep(v, Axis(positive, negative), k);
  }

  /** The corrected impulse is exactly the independent sum of the held keys' own
      contributions, which is what the four key guards are written to do. */
  lemma KeyImpulseSumsHeldKeys(m: Movement, forward: Direction, right: Direction, delta: real)
    ensures KeyImpulse(m, forward, right, delta)
         == HeldKeysSum(m, forward, right, MoveSpeed(m) * delta * FrameRate)
  {
    var k := MoveSpeed(m) * delta * FrameRate;
    var ahead, side := Scale(forward, Axis(m.forward, m.back)), Scale(right, Axis(m.right, m.left));
    assert KeyImpulse(m, forward, right, delta) == Scale(Add(ahead, side), k);
    ScaleDistributes(ahead, side, k);
    PairSum(forward, m.forward, m.back, k);
    PairSum(right, m.right, m.left, k);
  }

  /** Without an opposing pair held, the source's impulse is that same independent sum. */
  lemma AsWrittenSumsHeldKeys(m: Movement, forward: Direction, right: Direction, delta: real)
    requires !(m.forward && m.back) && !(m.left && m.right)
    ensures KeyImpulseAsWritten(m, forward, right, delta)
         == HeldKeysSum(m, forward, right, MoveSpeed(m) * delta * FrameRate)
  {
    AsWrittenAgreesWithoutOpposingKeys(m, forward, right, delta);
    KeyImpulseSumsHeldKeys(m, forward, right, delta);
  }

  lemma ImpulseAtSpeed(m: Movement, forward: Direction, right: Direction, delta: real, k: real)
    requires k == MoveSpeed(m) * delta * FrameRate
    ensures KeyImpulse(m, forward, right, delta) == Scale(KeyDirection(m.(sprint := false), forward, right), k)
  {
    assert KeyDirection(m.(sprint := false), forward, right) == KeyDirection(m, forward, right);
  }

  /** A pair of opposing keys held together cancels out, so with every pair balanced the
      keys add nothing. */
  lemma OpposingKeysCancel(m: Movement, forward: Direction, right: Direction, delta: real)
    requires m.forward == m.back && m.left == m.right
    ensures KeyImpulse(m, forward, right, delta) == Zero
  {
  }

  /** The in-place scaling is harmless as long as no opposing pair is held. */
  lemma AsWrittenAgreesWithoutOpposingKeys(m: Movement, forward: Direction, right: Direction, delta: real)
    requires !(m.forward && m.back) && !(m.left && m.right)
    ensures KeyImpulseAsWritten(m, forward, right, delta) == KeyImpulse(m, forward, right, delta)
  {
    var k := MoveSpeed(m) * delta * FrameRate;
    var ahead := Scale(Scale(forward, Axis(m.forward, m.back)), k);
    assert KeyImpulse(m, forward, right, delta) == Scale(KeyDirection(m, forward, right), k);
    ScaleDistributes(Scale(forward, Axis(m.forward, m.back)), Scale(right, Axis(m.right, m.left)), k);
    AheadAgrees(m, forward, k);
    SideAgrees(m, ahead, right, k);
  }

  lemma AheadAgrees(m: Movement, forward: Direction, k: real)
    requires !(m.forward && m.back)
    ensures AheadKeysAsWritten(m, forward, k) == Scale(Scale(forward, Axis(m.forward, m.back)), k)
  {
    UnitStep(forward, Axis(m.forward, m.back), k);
  }

  lemma SideAgrees(m: Movement, v: Direction, right: Direction, k: real)
    requires !(m.left && m.right)
    ensures SideKeysAsWritten(m, v, right, k) == Add(v, Scale(Scale(right, Axis(m.right, m.left)), k))
  {
    UnitStep(right, Axis(m.right, m.left), k);
  }

  /** Scaling by a unit pull and then by the move step is scaling by the signed step. */
  lemma UnitStep(v: Vec3, a: real, k: real)
    requires a == 1.0 || a == 0.0 || a == -1.0
    ensures a == 1.0 ==> Scale(Scale(v, a), k) == Scale(v, k)
    ensures a == -1.0 ==> Scale(Scale(v, a), k) == Scale(v, -k)
    ensures a == 0.0 ==> Scale(Scale(v, a), k) == Zero
  {
  }

  /** With forward and back held together, the source adds `(k - k*k)` times the forward
      direction instead of nothing, `k` being the per-tick move step. */
  lemma AsWrittenForwardBackDrift(m: Movement, forward: Direction, right: Direction, delta: real)
    requires m.forward && m.back && !m.left && !m.right
    ensures var k := MoveSpeed(m) * delta * FrameRate;
      KeyImpulseAsWritten(m, forward, right, delta) == Scale(forward, k - k * k)
  {
    NoSideKeysAsWritten(m, forward, right, delta);
    AheadDrift(m, forward, MoveSpeed(m) * delta * FrameRate);
  }

  lemma NoSideKeysAsWritten(m: Movement, forward: Direction, right: Direction, delta: real)
    requires !m.left && !m.right
    ensures KeyImpulseAsWritten(m, forward, right, delta)
         == AheadKeysAsWritten(m, forward, MoveSpeed(m) * delta * FrameRate)
  {
  }

  lemma AheadDrift(m: Movement, forward: Direction, k: real)
    requires m.forward && m.back
    ensures AheadKeysAsWritten(m, forward, k) == Scale(forward, k - k * k)
  {
    var f1 := Scale(forward, k);
    assert AheadKeysAsWritten(m, forward, k) == Add(f1, Scale(f1, -k));
    assert forward.x * k + forward.x * k * -k == forward.x * (k - k * k);
    assert forward.z * k + forward.z * k * -k == forward.z * (k - k * k);
  }

  /** `a` then `d`: `d` scales the already negated and scaled right vector, so the pair
      adds `-(k + k*k)` times the right direction instead of nothing. */
  lemma SideDrift(m: Movement, v: Direction, right: Direction, k: real)
    requires m.left && m.right
    ensures SideKeysAsWritten(m, v, right, k) == Add(v, Scale(right, -(k + k * k)))
  {
    var r3 := Scale(right, -k);
    assert SideKeysAsWritten(m, v, right, k) == Add(Add(v, r3), Scale(r3, k));
    assert right.x * -k + right.x * -k * k == right.x * -(k + k * k);
    assert right.z * -k + right.z * -k * k == right.z * -(k + k * k);
  }

  /** With left and right held together and no forward key, the source adds
      `-(k + k*k)` times the right direction instead of nothing. */
  lemma AsWrittenLeftRightDrift(m: Movement, forward: Direction, right: Direction, delta: real)
    requires m.left && m.right && !m.forward && !m.back
    ensures var k := MoveSpeed(m) * delta * FrameRate;
      KeyImpulseAsWritten(m, forward, right, delta) == Scale(right, -(k + k * k))
  {
    var k := MoveSpeed(m) * delta * FrameRate;
    assert AheadKeysAsWritten(m, forward, k) == Zero;
    SideDrift(m, Zero, right, k);
  }

  /** A concrete tick: W and S held, no sprint, the longest step, facing straight down -z.
      The corrected impulse is zero (`OpposingKeysCancel`); the source's moves the body
      0.0564 along -z. */
  lemma AsWrittenForwardBackExample()
    ensures KeyImpulseAsWritten(Movement(true, true, false, false, false),
                                Vec3(0.0, 0.0, -1.0), Vec3(1.0, 0.0, 0.0), MaxDelta)
         == Vec3(0.0, 0.0, -0.0564)
  {
    var m := Movement(true, true, false, false, false);
    var forward: Direction := Vec3(0.0, 0.0, -1.0);
    var right: Direction := Vec3(1.0, 0.0, 0.0);
    NoSideKeysAsWritten(m, forward, right, MaxDelta);
    assert MoveSpeed(m) * MaxDelta * FrameRate == 0.06;
    AheadDrift(m, forward, 0.06);
    assert Scale(forward, 0.06 - 0.06 * 0.06) == Vec3(0.0, 0.0, -0.0564);
  }

  /** `n` ticks with the same key impulse and step size. */
  function Ticks(b: Body, impulse: Direction, delta: real, n: nat): Body
    decreases n
  {
    if n == 0 then b else Ticks(StepWith(b, impulse, delta), impulse, delta, n - 1)
  }

  /** An idle tick at rest keeps the body resting and either stops it or shrinks its
      squared speed by exactly 0.81. */
  lemma IdleTick(b: Body, delta: real)
    requires Resting(b)
    ensures Resting(StepWith(b, Zero, delta))
    ensures StepWith(b, Zero, delta).velocity == Zero
         || LenSq(StepWith(b, Zero, delta).velocity) == Damping * Damping * LenSq(b.velocity)
  {
    RestingStaysResting(b, Zero, delta);
    var a := Accelerate(b, Zero, delta);
    var i := Integrate(Jump(a), delta);
    var c := ClampToGround(i);
    if delta > 0.0 {
      NegativeProduct(a.velocity.y, delta * FrameRate);
      assert i.position.y < GroundHeight;
    } else if delta < 0.0 {
      NegativeProduct(delta * FrameRate, a.velocity.y);
      assert i.position.y < GroundHeight;
    }
    assert c.velocity == b.velocity;
  }

  /** From rest with no key held, the body stops completely within `n` ticks once its
      squared speed is below `0.000001 * (1 + 0.2 * n)`. */
  lemma {:induction false} IdleSettlesWithin(b: Body, delta: real, n: nat)
    requires Resting(b) && n >= 1
    requires LenSq(b.velocity) < SnapLenSq * (1.0 + 0.2 * n as real)
    ensures Ticks(b, Zero, delta, n).velocity == Zero
    decreases n
  {
    var r := StepWith(b, Zero, delta);
    IdleTick(b, delta);
    if n > 1 {
      if r.velocity != Zero {
        SettleStep(LenSq(b.velocity), n);
      }
      IdleSettlesWithin(r, delta, n - 1);
    }
  }

  /** One damped tick buys one tick of the bound: `0.81 * (1 + 0.2n) <= 1 + 0.2(n - 1)`. */
  lemma SettleStep(lenSq: real, n: nat)
    requires n > 1 && lenSq < SnapLenSq * (1.0 + 0.2 * n as real)
    ensures Damping * Damping * lenSq < SnapLenSq * (1.0 + 0.2 * (n - 1) as real)
  {
    var bound := SnapLenSq * (1.0 + 0.2 * n as real);
    assert Damping * Damping * lenSq < Damping * Damping * bound;
    assert Damping * Damping * bound <= SnapLenSq * (1.0 + 0.2 * (n - 1) as real);
  }

  /** A bound on the ticks an idle body needs to stop, from its squared speed. */
  function SettleBound(lenSq: real): (n: nat)
    requires lenSq >= 0.0
    ensures n >= 1
    ensures lenSq < SnapLenSq * (1.0 + 0.2 * n as real)
  {
    (lenSq * 5000000.0).Floor + 1
  }

  /** Damping convergence: a resting body left alone, at any fixed step size, comes to an
      exact stop after finitely many ticks rather than drifting forever. */
  lemma IdleVelocityReachesZero(b: Body, delta: real)
    requires Resting(b)
    ensures Ticks(b, Zero, delta, SettleBound(LenSq(b.velocity))).velocity == Zero
  {
    IdleSettlesWithin(b, delta, SettleBound(LenSq(b.velocity)));
  }
}
