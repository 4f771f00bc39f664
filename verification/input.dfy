/** Raw input state shared by the three controller copies: the key map written by the
    keydown/keyup handlers and the yaw/pitch accumulator written by the mouse-move
    handler. */
module Input {

  /** The handlers' `keyState` object: lower-cased key name to pressed flag. A key that
      was never pressed is absent, which the step reads as "not held". */
  type KeyState = map<string, bool>

  predicate Held(keys: KeyState, k: string) {
    k in keys && keys[k]
  }

  predicate IsUpper(c: char) {
    'A' <= c <= 'Z'
  }

  function LowerChar(c: char): char {
    if IsUpper(c) then (c as int + 32) as char else c
  }

  /** `event.key.toLowerCase()`, for ASCII letters: each upper-case letter becomes its
      lower-case partner, 32 code points on, and every other character is kept. */
  function Lower(s: string): (r: string)
    ensures |r| == |s|
    ensures forall i :: 0 <= i < |r| ==> !IsUpper(r[i])
    ensures forall i :: 0 <= i < |s| && IsUpper(s[i]) ==> r[i] as int == s[i] as int + 32
    ensures forall i :: 0 <= i < |s| && !IsUpper(s[i]) ==> r[i] == s[i]
  {
    if s == [] then [] else [LowerChar(s[0])] + Lower(s[1..])
  }

  lemma {:induction false} LowerIdempotent(s: string)
    ensures Lower(Lower(s)) == Lower(s)
  {
    if s != [] {
      LowerIdempotent(s[1..]);
    }
  }

  /** Two key names that differ only in the case of their letters. */
  predicate SameUpToCase(s: string, t: string) {
    |s| == |t| && forall i :: 0 <= i < |s| ==> LowerChar(s[i]) == LowerChar(t[i])
  }

  /** Key names that differ only in letter case lower-case to the same name, so a keydown
      reported as `W` and a keyup reported as `w` address the same entry. */
  lemma {:induction false} LowerIgnoresCase(s: string, t: string)
    requires SameUpToCase(s, t)
    ensures Lower(s) == Lower(t)
    decreases |s|
  {
    if s != [] {
      assert SameUpToCase(s[1..], t[1..]) by {
        forall i | 0 <= i < |s[1..]|
          ensures LowerChar(s[1..][i]) == LowerChar(t[1..][i])
        {
          assert s[1..][i] == s[i + 1] && t[1..][i] == t[i + 1];
        }
      }
      LowerIgnoresCase(s[1..], t[1..]);
    }
  }

  /** keydown: the key reads as held; every other key keeps its state. */
  function Press(keys: KeyState, k: string): (r: KeyState)
    ensures Held(r, k)
    ensures forall j :: j != k ==> (Held(r, j) <==> Held(keys, j))
  {
    keys[k := true]
  }

  /** keyup: the key reads as released; every other key keeps its state. */
  function Release(keys: KeyState, k: string): (r: KeyState)
    ensures !Held(r, k)
    ensures forall j :: j != k ==> (Held(r, j) <==> Held(keys, j))
  {
    keys[k := false]
  }

  /** Pressing and then releasing a key leaves it reading as it would had it never been
      pressed, and leaves every other key as it was. */
  lemma PressThenRelease(keys: KeyState, k: string)
    ensures !Held(Release(Press(keys, k), k), k)
    ensures forall j :: j != k ==> (Held(Release(Press(keys, k), k), j) <==> Held(keys, j))
  {
  }

  datatype Look = Look(yaw: real, pitch: real)

  const Sensitivity: real := 0.002

  /** The double nearest to pi/2, as `Math.PI / 2` evaluates; proofs use only that it is
      positive. */
  const HalfPi: real := 1.5707963267948966

  predicate PitchInRange(p: real) {
    -HalfPi <= p <= HalfPi
  }

  function Min(a: real, b: real): real {
    if a <= b then a else b
  }

  function Max(a: real, b: real): real {
    if a >= b then a else b
  }

  /** `Math.max(-PI/2, Math.min(PI/2, pitch))`. */
  function ClampPitch(p: real): (r: real)
    ensures PitchInRange(r)
    ensures PitchInRange(p) ==> r == p
    ensures p > HalfPi ==> r == HalfPi
    ensures p < -HalfPi ==> r == -HalfPi
  {
    Max(-HalfPi, Min(HalfPi, p))
  }

  /** The mouse-move handler: yaw and pitch both move against the pointer motion, scaled
      by the sensitivity; pitch is then clamped, yaw is not. */
  function MouseMove(look: Look, movementX: real, movementY: real): (r: Look)
    ensures PitchInRange(r.pitch)
    ensures r.yaw == look.yaw - movementX * Sensitivity
    ensures PitchInRange(look.pitch - movementY * Sensitivity) ==> r.pitch == look.pitch - movementY * Sensitivity
    ensures look.pitch - movementY * Sensitivity > HalfPi ==> r.pitch == HalfPi
    ensures look.pitch - movementY * Sensitivity < -HalfPi ==> r.pitch == -HalfPi
  {
    Look(look.yaw - movementX * Sensitivity, ClampPitch(look.pitch - movementY * Sensitivity))
  }

  datatype Motion = Motion(dx: real, dy: real)

  function MouseMoves(look: Look, moves: seq<Motion>): Look
    decreases |moves|
  {
    if moves == [] then look
    else MouseMoves(MouseMove(look, moves[0].dx, moves[0].dy), moves[1..])
  }

  function SumDx(moves: seq<Motion>): real
    decreases |moves|
  {
    if moves == [] then 0.0 else moves[0].dx + SumDx(moves[1..])
  }

  /** Over any run of mouse moves, pitch stays clamped and yaw is the unbounded running
      total of the horizontal motion. */
  lemma {:induction false} MouseMovesAccumulate(look: Look, moves: seq<Motion>)
    requires PitchInRange(look.pitch)
    ensures PitchInRange(MouseMoves(look, moves).pitch)
    ensures MouseMoves(look, moves).yaw == look.yaw - SumDx(moves) * Sensitivity
    decreases |moves|
  {
    if moves != [] {
      var next := MouseMove(look, moves[0].dx, moves[0].dy);
      MouseMovesAccumulate(next, moves[1..]);
    }
  }
}
