/** The shooting target (`shooting/components/target.js`): four concentric rings whose
    radii are fixed data, placed at (0, 2, -20), and slid sideways by 0.2 per command
    within x in [-2, 2]. */
module Target {
  import opened Vectors

  datatype Target = Target(position: Vec3)

  const SlideStep: real := 0.2
  const MinX: real := -2.0
  const MaxX: real := 2.0

  /** The constructor's placement. */
  const Start: Target := Target(Vec3(0.0, 2.0, -20.0))

  predicate InRange(t: Target) {
    MinX <= t.position.x <= MaxX
  }

  /** The ring radii from the outer ring to the bullseye: white, red, blue, yellow. */
  function RingRadii(): (r: seq<real>)
    ensures |r| == 4
    ensures forall i, j :: 0 <= i < j < |r| ==> r[i] > r[j] > 0.0
    ensures r[0] == 2.0 && r[3] == 0.25
  {
    [2.0, 1.3, 0.6, 0.25]
  }

  /** `moveLeft()`: x drops by 0.2 but never below -2; y and z are untouched. */
  function MoveLeft(t: Target): (r: Target)
    ensures r.position.x >= MinX
    ensures t.position.x - SlideStep >= MinX ==> r.position.x == t.position.x - SlideStep
    ensures t.position.x - SlideStep < MinX ==> r.position.x == MinX
    ensures r.position.y == t.position.y && r.position.z == t.position.z
    ensures InRange(t) ==> InRange(r) && r.position.x <= t.position.x
  {
    var x := t.position.x - SlideStep;
    Target(t.position.(x := if x >= MinX then x else MinX))
  }

  /** `moveRight()`: x rises by 0.2 but never above 2; y and z are untouched. */
  function MoveRight(t: Target): (r: Target)
    ensures r.position.x <= MaxX
    ensures t.position.x + SlideStep <= MaxX ==> r.position.x == t.position.x + SlideStep
    ensures t.position.x + SlideStep > MaxX ==> r.position.x == MaxX
    ensures r.position.y == t.position.y && r.position.z == t.position.z
    ensures InRange(t) ==> InRange(r) && r.position.x >= t.position.x
  {
    var x := t.position.x + SlideStep;
    Target(t.position.(x := if x <= MaxX then x else MaxX))
  }

  /** Away from the clamp, one step right undoes one step left. */
  lemma MoveRightUndoesMoveLeft(t: Target)
    requires MinX + SlideStep <= t.position.x <= MaxX
    ensures MoveRight(MoveLeft(t)) == t
  {
  }

  datatype Command = Left | Right

  function Slide(t: Target, commands: seq<Command>): Target
    decreases |commands|
  {
    if commands == [] then t
    else Slide(if commands[0] == Left then MoveLeft(t) else MoveRight(t), commands[1..])
  }

  /** From the starting placement, or any in-range one, no sequence of slide commands
      takes the target out of [-2, 2] or changes its height or depth. */
  lemma {:induction false} SlideStaysInRange(t: Target, commands: seq<Command>)
    requires InRange(t)
    ensures InRange(Slide(t, commands))
    ensures Slide(t, commands).position.y == t.position.y
    ensures Slide(t, commands).position.z == t.position.z
    decreases |commands|
  {
    if commands != [] {
      var next := if commands[0] == Left then MoveLeft(t) else MoveRight(t);
      SlideStaysInRange(next, commands[1..]);
    }
  }

  lemma StartSlidesInRange(commands: seq<Command>)
    ensures InRange(Slide(Start, commands))
    ensures Slide(Start, commands).position.y == 2.0 && Slide(Start, commands).position.z == -20.0
  {
    SlideStaysInRange(Start, commands);
  }
}
