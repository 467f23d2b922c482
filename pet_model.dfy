/**
 * The behaviour state machine of the desktop pet, as values.
 *
 * Each callback of the pet widget (behaviour timer, movement timer,
 * animation timer, mouse press and release) is a function from the pet's
 * state before the callback to its state after it. The class in
 * desktop_pet.dfy updates its fields in place and is specified by these
 * functions; the lemmas in pet_runs.dfy reason about sequences of them.
 */
module PetModel {

  /** The activity labels the pet can be in. */
  datatype Behavior = Idle | WalkLeft | WalkRight | Jump

  /** Mouse buttons, as far as the press handler distinguishes them. */
  datatype Button = LeftButton | OtherButton

  /** The list the behaviour timer draws from, uniformly at random. */
  const Behaviors: seq<Behavior> := [Idle, WalkLeft, WalkRight, Idle, Idle, Jump]

  /** The pet window is PetSize x PetSize pixels. */
  const PetSize: int := 80
  /** Pixels travelled per movement tick. */
  const StepPixels: int := 3
  /** The animation frame counter wraps at this value. */
  const FramePeriod: int := 10
  /** The frame on which the eyes are closed. */
  const BlinkFrame: int := 5
  /** The pet starts this many pixels above the bottom of the screen. */
  const StartHeight: int := 150

  /**
   * The state the pet's handlers read and write: the activity label, the
   * facing direction (1 right, -1 left), the animation frame, the blink
   * flag, the drag flag, and the window position.
   */
  datatype Pet = Pet(
    state: Behavior,
    direction: int,
    frame: int,
    eyeBlink: bool,
    beingDragged: bool,
    x: int,
    y: int)

  predicate IsWalking(b: Behavior) {
    b == WalkLeft || b == WalkRight
  }

  /** The facing direction is a unit and agrees with a walking label. */
  predicate Coupled(p: Pet) {
    && (p.direction == 1 || p.direction == -1)
    && (p.state == WalkLeft ==> p.direction == -1)
    && (p.state == WalkRight ==> p.direction == 1)
  }

  /** The frame counter is within one period and the eyes blink on BlinkFrame only. */
  predicate FrameOk(p: Pet) {
    0 <= p.frame < FramePeriod && (p.eyeBlink <==> p.frame == BlinkFrame)
  }

  /** What every handler keeps. */
  predicate Invariant(p: Pet) {
    Coupled(p) && FrameOk(p)
  }

  /** The largest x at which the whole pet window is on screen. */
  function MaxX(screenWidth: int): int {
    screenWidth - PetSize
  }

  predicate InBounds(x: int, screenWidth: int) {
    0 <= x <= MaxX(screenWidth)
  }

  function Dist(a: int, b: int): nat {
    if a <= b then b - a else a - b
  }

  /** The point of [lo, hi] nearest to v. */
  function Clamp(v: int, lo: int, hi: int): (r: int)
    requires lo <= hi
    ensures lo <= r <= hi
    ensures forall z :: lo <= z <= hi ==> Dist(r, v) <= Dist(z, v)
  {
    if v < lo then lo else if v > hi then hi else v
  }

  /** The state set up when the widget is created. */
  function Initial(screenWidth: int, screenHeight: int): (p: Pet)
    ensures Invariant(p)
    ensures p.state == Idle && p.direction == 1 && !p.beingDragged
    ensures screenWidth >= 2 * PetSize - 1 <==> InBounds(p.x, screenWidth)
  {
    Pet(Idle, 1, 0, false, false, screenWidth / 2, screenHeight - StartHeight)
  }

  /**
   * The behaviour timer: unless the pet is being dragged, take the label
   * at index `choice` of Behaviors (the random draw) and face the way a
   * walking label points.
   */
  function RandomBehavior(p: Pet, choice: nat): (r: Pet)
    requires choice < |Behaviors|
    ensures p.beingDragged ==> r == p
    ensures !p.beingDragged ==> r.state in Behaviors && r.state == Behaviors[choice]
    ensures !p.beingDragged && r.state == WalkLeft ==> r.direction == -1
    ensures !p.beingDragged && r.state == WalkRight ==> r.direction == 1
    ensures !IsWalking(r.state) ==> r.direction == p.direction
    ensures r.(state := p.state, direction := p.direction) == p
    ensures Coupled(p) ==> Coupled(r)
  {
    if p.beingDragged then p
    else
      var s := Behaviors[choice];
      p.(state := s,
         direction := if s == WalkLeft then -1 else if s == WalkRight then 1 else p.direction)
  }

  /** Where one movement tick would put the pet before the edge checks. */
  function StepTarget(p: Pet): int {
    p.x + StepPixels * p.direction
  }

  /** The movement timer acts on a walking pet that is not being dragged. */
  predicate Moves(p: Pet) {
    !p.beingDragged && IsWalking(p.state)
  }

  /**
   * The movement timer: a walking pet that is not being dragged steps
   * StepPixels in its direction; a step past the left edge stops at 0 and
   * turns right, a step past the right edge stops at MaxX and turns left.
   */
  function MovePet(p: Pet, screenWidth: int): (r: Pet)
    ensures !Moves(p) ==> r == p
    ensures r.(state := p.state, direction := p.direction, x := p.x) == p
    ensures Moves(p) && screenWidth >= PetSize ==>
      r.x == Clamp(StepTarget(p), 0, MaxX(screenWidth)) && InBounds(r.x, screenWidth)
    ensures Moves(p) && StepTarget(p) < 0 ==>
      r.x == 0 && r.direction == 1 && r.state == WalkRight
    ensures Moves(p) && 0 <= StepTarget(p) && StepTarget(p) > MaxX(screenWidth) ==>
      r.x == MaxX(screenWidth) && r.direction == -1 && r.state == WalkLeft
    ensures Moves(p) && InBounds(StepTarget(p), screenWidth) ==>
      r.x == StepTarget(p) && r.direction == p.direction && r.state == p.state
    ensures IsWalking(p.state) ==> IsWalking(r.state)
    ensures Coupled(p) ==> Coupled(r)
  {
    if p.beingDragged || !IsWalking(p.state) then p
    else
      var newX := StepTarget(p);
      if newX < 0 then
        p.(x := 0, direction := 1, state := WalkRight)
      else if newX > MaxX(screenWidth) then
        p.(x := MaxX(screenWidth), direction := -1, state := WalkLeft)
      else
        p.(x := newX)
  }

  /**
   * The animation timer: advance the frame counter by one modulo
   * FramePeriod and close the eyes exactly on BlinkFrame. It runs whether
   * or not the pet is being dragged.
   */
  function Animate(p: Pet): (r: Pet)
    ensures 0 <= r.frame < FramePeriod
    ensures (r.frame - p.frame - 1) % FramePeriod == 0
    ensures r.eyeBlink <==> r.frame == BlinkFrame
    ensures r.(frame := p.frame, eyeBlink := p.eyeBlink) == p
  {
    var f := (p.frame + 1) % FramePeriod;
    p.(frame := f, eyeBlink := f == BlinkFrame)
  }

  /** A left-button press starts a drag and makes the pet idle; other buttons do nothing. */
  function MousePress(p: Pet, button: Button): (r: Pet)
    ensures button == LeftButton ==> r.beingDragged && r.state == Idle
    ensures button != LeftButton ==> r == p
    ensures r.(state := p.state, beingDragged := p.beingDragged) == p
    ensures Coupled(p) ==> Coupled(r)
  {
    if button == LeftButton then p.(beingDragged := true, state := Idle) else p
  }

  /** Any button release ends the drag and leaves the rest of the state alone. */
  function MouseRelease(p: Pet): (r: Pet)
    ensures !r.beingDragged
    ensures r.(beingDragged := p.beingDragged) == p
  {
    p.(beingDragged := false)
  }
}
