/**
 * Sequences of callbacks. The event loop delivers timer ticks and mouse
 * events in any order; a run applies them one after another. The lemmas
 * say what holds after every run: the handler invariant, the horizontal
 * bounds, the freeze while dragged, and the animation cycle.
 */
module PetRuns {
  import opened PetModel

  /** One callback invocation; a behaviour tick carries the random draw. */
  datatype Event =
    | BehaviorTick(choice: nat)
    | MoveTick
    | AnimationTick
    | Press(button: Button)
    | Release

  predicate ValidEvent(e: Event) {
    e.BehaviorTick? ==> e.choice < |Behaviors|
  }

  predicate ValidEvents(es: seq<Event>) {
    forall i :: 0 <= i < |es| ==> ValidEvent(es[i])
  }

  /** Events the timers deliver (no mouse input). */
  predicate TimerEvent(e: Event) {
    e.BehaviorTick? || e.MoveTick? || e.AnimationTick?
  }

  predicate TimerEvents(es: seq<Event>) {
    forall i :: 0 <= i < |es| ==> TimerEvent(es[i])
  }

  function Step(p: Pet, e: Event, screenWidth: int): Pet
    requires ValidEvent(e)
  {
    match e
    case BehaviorTick(choice) => RandomBehavior(p, choice)
    case MoveTick => MovePet(p, screenWidth)
    case AnimationTick => Animate(p)
    case Press(button) => MousePress(p, button)
    case Release => MouseRelease(p)
  }

  function Run(p: Pet, es: seq<Event>, screenWidth: int): Pet
    requires ValidEvents(es)
    decreases |es|
  {
    if es == [] then p else Run(Step(p, es[0], screenWidth), es[1..], screenWidth)
  }

  /** n animation ticks in a row. */
  function AnimationTicks(n: nat): (es: seq<Event>)
    ensures |es| == n && ValidEvents(es)
  {
    seq(n, _ => AnimationTick)
  }

  /** Every callback keeps the direction coupled to the label and the frame in range. */
  lemma StepPreservesInvariant(p: Pet, e: Event, screenWidth: int)
    requires ValidEvent(e) && Invariant(p)
    ensures Invariant(Step(p, e, screenWidth))
  {
  }

  /** The direction stays coupled to the label through every run. */
  lemma {:induction false} RunPreservesCoupled(p: Pet, es: seq<Event>, screenWidth: int)
    requires ValidEvents(es) && Coupled(p)
    ensures Coupled(Run(p, es, screenWidth))
    decreases |es|
  {
    if es != [] {
      RunPreservesCoupled(Step(p, es[0], screenWidth), es[1..], screenWidth);
    }
  }

  /** Once the frame counter is in range with the blink flag tied to it, it stays so. */
  lemma {:induction false} RunPreservesFrameOk(p: Pet, es: seq<Event>, screenWidth: int)
    requires ValidEvents(es) && FrameOk(p)
    ensures FrameOk(Run(p, es, screenWidth))
    decreases |es|
  {
    if es != [] {
      RunPreservesFrameOk(Step(p, es[0], screenWidth), es[1..], screenWidth);
    }
  }

  lemma RunPreservesInvariant(p: Pet, es: seq<Event>, screenWidth: int)
    requires ValidEvents(es) && Invariant(p)
    ensures Invariant(Run(p, es, screenWidth))
  {
    RunPreservesCoupled(p, es, screenWidth);
    RunPreservesFrameOk(p, es, screenWidth);
  }

  /** Every state reachable from the widget's set-up satisfies the invariant. */
  lemma ReachableInvariant(screenWidth: int, screenHeight: int, es: seq<Event>)
    requires ValidEvents(es)
    ensures Invariant(Run(Initial(screenWidth, screenHeight), es, screenWidth))
  {
    RunPreservesInvariant(Initial(screenWidth, screenHeight), es, screenWidth);
  }

  /**
   * On a screen at least as wide as the pet, a pet whose window is on
   * screen stays on screen, and no callback changes its height.
   */
  lemma {:induction false} RunKeepsOnScreen(p: Pet, es: seq<Event>, screenWidth: int)
    requires ValidEvents(es)
    requires screenWidth >= PetSize && InBounds(p.x, screenWidth)
    ensures InBounds(Run(p, es, screenWidth).x, screenWidth)
    ensures Run(p, es, screenWidth).y == p.y
    decreases |es|
  {
    if es != [] {
      RunKeepsOnScreen(Step(p, es[0], screenWidth), es[1..], screenWidth);
    }
  }

  /**
   * A pet set up on a screen at least twice its width, less one pixel,
   * never leaves it (drag moves are not among the events).
   */
  lemma ReachableOnScreen(screenWidth: int, screenHeight: int, es: seq<Event>)
    requires ValidEvents(es)
    requires screenWidth >= 2 * PetSize - 1
    ensures InBounds(Run(Initial(screenWidth, screenHeight), es, screenWidth).x, screenWidth)
    ensures Run(Initial(screenWidth, screenHeight), es, screenWidth).y == screenHeight - StartHeight
  {
    RunKeepsOnScreen(Initial(screenWidth, screenHeight), es, screenWidth);
  }

  /**
   * While the pet is being dragged the timers change nothing but the
   * animation frame and the blink flag.
   */
  lemma {:induction false} DraggedTimersOnlyAnimate(p: Pet, es: seq<Event>, screenWidth: int)
    requires ValidEvents(es) && TimerEvents(es)
    requires p.beingDragged
    ensures Run(p, es, screenWidth).(frame := p.frame, eyeBlink := p.eyeBlink) == p
    decreases |es|
  {
    if es != [] {
      var q := Step(p, es[0], screenWidth);
      assert TimerEvent(es[0]);
      assert q.(frame := p.frame, eyeBlink := p.eyeBlink) == p;
      DraggedTimersOnlyAnimate(q, es[1..], screenWidth);
    }
  }

  /** After n animation ticks the frame has advanced by n modulo FramePeriod. */
  lemma {:induction false} AnimationCycle(p: Pet, n: nat, screenWidth: int)
    requires 0 <= p.frame < FramePeriod
    ensures Run(p, AnimationTicks(n), screenWidth).frame == (p.frame + n) % FramePeriod
    ensures n > 0 ==> Run(p, AnimationTicks(n), screenWidth).(frame := p.frame, eyeBlink := p.eyeBlink) == p
    decreases n
  {
    if n > 0 {
      var q := Animate(p);
      assert AnimationTicks(n)[1..] == AnimationTicks(n - 1);
      assert Run(p, AnimationTicks(n), screenWidth) == Run(q, AnimationTicks(n - 1), screenWidth);
      AnimationCycle(q, n - 1, screenWidth);
      if n - 1 == 0 {
        assert AnimationTicks(0) == [];
      }
    }
  }

  /**
   * The eyes close on exactly one tick of every FramePeriod: after n > 0
   * animation ticks they are closed if and only if n lands on BlinkFrame.
   */
  lemma BlinkOncePerCycle(p: Pet, n: nat, screenWidth: int)
    requires n > 0
    ensures Run(p, AnimationTicks(n), screenWidth).eyeBlink <==> (p.frame + n) % FramePeriod == BlinkFrame
  {
    var q := Animate(p);
    assert AnimationTicks(n)[1..] == AnimationTicks(n - 1);
    assert Run(p, AnimationTicks(n), screenWidth) == Run(q, AnimationTicks(n - 1), screenWidth);
    AnimationCycle(q, n - 1, screenWidth);
    RunPreservesFrameOk(q, AnimationTicks(n - 1), screenWidth);
  }
}
