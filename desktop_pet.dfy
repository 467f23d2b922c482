/**
 * The pet widget: an object whose timer and mouse callbacks assign its
 * fields in place. Each method is specified by the function of PetModel
 * that describes the same callback on values, and keeps Valid().
 */
module PetWidget {
  import opened PetModel

  class DesktopPet {
    const screenWidth: int
    const screenHeight: int

    var state: Behavior
    var direction: int
    var frame: int
    var eyeBlink: bool
    var beingDragged: bool
    // the top-left corner of the pet window on screen
    var x: int
    var y: int

    /** The fields as one value of the model. */
    function View(): Pet
      reads this
    {
      Pet(state, direction, frame, eyeBlink, beingDragged, x, y)
    }

    ghost predicate Valid()
      reads this
    {
      Invariant(View())
    }

    /** The widget's set-up: idle, facing right, centred horizontally, StartHeight above the bottom. */
    constructor (screenWidth: int, screenHeight: int)
      ensures Valid()
      ensures this.screenWidth == screenWidth && this.screenHeight == screenHeight
      ensures View() == Initial(screenWidth, screenHeight)
    {
      this.screenWidth := screenWidth;
      this.screenHeight := screenHeight;
      x := screenWidth / 2;
      y := screenHeight - StartHeight;
      state := Idle;
      frame := 0;
      direction := 1;
      eyeBlink := false;
      beingDragged := false;
    }

    /** Behaviour timer callback; `choice` is the index the random draw picked. */
    method RandomBehavior(choice: nat)
      requires Valid()
      requires choice < |Behaviors|
      modifies this
      ensures Valid()
      ensures View() == PetModel.RandomBehavior(old(View()), choice)
    {
      if beingDragged {
        return;
      }
      state := Behaviors[choice];
      if state == WalkLeft {
        direction := -1;
      } else if state == WalkRight {
        direction := 1;
      }
    }

    /** Movement timer callback. */
    method MovePet()
      requires Valid()
      modifies this
      ensures Valid()
      ensures View() == PetModel.MovePet(old(View()), screenWidth)
    {
      if beingDragged {
        return;
      }
      if state == WalkLeft || state == WalkRight {
        var newX := x + StepPixels * direction;
        if newX < 0 {
          newX := 0;
          direction := 1;
          state := WalkRight;
        } else if newX > screenWidth - PetSize {
          newX := screenWidth - PetSize;
          direction := -1;
          state := WalkLeft;
        }
        x := newX;
      }
    }

    /** Animation timer callback (frame counter and blink flag). */
    method Animate()
      requires Valid()
      modifies this
      ensures Valid()
      ensures View() == PetModel.Animate(old(View()))
    {
      frame := (frame + 1) % FramePeriod;
      eyeBlink := frame == BlinkFrame;
    }

    method MousePressEvent(button: Button)
      requires Valid()
      modifies this
      ensures Valid()
      ensures View() == PetModel.MousePress(old(View()), button)
    {
      if button == LeftButton {
        beingDragged := true;
        state := Idle;
      }
    }

    method MouseReleaseEvent()
      requires Valid()
      modifies this
      ensures Valid()
      ensures View() == PetModel.MouseRelease(old(View()))
    {
      beingDragged := false;
    }
  }

  /**
   * A drag seen through the widget's methods: pressing the left button
   * freezes the label and the position against the behaviour and movement
   * timers until the button is released.
   */
  method DragScenario(pet: DesktopPet, choice: nat)
    requires pet.Valid()
    requires choice < |Behaviors|
    modifies pet
    ensures pet.Valid()
    ensures pet.state == Idle && !pet.beingDragged
    ensures pet.x == old(pet.x) && pet.y == old(pet.y) && pet.direction == old(pet.direction)
  {
    pet.MousePressEvent(LeftButton);
    pet.RandomBehavior(choice);
    pet.MovePet();
    pet.Animate();
    pet.MouseReleaseEvent();
  }
}
