/** The dog as the game holds it (src/game/dog.rs): a sprite sheet and the current
    state of the dog's machine, which every command replaces by one transition. */
module Dogs {
  import opened Ints
  import opened Text
  import opened Geometry
  import opened Sheets
  import Images
  import Events
  import DogRunning
  import opened DogContexts
  import opened DogMachine

  class Dog {
    const image: Images.HtmlImage
    const spriteSheet: Sheet
    var stateMachine: DogStateMachine

    /** A new dog runs from its starting point. */
    constructor (spriteSheet: Sheet, image: Images.HtmlImage)
      ensures stateMachine == Running(DogRunning.New())
      ensures this.spriteSheet == spriteSheet && this.image == image
    {
      this.image := image;
      this.spriteSheet := spriteSheet;
      stateMachine := Running(DogRunning.New());
    }

    method Flee()
      modifies this
      ensures stateMachine == old(stateMachine).Transition(Event.Flee)
    {
      stateMachine := stateMachine.Transition(Event.Flee);
    }

    method LandOn(position: I16)
      modifies this
      ensures stateMachine == old(stateMachine).Transition(Land(position))
    {
      stateMachine := stateMachine.Transition(Land(position));
    }

    /** Reacts to a surface at height `position` ahead: a jumping dog lands on it only when
        falling with its bottom below it; a dog on the floor jumps; any other dog lands. */
    method Navigate(position: I16)
      modifies this
      ensures stateMachine == NavigateResult(old(stateMachine), old(BoundingBox()), position)
    {
      if stateMachine.Jumping? {
        if stateMachine.Context().velocity.y > 0 && BoundingBox().Bottom() > position {
          LandOn(position);
        }
      } else if BoundingBox().Top() == DOG_FLOOR {
        stateMachine := stateMachine.Transition(Event.Jump);
      } else {
        LandOn(position);
      }
    }

    /** `Dog::reset`: a new dog on the same sheet and image. */
    method Reset()
      modifies this
      ensures stateMachine == Running(DogRunning.New())
    {
      stateMachine := Running(DogRunning.New());
    }

    method Worry()
      modifies this
      ensures stateMachine == old(stateMachine).Transition(Event.Worry)
    {
      stateMachine := stateMachine.Transition(Event.Worry);
    }

    /** The dog is never inset: its collision box is where its sprite is drawn. */
    function BoundingBox(): (r: Rect)
      reads this
      ensures r == DestinationBox()
    {
      DestinationBox()
    }

    method Update()
      modifies this
      ensures stateMachine == old(stateMachine).Transition(Event.Update)
    {
      stateMachine := stateMachine.UpdateMachine();
    }

    /** The sheet's cell for the current frame name, one cell per group of three frames. */
    function CurrentSprite(): (cell: Cell)
      reads this
      ensures cell == spriteSheet(SpriteName(stateMachine.Context().frame))
    {
      spriteSheet(FrameName())
    }

    /** The context position shifted by the sprite's source offset, with the sprite's size. */
    function DestinationBox(): (r: Rect)
      reads this
      ensures r.Left() == Wrap16(stateMachine.Context().position.x + CurrentSprite().spriteSourceSize.x)
      ensures r.Top() == Wrap16(stateMachine.Context().position.y + CurrentSprite().spriteSourceSize.y)
      ensures r.width == CurrentSprite().frame.w && r.height == CurrentSprite().frame.h
    {
      var sprite := CurrentSprite();
      NewFromXY(
        Wrap16(stateMachine.Context().position.x + sprite.spriteSourceSize.x),
        Wrap16(stateMachine.Context().position.y + sprite.spriteSourceSize.y),
        sprite.frame.w, sprite.frame.h)
    }

    function FrameName(): (name: string)
      reads this
      ensures name == SpriteName(stateMachine.Context().frame)
    {
      SpriteName(stateMachine.Context().frame)
    }

    /** `Dog::moving_left`, `Dog::moving_right` and `Dog::name`, not shown. */
    function MovingLeft(): bool
      reads this
    {
      DogMovingLeft(stateMachine)
    }

    function MovingRight(): bool
      reads this
    {
      DogMovingRight(stateMachine)
    }

    /** `Dog::process_event`, not shown: the machine is replaced by its reaction. */
    method ProcessEvent(event: Events.GameEvent)
      modifies this
      ensures stateMachine == DogProcessEvent(old(stateMachine), event)
    {
      stateMachine := DogProcessEvent(stateMachine, event);
    }
  }

  const DogMovingLeft: DogStateMachine -> bool
  const DogMovingRight: DogStateMachine -> bool
  const DogProcessEvent: (DogStateMachine, Events.GameEvent) -> DogStateMachine
  const DOG_NAME: string

  /** The state `navigate` leaves the machine in, given the dog's box before the call. */
  function NavigateResult(m: DogStateMachine, box: Rect, position: I16): (r: DogStateMachine)
    ensures m.Jumping? && !(m.Context().velocity.y > 0 && box.Bottom() > position) ==> r == m
    ensures !m.Jumping? && box.Top() == DOG_FLOOR ==> r == m.Transition(Event.Jump)
    ensures r == m || r == m.Transition(Event.Jump) || r == m.Transition(Land(position))
  {
    if m.Jumping? then
      if m.Context().velocity.y > 0 && box.Bottom() > position then m.Transition(Land(position)) else m
    else if box.Top() == DOG_FLOOR then m.Transition(Event.Jump)
    else m.Transition(Land(position))
  }

  /** A plainly jumping dog that navigates either lands, running, or stays as it was;
      navigation never makes it jump again. */
  lemma NavigateWhileJumping(m: DogStateMachine, box: Rect, position: I16)
    requires m.Jumping?
    ensures NavigateResult(m, box, position).Running? || NavigateResult(m, box, position) == m
    ensures NavigateResult(m, box, position).Running? <==> m.Context().velocity.y > 0 && box.Bottom() > position
  {
  }

  /** "rr_<nnn>.png", where the three-digit, zero-padded sprite number advances every
      third frame and starts at 0. */
  function SpriteName(frame: U8): (name: string)
    ensures |name| == 10 && name[..3] == "rr_" && name[6..] == ".png"
    ensures AllDigits(name[3..6]) && DigitsValue(name[3..6]) == frame / 3
  {
    var digits := ZeroPad3(frame / 3);
    assert ("rr_" + digits + ".png")[3..6] == digits;
    "rr_" + digits + ".png"
  }

  /** Frames show the same sprite exactly when they are in the same group of three. */
  lemma SpriteNameIdentifiesGroup(f1: U8, f2: U8)
    ensures SpriteName(f1) == SpriteName(f2) <==> f1 / 3 == f2 / 3
  {
  }
}
