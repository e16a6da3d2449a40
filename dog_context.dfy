/** The dog's context (src/game/dog/context.rs): animation frame and position, advanced
    by value. The dog states also read and write a velocity and call helpers that this
    snapshot of the file does not define; those are declared here without definitions. */
module DogContexts {
  import opened Ints
  import opened Geometry

  datatype DogContext = DogContext(frame: U8, position: Point, velocity: Point) {

    /** One tick for an animation of `frameCount` frames: the frame counter wraps back to 0
        and the dog moves 4 to the right (an `i16` addition). */
    function Update(frameCount: U8): (r: DogContext)
      ensures r.frame <= frameCount
      ensures frame < frameCount ==> r.frame == frame + 1
      ensures frame >= frameCount ==> r.frame == 0
      ensures r.position.x == Wrap16(position.x + 4)
      ensures InI16(position.x + 4) ==> r.position.x == position.x + 4
      ensures r.position.y == position.y && r.velocity == velocity
    {
      var f := if frame < frameCount then frame + 1 else 0;
      this.(frame := f, position := position.(x := Wrap16(position.x + 4)))
    }
  }

  /** The context `DogContext::new(frame, position)` builds; the velocity it starts with
      is not part of this model. */
  function New(frame: U8, position: Point): (c: DogContext)
    ensures c.frame == frame && c.position == position
  {
    DogContext(frame, position, INITIAL_VELOCITY)
  }

  const INITIAL_VELOCITY: Point

  /** Context constants and helpers the states use; not defined in this snapshot. */
  const JUMP_SPEED: I16
  const RUNNING_FRAMES: U8
  const JUMPING_FRAMES: U8
  const DOG_FLOOR: I16

  const ResetFrame: DogContext -> DogContext
  const SetOn: (DogContext, I16) -> DogContext
  const SetFloor: (DogContext, I16) -> DogContext
  const Floor: DogContext -> I16
  const ToggleDirection: DogContext -> DogContext

  /** `n` ticks with the same frame count. */
  function UpdateTimes(c: DogContext, frameCount: U8, n: nat): DogContext {
    if n == 0 then c else UpdateTimes(c, frameCount, n - 1).Update(frameCount)
  }

  /** Without wrap-around, `n` ticks move the dog exactly `4 n` to the right and leave its
      height and velocity alone. */
  lemma {:induction false} UpdatesAdvance(c: DogContext, frameCount: U8, n: nat)
    requires c.position.x + 4 * n <= I16_MAX
    ensures UpdateTimes(c, frameCount, n).position == Point(c.position.x + 4 * n, c.position.y)
    ensures UpdateTimes(c, frameCount, n).velocity == c.velocity
  {
    if n > 0 {
      UpdatesAdvance(c, frameCount, n - 1);
    }
  }
}
