/** The runner's physics context (src/game/red_hat_boy/context.rs): animation frame,
    position and velocity, advanced by value. The audio handle and sound effects are
    not part of the model. */
module BoyContext {
  import opened Ints
  import opened Geometry
  import Game

  const FLOOR: I16 := 479
  const PLAYER_HEIGHT: I16 := Game.HEIGHT - FLOOR

  const GRAVITY: I16 := 1
  const RUNNING_SPEED: I16 := 4
  const TERMINAL_VELOCITY: I16 := 20

  datatype RedHatBoyContext = RedHatBoyContext(frame: U8, position: Point, velocity: Point) {

    /** Restarts the animation; position and velocity stay. */
    function ResetFrame(): (r: RedHatBoyContext)
      ensures r.frame == 0
      ensures r.position == position && r.velocity == velocity
    {
      this.(frame := 0)
    }

    /** Speeds up by RUNNING_SPEED (an `i16` addition). */
    function RunRight(): (r: RedHatBoyContext)
      ensures InI16(velocity.x + RUNNING_SPEED) ==> r.velocity.x == velocity.x + 4
      ensures r.velocity.x == Wrap16(velocity.x + RUNNING_SPEED)
      ensures r.velocity.y == velocity.y && r.position == position && r.frame == frame
    {
      this.(velocity := velocity.(x := Wrap16(velocity.x + RUNNING_SPEED)))
    }

    /** Stands the runner on the surface at height `position`: its top goes PLAYER_HEIGHT above. */
    function SetOn(position: I16): (r: RedHatBoyContext)
      ensures InI16(position - PLAYER_HEIGHT) ==> r.position.y == position - 121
      ensures r.position.y == Wrap16(position - PLAYER_HEIGHT)
      ensures r.position.x == this.position.x && r.velocity == velocity && r.frame == frame
    {
      this.(position := this.position.(y := Wrap16(position - PLAYER_HEIGHT)))
    }

    function SetVerticalVelocity(y: I16): (r: RedHatBoyContext)
      ensures r.velocity.y == y
      ensures r.velocity.x == velocity.x && r.position == position && r.frame == frame
    {
      this.(velocity := velocity.(y := y))
    }

    function Stop(): (r: RedHatBoyContext)
      ensures r.velocity == Point(0, 0)
      ensures r.position == position && r.frame == frame
    {
      this.(velocity := Point(0, 0))
    }

    /** One physics tick for an animation of `frameCount` frames: gravity up to the
        terminal velocity, the frame counter wraps back to 0, the runner falls by the new
        vertical velocity and is clamped to the floor. */
    function Update(frameCount: U8): (r: RedHatBoyContext)
      ensures velocity.y < TERMINAL_VELOCITY ==> r.velocity.y == velocity.y + GRAVITY
      ensures velocity.y >= TERMINAL_VELOCITY ==> r.velocity.y == velocity.y
      ensures velocity.y <= TERMINAL_VELOCITY ==> r.velocity.y <= TERMINAL_VELOCITY
      ensures r.frame <= frameCount
      ensures frame < frameCount ==> r.frame == frame + 1
      ensures frame >= frameCount ==> r.frame == 0
      ensures r.position.y <= FLOOR
      ensures InI16(position.y + r.velocity.y) ==>
        r.position.y == if position.y + r.velocity.y > FLOOR then FLOOR else position.y + r.velocity.y
      ensures r.position.x == position.x && r.velocity.x == velocity.x
    {
      var vy := if velocity.y < TERMINAL_VELOCITY then velocity.y + GRAVITY else velocity.y;
      var f := if frame < frameCount then frame + 1 else 0;
      var y := Wrap16(position.y + vy);
      RedHatBoyContext(f, Point(position.x, if y > FLOOR then FLOOR else y), velocity.(y := vy))
    }
  }

  /** `n` ticks with the same frame count. */
  function UpdateTimes(c: RedHatBoyContext, frameCount: U8, n: nat): RedHatBoyContext {
    if n == 0 then c else UpdateTimes(c, frameCount, n - 1).Update(frameCount)
  }

  /** From frame 0 the animation counter reads `n` after `n <= frameCount` ticks ... */
  lemma {:induction false} FrameCounts(c: RedHatBoyContext, frameCount: U8, n: nat)
    requires c.frame == 0 && n <= frameCount
    ensures UpdateTimes(c, frameCount, n).frame == n
  {
    if n > 0 {
      FrameCounts(c, frameCount, n - 1);
    }
  }

  /** ... and is back at 0 on the next tick, so the animation loops every `frameCount + 1` ticks. */
  lemma FrameWraps(c: RedHatBoyContext, frameCount: U8)
    requires c.frame == 0
    ensures UpdateTimes(c, frameCount, frameCount + 1).frame == 0
  {
    FrameCounts(c, frameCount, frameCount);
  }

  /** Starting at or below the terminal velocity, `n` ticks add `n` to the vertical
      velocity until it reaches TERMINAL_VELOCITY, where it stays. */
  lemma {:induction false} VelocityApproachesTerminal(c: RedHatBoyContext, frameCount: U8, n: nat)
    requires c.velocity.y <= TERMINAL_VELOCITY
    ensures UpdateTimes(c, frameCount, n).velocity.y ==
      if c.velocity.y + n < TERMINAL_VELOCITY then c.velocity.y + n else TERMINAL_VELOCITY
  {
    if n > 0 {
      VelocityApproachesTerminal(c, frameCount, n - 1);
    }
  }
}
