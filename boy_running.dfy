/** The running runner (src/game/red_hat_boy/states/running.rs). */
module BoyRunning {
  import opened Ints
  import opened Geometry
  import opened BoyContext
  import Game
  import opened BoyStates

  const RUN_FRAME_NAME: string := "Run"
  const RUNNING_FRAMES: U8 := 23
  const JUMP_SPEED: I16 := -25

  function FrameName(s: RedHatBoyState<Running>): (name: string)
    ensures name == RUN_FRAME_NAME
  {
    RUN_FRAME_NAME
  }

  /** Takes off upwards at JUMP_SPEED with the animation restarted (the jump sound is not modelled). */
  function Jump(s: RedHatBoyState<Running>): (r: RedHatBoyState<Jumping>)
    ensures r.context.velocity == Point(s.context.velocity.x, JUMP_SPEED)
    ensures r.context.frame == 0
    ensures r.context.position == s.context.position
  {
    RedHatBoyState(s.context.SetVerticalVelocity(JUMP_SPEED).ResetFrame(), Jumping)
  }

  /** Starts falling where it stands: animation restarted, both velocities zero. */
  function KnockOut(s: RedHatBoyState<Running>): (r: RedHatBoyState<Falling>)
    ensures r.context == RedHatBoyContext(0, s.context.position, Point(0, 0))
  {
    RedHatBoyState(s.context.ResetFrame().Stop(), Falling)
  }

  /** Keeps running on a surface at height `position`; the animation frame is kept. */
  function LandOn(s: RedHatBoyState<Running>, position: I16): (r: RedHatBoyState<Running>)
    ensures r.context.position == Point(s.context.position.x, Wrap16(position - PLAYER_HEIGHT))
    ensures r.context.frame == s.context.frame && r.context.velocity == s.context.velocity
  {
    RedHatBoyState(s.context.SetOn(position), Running)
  }

  /** Starts sliding with the animation restarted (the slide sound is not modelled). */
  function Slide(s: RedHatBoyState<Running>): (r: RedHatBoyState<Sliding>)
    ensures r.context == s.context.(frame := 0)
  {
    RedHatBoyState(s.context.ResetFrame(), Sliding)
  }

  function Update(s: RedHatBoyState<Running>): (r: RedHatBoyState<Running>)
    ensures r.context == s.context.Update(RUNNING_FRAMES)
    ensures r.context.frame <= RUNNING_FRAMES
  {
    RedHatBoyState(s.context.Update(RUNNING_FRAMES), Running)
  }

  /** Landing on the canvas bottom puts the runner's top at FLOOR. */
  lemma LandOnHeightIsFloor(s: RedHatBoyState<Running>)
    ensures LandOn(s, Game.HEIGHT).context.position.y == FLOOR
  {
  }
}
