/** The runner before the game starts (src/game/red_hat_boy/states/idle.rs). */
module BoyIdle {
  import opened Ints
  import opened Geometry
  import opened BoyContext
  import opened BoyStates

  const STARTING_POINT: I16 := -20
  const IDLE_FRAME_NAME: string := "Idle"
  const IDLE_FRAMES: U8 := 29

  /** Standing still on the floor, just left of the canvas, at the first frame. */
  function New(): (s: RedHatBoyState<Idle>)
    ensures s.context.frame == 0
    ensures s.context.position == Point(STARTING_POINT, FLOOR)
    ensures s.context.velocity == Point(0, 0)
  {
    RedHatBoyState(RedHatBoyContext(0, Point(STARTING_POINT, FLOOR), Point(0, 0)), Idle)
  }

  function FrameName(s: RedHatBoyState<Idle>): (name: string)
    ensures name == IDLE_FRAME_NAME
  {
    IDLE_FRAME_NAME
  }

  /** Starts running: animation restarted, horizontal speed raised by RUNNING_SPEED. */
  function Run(s: RedHatBoyState<Idle>): (r: RedHatBoyState<Running>)
    ensures r.context.frame == 0
    ensures r.context.velocity.x == Wrap16(s.context.velocity.x + RUNNING_SPEED)
    ensures r.context.velocity.y == s.context.velocity.y
    ensures r.context.position == s.context.position
  {
    RedHatBoyState(s.context.ResetFrame().RunRight(), Running)
  }

  /** Stays idle; the context ticks with the idle animation length. */
  function Update(s: RedHatBoyState<Idle>): (r: RedHatBoyState<Idle>)
    ensures r.context == s.context.Update(IDLE_FRAMES)
    ensures r.context.frame <= IDLE_FRAMES
  {
    RedHatBoyState(s.context.Update(IDLE_FRAMES), Idle)
  }

  /** A new runner that starts running is on the floor at the starting point, at the first
      frame, moving right at RUNNING_SPEED. */
  lemma NewThenRun()
    ensures Run(New()).context == RedHatBoyContext(0, Point(-20, 479), Point(4, 0))
  {
  }

  /** Idling keeps the runner on the floor: with no vertical speed it stays at FLOOR. */
  lemma IdleStaysOnFloor(s: RedHatBoyState<Idle>)
    requires s.context.position.y == FLOOR && 0 <= s.context.velocity.y <= TERMINAL_VELOCITY
    ensures Update(s).context.position.y == FLOOR
  {
  }
}
