/** The airborne runner (src/game/red_hat_boy/states/jumping.rs). */
module BoyJumping {
  import opened Ints
  import opened Geometry
  import opened BoyContext
  import Game
  import S = BoyStates
  import M = BoyMachine
  import BoyRunning

  const JUMP_FRAME_NAME: string := "Jump"
  const JUMPING_FRAMES: U8 := 35

  /** What a jumping tick ends in. */
  datatype JumpingEndState =
    | Jumping(jumping: S.RedHatBoyState<S.Jumping>)
    | Landing(running: S.RedHatBoyState<S.Running>)

  function FrameName(s: S.RedHatBoyState<S.Jumping>): (name: string)
    ensures name == JUMP_FRAME_NAME
  {
    JUMP_FRAME_NAME
  }

  /** Starts falling where it is: animation restarted, both velocities zero. */
  function KnockOut(s: S.RedHatBoyState<S.Jumping>): (r: S.RedHatBoyState<S.Falling>)
    ensures r.context == RedHatBoyContext(0, s.context.position, Point(0, 0))
  {
    S.RedHatBoyState(s.context.ResetFrame().Stop(), S.Falling)
  }

  /** Lands on a surface at height `position` and runs on, animation restarted. */
  function LandOn(s: S.RedHatBoyState<S.Jumping>, position: I16): (r: S.RedHatBoyState<S.Running>)
    ensures r.context.frame == 0
    ensures r.context.position == Point(s.context.position.x, Wrap16(position - PLAYER_HEIGHT))
    ensures r.context.velocity == s.context.velocity
  {
    S.RedHatBoyState(s.context.ResetFrame().SetOn(position), S.Running)
  }

  /** One tick in the air; reaching the floor lands the runner on the canvas bottom,
      i.e. running with its top at FLOOR and the animation restarted. */
  function Update(s: S.RedHatBoyState<S.Jumping>): (r: JumpingEndState)
    ensures r.Landing? <==> s.context.Update(JUMPING_FRAMES).position.y == FLOOR
    ensures r.Landing? ==>
      r.running.context == RedHatBoyContext(0, Point(s.context.position.x, FLOOR), s.context.Update(JUMPING_FRAMES).velocity)
    ensures r.Jumping? ==> r.jumping.context == s.context.Update(JUMPING_FRAMES)
  {
    var next := S.RedHatBoyState(s.context.Update(JUMPING_FRAMES), S.Jumping);
    if next.context.position.y >= FLOOR then Landing(LandOn(next, Game.HEIGHT)) else Jumping(next)
  }

  /** The `From<JumpingEndState>` conversion: each end state becomes the machine variant
      of the same state. */
  function IntoMachine(e: JumpingEndState): (m: M.RedHatBoyStateMachine)
    ensures e.Landing? ==> m.Running? && m.running == e.running
    ensures e.Jumping? ==> m.Jumping? && m.jumping == e.jumping
  {
    match e
    case Landing(running) => M.Running(running)
    case Jumping(jumping) => M.Jumping(jumping)
  }

  /** `n` ticks of a jump; once landed, the runner is left as it landed. */
  function UpdateTimes(s: S.RedHatBoyState<S.Jumping>, n: nat): JumpingEndState {
    if n == 0 then Jumping(s)
    else match UpdateTimes(s, n - 1)
      case Landing(running) => Landing(running)
      case Jumping(t) => Update(t)
  }

  /** 1 + 2 + ... + k */
  function Triangle(k: nat): nat {
    if k == 0 then 0 else Triangle(k - 1) + k
  }

  lemma {:induction false} TriangleClosedForm(k: nat)
    ensures 2 * Triangle(k) == k * (k + 1)
  {
    if k > 0 {
      TriangleClosedForm(k - 1);
    }
  }

  lemma TriangleBelow(k: nat)
    requires 1 <= k <= 48
    ensures Triangle(k) < 25 * k
  {
    TriangleClosedForm(k);
    MulMonotone(k, k + 1, 49);
  }

  lemma MulMonotone(k: nat, a: nat, b: nat)
    requires a <= b
    ensures k * a <= k * b
  {
  }

  /** A jump from the floor at JUMP_SPEED: for the first 45 ticks the runner is in the
      air with its speed rising by one unit per tick ... */
  lemma {:induction false} Airborne(s: S.RedHatBoyState<S.Jumping>, k: nat)
    requires s.context.position.y == FLOOR && s.context.velocity.y == BoyRunning.JUMP_SPEED
    requires k <= 45
    ensures UpdateTimes(s, k).Jumping?
    ensures UpdateTimes(s, k).jumping.context.velocity.x == s.context.velocity.x
    ensures UpdateTimes(s, k).jumping.context.velocity.y == -25 + k
    ensures UpdateTimes(s, k).jumping.context.position.x == s.context.position.x
    ensures UpdateTimes(s, k).jumping.context.position.y == FLOOR - 25 * k + Triangle(k)
  {
    if k > 0 {
      Airborne(s, k - 1);
      TriangleBelow(k);
      var t := UpdateTimes(s, k - 1).jumping;
      assert UpdateTimes(s, k) == Update(t);
      assert t.context.position.y + (t.context.velocity.y + 1) == FLOOR - 25 * k + Triangle(k);
    }
  }

  /** ... then it falls at TERMINAL_VELOCITY, still in the air up to tick 49 ... */
  lemma {:induction false} Descending(s: S.RedHatBoyState<S.Jumping>, k: nat)
    requires s.context.position.y == FLOOR && s.context.velocity.y == BoyRunning.JUMP_SPEED
    requires 45 <= k <= 49
    ensures UpdateTimes(s, k).Jumping?
    ensures UpdateTimes(s, k).jumping.context.velocity == Point(s.context.velocity.x, TERMINAL_VELOCITY)
    ensures UpdateTimes(s, k).jumping.context.position == Point(s.context.position.x, 389 + 20 * (k - 45))
  {
    if k == 45 {
      Airborne(s, 45);
      TriangleClosedForm(45);
    } else {
      Descending(s, k - 1);
      assert UpdateTimes(s, k) == Update(UpdateTimes(s, k - 1).jumping);
    }
  }

  /** ... and the 50th tick lands it on the floor, running with the animation restarted. */
  lemma LandsOnTick50(s: S.RedHatBoyState<S.Jumping>)
    requires s.context.position.y == FLOOR && s.context.velocity.y == BoyRunning.JUMP_SPEED
    ensures UpdateTimes(s, 50).Landing?
    ensures UpdateTimes(s, 50).running.context.position == Point(s.context.position.x, FLOOR)
    ensures UpdateTimes(s, 50).running.context.frame == 0
  {
    Descending(s, 49);
    assert UpdateTimes(s, 50) == Update(UpdateTimes(s, 49).jumping);
  }

  /** A jump taken while running on the floor lasts exactly 50 ticks and ends running
      on the floor where it took off. */
  lemma JumpFromFloorLasts50Ticks(r: S.RedHatBoyState<S.Running>)
    requires r.context.position.y == FLOOR
    ensures forall k :: 0 <= k < 50 ==> UpdateTimes(BoyRunning.Jump(r), k).Jumping?
    ensures UpdateTimes(BoyRunning.Jump(r), 50).Landing?
    ensures UpdateTimes(BoyRunning.Jump(r), 50).running.context.position == r.context.position
  {
    var j := BoyRunning.Jump(r);
    forall k | 0 <= k < 50
      ensures UpdateTimes(j, k).Jumping?
    {
      if k <= 45 {
        Airborne(j, k);
      } else {
        Descending(j, k);
      }
    }
    LandsOnTick50(j);
  }
}
