/** The sliding runner (src/game/red_hat_boy/states/sliding.rs). */
module BoySliding {
  import opened Ints
  import opened Geometry
  import opened BoyContext
  import S = BoyStates
  import M = BoyMachine

  const SLIDE_FRAME_NAME: string := "Slide"
  const SLIDING_FRAMES: U8 := 14

  /** What a sliding tick ends in. */
  datatype SlidingEndState =
    | Complete(running: S.RedHatBoyState<S.Running>)
    | Sliding(sliding: S.RedHatBoyState<S.Sliding>)

  function FrameName(s: S.RedHatBoyState<S.Sliding>): (name: string)
    ensures name == SLIDE_FRAME_NAME
  {
    SLIDE_FRAME_NAME
  }

  /** Starts falling where it is: animation restarted, both velocities zero. The source
      repeats the jumping state's knock-out body here word for word. */
  function KnockOut(s: S.RedHatBoyState<S.Sliding>): (r: S.RedHatBoyState<S.Falling>)
    ensures r.context == RedHatBoyContext(0, s.context.position, Point(0, 0))
  {
    S.RedHatBoyState(s.context.ResetFrame().Stop(), S.Falling)
  }

  /** Keeps sliding on a surface at height `position`. */
  function LandOn(s: S.RedHatBoyState<S.Sliding>, position: I16): (r: S.RedHatBoyState<S.Sliding>)
    ensures r.context.position == Point(s.context.position.x, Wrap16(position - PLAYER_HEIGHT))
    ensures r.context.frame == s.context.frame && r.context.velocity == s.context.velocity
  {
    S.RedHatBoyState(s.context.SetOn(position), S.Sliding)
  }

  /** One tick; once the animation reaches its last frame the runner stands up and runs. */
  function Update(s: S.RedHatBoyState<S.Sliding>): (r: SlidingEndState)
    ensures r.Complete? <==> s.context.Update(SLIDING_FRAMES).frame >= SLIDING_FRAMES
    ensures r.Complete? ==> r.running.context == s.context.Update(SLIDING_FRAMES).(frame := 0)
    ensures r.Sliding? ==> r.sliding.context == s.context.Update(SLIDING_FRAMES)
  {
    var next := S.RedHatBoyState(s.context.Update(SLIDING_FRAMES), S.Sliding);
    if next.context.frame >= SLIDING_FRAMES then Complete(Stand(next)) else Sliding(next)
  }

  /** Back to running with the animation restarted; nothing else changes. */
  function Stand(s: S.RedHatBoyState<S.Sliding>): (r: S.RedHatBoyState<S.Running>)
    ensures r.context == s.context.(frame := 0)
  {
    S.RedHatBoyState(s.context.ResetFrame(), S.Running)
  }

  /** The `From<SlidingEndState>` conversion. */
  function IntoMachine(e: SlidingEndState): (m: M.RedHatBoyStateMachine)
    ensures e.Complete? ==> m.Running? && m.running == e.running
    ensures e.Sliding? ==> m.Sliding? && m.sliding == e.sliding
  {
    match e
    case Complete(running) => M.Running(running)
    case Sliding(sliding) => M.Sliding(sliding)
  }

  /** `n` sliding ticks; once complete, the runner is left as it stood up. */
  function UpdateTimes(s: S.RedHatBoyState<S.Sliding>, n: nat): SlidingEndState {
    if n == 0 then Sliding(s)
    else match UpdateTimes(s, n - 1)
      case Complete(running) => Complete(running)
      case Sliding(t) => Update(t)
  }

  /** From the first frame, the slide is still on after `k < 14` ticks, at frame `k`. */
  lemma {:induction false} StillSliding(s: S.RedHatBoyState<S.Sliding>, k: nat)
    requires s.context.frame == 0 && k < SLIDING_FRAMES
    ensures UpdateTimes(s, k).Sliding? && UpdateTimes(s, k).sliding.context.frame == k
  {
    if k > 0 {
      StillSliding(s, k - 1);
    }
  }

  /** A slide started at the first frame ends after exactly 14 ticks, back to running at
      the first frame. */
  lemma SlideLasts14Ticks(s: S.RedHatBoyState<S.Sliding>)
    requires s.context.frame == 0
    ensures forall k :: 0 <= k < 14 ==> UpdateTimes(s, k).Sliding?
    ensures UpdateTimes(s, 14).Complete? && UpdateTimes(s, 14).running.context.frame == 0
  {
    forall k | 0 <= k < 14
      ensures UpdateTimes(s, k).Sliding?
    {
      StillSliding(s, k);
    }
    StillSliding(s, 13);
  }
}
