/** The knocked-down runner (src/game/red_hat_boy/states/falling.rs). */
module BoyFalling {
  import opened Ints
  import opened BoyContext
  import S = BoyStates
  import M = BoyMachine

  const FALL_FRAME_NAME: string := "Dead"
  const FALLING_FRAMES: U8 := 29

  /** What a falling tick ends in. */
  datatype FallingEndState =
    | Complete(knockedOut: S.RedHatBoyState<S.KnockedOut>)
    | Falling(falling: S.RedHatBoyState<S.Falling>)

  function FrameName(s: S.RedHatBoyState<S.Falling>): (name: string)
    ensures name == FALL_FRAME_NAME
  {
    FALL_FRAME_NAME
  }

  /** One tick; once the animation reaches its last frame the runner is knocked out. */
  function Update(s: S.RedHatBoyState<S.Falling>): (r: FallingEndState)
    ensures r.Complete? <==> s.context.Update(FALLING_FRAMES).frame >= FALLING_FRAMES
    ensures r.Complete? ==> r.knockedOut.context == s.context.Update(FALLING_FRAMES)
    ensures r.Falling? ==> r.falling.context == s.context.Update(FALLING_FRAMES)
  {
    var next := S.RedHatBoyState(s.context.Update(FALLING_FRAMES), S.Falling);
    if next.context.frame >= FALLING_FRAMES then Complete(Dead(next)) else Falling(next)
  }

  /** Knocked out with the context as it is (the knock-out sound is not modelled). */
  function Dead(s: S.RedHatBoyState<S.Falling>): (r: S.RedHatBoyState<S.KnockedOut>)
    ensures r.context == s.context
  {
    S.RedHatBoyState(s.context, S.KnockedOut)
  }

  /** The `From<FallingEndState>` conversion. */
  function IntoMachine(e: FallingEndState): (m: M.RedHatBoyStateMachine)
    ensures e.Complete? ==> m.KnockedOut? && m.knockedOut == e.knockedOut
    ensures e.Falling? ==> m.Falling? && m.falling == e.falling
  {
    match e
    case Complete(knockedOut) => M.KnockedOut(knockedOut)
    case Falling(falling) => M.Falling(falling)
  }

  /** `n` falling ticks; once knocked out the runner stays as it was, since the
      knocked-out state has no update. */
  function UpdateTimes(s: S.RedHatBoyState<S.Falling>, n: nat): FallingEndState {
    if n == 0 then Falling(s)
    else match UpdateTimes(s, n - 1)
      case Complete(knockedOut) => Complete(knockedOut)
      case Falling(t) => Update(t)
  }

  lemma {:induction false} StillFalling(s: S.RedHatBoyState<S.Falling>, k: nat)
    requires s.context.frame == 0 && k < FALLING_FRAMES
    ensures UpdateTimes(s, k).Falling? && UpdateTimes(s, k).falling.context.frame == k
  {
    if k > 0 {
      StillFalling(s, k - 1);
    }
  }

  /** A fall started at the first frame reaches KnockedOut after exactly 29 ticks, and
      stays there. */
  lemma FallLasts29Ticks(s: S.RedHatBoyState<S.Falling>, extra: nat)
    requires s.context.frame == 0
    ensures forall k :: 0 <= k < 29 ==> UpdateTimes(s, k).Falling?
    ensures UpdateTimes(s, 29).Complete?
    ensures UpdateTimes(s, 29 + extra) == UpdateTimes(s, 29)
  {
    forall k | 0 <= k < 29
      ensures UpdateTimes(s, k).Falling?
    {
      StillFalling(s, k);
    }
    StillFalling(s, 28);
    StaysKnockedOut(s, 29, extra);
  }

  lemma {:induction false} StaysKnockedOut(s: S.RedHatBoyState<S.Falling>, n: nat, extra: nat)
    requires UpdateTimes(s, n).Complete?
    ensures UpdateTimes(s, n + extra) == UpdateTimes(s, n)
  {
    if extra > 0 {
      StaysKnockedOut(s, n, extra - 1);
    }
  }
}
