/** The worried dog jumping on its way back (src/game/dog/states/jumping_worried_return.rs). */
module DogJumpingWorriedReturn {
  import opened Ints
  import opened DogContexts
  import S = DogStates

  datatype JumpingEndState =
    | Jumping(jumping: S.DogState<S.JumpingWorriedReturn>)
    | Landing(returning: S.DogState<S.ReturningWorried>)

  /** Lands on a platform at height `platform`: animation restarted, then the floor set. */
  function LandOn(s: S.DogState<S.JumpingWorriedReturn>, platform: I16): (r: S.DogState<S.ReturningWorried>)
    ensures r.context == SetFloor(ResetFrame(s.context), platform)
  {
    S.DogState(SetFloor(ResetFrame(s.context), platform), S.ReturningWorried)
  }

  /** One tick; falling onto the current floor lands the dog, which keeps that floor. */
  function Update(s: S.DogState<S.JumpingWorriedReturn>): (r: JumpingEndState)
    ensures r.Landing? <==>
      s.context.Update(JUMPING_FRAMES).velocity.y > 0 && s.context.Update(JUMPING_FRAMES).position.y == Floor(s.context.Update(JUMPING_FRAMES))
    ensures r.Landing? ==> r.returning == Land(S.DogState(s.context.Update(JUMPING_FRAMES), S.JumpingWorriedReturn))
    ensures r.Jumping? ==> r.jumping.context == s.context.Update(JUMPING_FRAMES)
  {
    var next := S.DogState(s.context.Update(JUMPING_FRAMES), S.JumpingWorriedReturn);
    if next.context.velocity.y > 0 && next.context.position.y == Floor(next.context) then Landing(Land(next))
    else Jumping(next)
  }

  /** Restarts the animation; the floor and everything else stay. */
  function Land(s: S.DogState<S.JumpingWorriedReturn>): (r: S.DogState<S.ReturningWorried>)
    ensures r.context == ResetFrame(s.context)
  {
    S.DogState(ResetFrame(s.context), S.ReturningWorried)
  }
}
