/** The dog jumping on its way back before fleeing
    (src/game/dog/states/jumping_flee_return.rs). */
module DogJumpingFleeReturn {
  import opened Ints
  import opened DogContexts
  import Game
  import S = DogStates

  datatype JumpingEndState =
    | Jumping(jumping: S.DogState<S.JumpingFleeReturn>)
    | Landing(returning: S.DogState<S.ReturningToFlee>)

  /** Lands on a surface at height `position` (placed with `set_on`, not `set_floor`),
      animation restarted first. */
  function LandOn(s: S.DogState<S.JumpingFleeReturn>, position: I16): (r: S.DogState<S.ReturningToFlee>)
    ensures r.context == SetOn(ResetFrame(s.context), position)
  {
    S.DogState(SetOn(ResetFrame(s.context), position), S.ReturningToFlee)
  }

  /** One tick; at or below DOG_FLOOR the dog lands on the canvas bottom. */
  function Update(s: S.DogState<S.JumpingFleeReturn>): (r: JumpingEndState)
    ensures r.Landing? <==> s.context.Update(JUMPING_FRAMES).position.y >= DOG_FLOOR
    ensures r.Landing? ==> r.returning == LandOn(S.DogState(s.context.Update(JUMPING_FRAMES), S.JumpingFleeReturn), Game.HEIGHT)
    ensures r.Jumping? ==> r.jumping.context == s.context.Update(JUMPING_FRAMES)
  {
    var next := S.DogState(s.context.Update(JUMPING_FRAMES), S.JumpingFleeReturn);
    if next.context.position.y >= DOG_FLOOR then Landing(LandOn(next, Game.HEIGHT)) else Jumping(next)
  }
}
