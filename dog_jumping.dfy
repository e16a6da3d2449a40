/** The dog jumping over an obstacle (src/game/dog/states/jumping.rs). */
module DogJumping {
  import opened Ints
  import opened DogContexts
  import Game
  import S = DogStates

  datatype JumpingEndState =
    | Jumping(jumping: S.DogState<S.Jumping>)
    | Landing(running: S.DogState<S.Running>)

  /** Lands on a surface at height `position` and runs on, animation restarted first. */
  function LandOn(s: S.DogState<S.Jumping>, position: I16): (r: S.DogState<S.Running>)
    ensures r.context == SetOn(ResetFrame(s.context), position)
  {
    S.DogState(SetOn(ResetFrame(s.context), position), S.Running)
  }

  /** One tick (5-frame animation); at or below DOG_FLOOR the dog lands on the canvas
      bottom and runs. */
  function Update(s: S.DogState<S.Jumping>): (r: JumpingEndState)
    ensures r.Landing? <==> s.context.Update(5).position.y >= DOG_FLOOR
    ensures r.Landing? ==> r.running == LandOn(S.DogState(s.context.Update(5), S.Jumping), Game.HEIGHT)
    ensures r.Jumping? ==> r.jumping.context == s.context.Update(5)
  {
    var next := S.DogState(s.context.Update(5), S.Jumping);
    if next.context.position.y >= DOG_FLOOR then Landing(LandOn(next, Game.HEIGHT)) else Jumping(next)
  }
}
