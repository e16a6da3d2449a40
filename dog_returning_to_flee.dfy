/** The dog heading back before fleeing (src/game/dog/states/returning_to_flee.rs). */
module DogReturningToFlee {
  import opened Ints
  import opened DogContexts
  import S = DogStates

  datatype ReturningEndState =
    | Returning(returning: S.DogState<S.ReturningToFlee>)
    | Fleeing(fleeing: S.DogState<S.Fleeing>)

  /** One tick; once left of x = 300 the dog flees. */
  function Update(s: S.DogState<S.ReturningToFlee>): (r: ReturningEndState)
    ensures r.Fleeing? <==> s.context.Update(RUNNING_FRAMES).position.x < 300
    ensures r.Fleeing? ==> r.fleeing == Flee(S.DogState(s.context.Update(RUNNING_FRAMES), S.ReturningToFlee))
    ensures r.Returning? ==> r.returning.context == s.context.Update(RUNNING_FRAMES)
  {
    var next := S.DogState(s.context.Update(RUNNING_FRAMES), S.ReturningToFlee);
    if next.context.position.x < 300 then Fleeing(Flee(next)) else Returning(next)
  }

  /** Stops moving horizontally; neither turns round nor restarts the animation. The
      source repeats the returning state's `flee` body here. */
  function Flee(s: S.DogState<S.ReturningToFlee>): (r: S.DogState<S.Fleeing>)
    ensures r.context.velocity.x == 0
    ensures r.context == s.context.(velocity := s.context.velocity.(x := 0))
  {
    S.DogState(s.context.(velocity := s.context.velocity.(x := 0)), S.Fleeing)
  }
}
