/** The worried dog heading back (src/game/dog/states/returning_worried.rs). */
module DogReturningWorried {
  import opened Ints
  import opened DogContexts
  import S = DogStates

  datatype ReturningEndState =
    | Returning(returning: S.DogState<S.ReturningWorried>)
    | Running(running: S.DogState<S.RunningWorried>)

  /** Takes off at JUMP_SPEED; the frame is not reset. */
  function Jump(s: S.DogState<S.ReturningWorried>): (r: S.DogState<S.JumpingWorriedReturn>)
    ensures r.context.velocity.y == JUMP_SPEED
    ensures r.context == s.context.(velocity := s.context.velocity.(y := JUMP_SPEED))
  {
    S.DogState(s.context.(velocity := s.context.velocity.(y := JUMP_SPEED)), S.JumpingWorriedReturn)
  }

  /** One tick; once left of x = 50 the dog turns round and runs ahead, still worried. */
  function Update(s: S.DogState<S.ReturningWorried>): (r: ReturningEndState)
    ensures r.Running? <==> s.context.Update(RUNNING_FRAMES).position.x < 50
    ensures r.Running? ==> r.running == RunAway(S.DogState(s.context.Update(RUNNING_FRAMES), S.ReturningWorried))
    ensures r.Returning? ==> r.returning.context == s.context.Update(RUNNING_FRAMES)
  {
    var next := S.DogState(s.context.Update(RUNNING_FRAMES), S.ReturningWorried);
    if next.context.position.x < 50 then Running(RunAway(next)) else Returning(next)
  }

  /** Turns round, then restarts the animation. */
  function RunAway(s: S.DogState<S.ReturningWorried>): (r: S.DogState<S.RunningWorried>)
    ensures r.context == ResetFrame(ToggleDirection(s.context))
  {
    S.DogState(ResetFrame(ToggleDirection(s.context)), S.RunningWorried)
  }
}
