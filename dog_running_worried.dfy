/** The worried dog running ahead (src/game/dog/states/running_worried.rs). */
module DogRunningWorried {
  import opened Ints
  import opened DogContexts
  import S = DogStates

  datatype RunningEndState =
    | Returning(returning: S.DogState<S.ReturningWorried>)
    | Running(running: S.DogState<S.RunningWorried>)

  /** Takes off at JUMP_SPEED; the frame is not reset. */
  function Jump(s: S.DogState<S.RunningWorried>): (r: S.DogState<S.JumpingWorried>)
    ensures r.context.velocity.y == JUMP_SPEED
    ensures r.context == s.context.(velocity := s.context.velocity.(y := JUMP_SPEED))
  {
    S.DogState(s.context.(velocity := s.context.velocity.(y := JUMP_SPEED)), S.JumpingWorried)
  }

  /** Keeps running, worried, on a surface at height `position`. */
  function LandOn(s: S.DogState<S.RunningWorried>, position: I16): (r: S.DogState<S.RunningWorried>)
    ensures r.context == SetOn(s.context, position)
  {
    S.DogState(SetOn(s.context, position), S.RunningWorried)
  }

  /** One tick; once right of x = 1000 the dog turns back towards the runner. */
  function Update(s: S.DogState<S.RunningWorried>): (r: RunningEndState)
    ensures r.Returning? <==> s.context.Update(RUNNING_FRAMES).position.x > 1000
    ensures r.Returning? ==> r.returning == ReturnToBoy(S.DogState(s.context.Update(RUNNING_FRAMES), S.RunningWorried))
    ensures r.Running? ==> r.running.context == s.context.Update(RUNNING_FRAMES)
  {
    var next := S.DogState(s.context.Update(RUNNING_FRAMES), S.RunningWorried);
    if next.context.position.x > 1000 then Returning(ReturnToBoy(next)) else Running(next)
  }

  /** Turns round; the animation is not restarted. */
  function ReturnToBoy(s: S.DogState<S.RunningWorried>): (r: S.DogState<S.ReturningWorried>)
    ensures r.context == ToggleDirection(s.context)
  {
    S.DogState(ToggleDirection(s.context), S.ReturningWorried)
  }
}
