/** The dog heading back towards the runner (src/game/dog/states/returning.rs). */
module DogReturning {
  import opened Ints
  import opened DogContexts
  import S = DogStates

  datatype ReturningEndState =
    | Returning(returning: S.DogState<S.Returning>)
    | Running(running: S.DogState<S.Running>)

  /** Stops moving horizontally and flees; nothing else changes. */
  function Flee(s: S.DogState<S.Returning>): (r: S.DogState<S.Fleeing>)
    ensures r.context.velocity.x == 0
    ensures r.context == s.context.(velocity := s.context.velocity.(x := 0))
  {
    S.DogState(s.context.(velocity := s.context.velocity.(x := 0)), S.Fleeing)
  }

  /** Takes off at JUMP_SPEED; the frame is not reset. */
  function Jump(s: S.DogState<S.Returning>): (r: S.DogState<S.Jumping>)
    ensures r.context.velocity.y == JUMP_SPEED
    ensures r.context == s.context.(velocity := s.context.velocity.(y := JUMP_SPEED))
  {
    S.DogState(s.context.(velocity := s.context.velocity.(y := JUMP_SPEED)), S.Jumping)
  }

  /** One tick; once left of x = 300 the dog turns round and runs ahead again. */
  function Update(s: S.DogState<S.Returning>): (r: ReturningEndState)
    ensures r.Running? <==> s.context.Update(RUNNING_FRAMES).position.x < 300
    ensures r.Running? ==> r.running == RunAway(S.DogState(s.context.Update(RUNNING_FRAMES), S.Returning))
    ensures r.Returning? ==> r.returning.context == s.context.Update(RUNNING_FRAMES)
  {
    var next := S.DogState(s.context.Update(RUNNING_FRAMES), S.Returning);
    if next.context.position.x < 300 then Running(RunAway(next)) else Returning(next)
  }

  /** Turns round, then restarts the animation. */
  function RunAway(s: S.DogState<S.Returning>): (r: S.DogState<S.Running>)
    ensures r.context == ResetFrame(ToggleDirection(s.context))
  {
    S.DogState(ResetFrame(ToggleDirection(s.context)), S.Running)
  }
}
