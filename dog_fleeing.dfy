/** The dog fleeing (src/game/dog/states/fleeing.rs). */
module DogFleeing {
  import opened DogContexts
  import S = DogStates

  /** Keeps fleeing whatever the position: unlike the returning states, no threshold ends it. */
  function Update(s: S.DogState<S.Fleeing>): (r: S.DogState<S.Fleeing>)
    ensures r.context == s.context.Update(RUNNING_FRAMES)
    ensures r.context.frame <= RUNNING_FRAMES
  {
    S.DogState(s.context.Update(RUNNING_FRAMES), S.Fleeing)
  }
}
