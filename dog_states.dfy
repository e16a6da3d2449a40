/** The dog's typestate wrapper (src/game/dog/states.rs): a context tagged with the state
    it is in, one unit tag per state of the dog's machine. */
module DogStates {
  import opened DogContexts

  datatype DogState<S> = DogState(context: DogContext, state: S)

  datatype Fleeing = Fleeing
  datatype Jumping = Jumping
  datatype JumpingFlee = JumpingFlee
  datatype JumpingFleeReturn = JumpingFleeReturn
  datatype JumpingReturn = JumpingReturn
  datatype JumpingWorried = JumpingWorried
  datatype JumpingWorriedReturn = JumpingWorriedReturn
  datatype Returning = Returning
  datatype ReturningToFlee = ReturningToFlee
  datatype ReturningWorried = ReturningWorried
  datatype Running = Running
  datatype RunningWorried = RunningWorried
}
