/** The runner's typestate wrapper (src/game/red_hat_boy/states.rs): a context tagged
    with the state it is in. Each tag is a unit type, so a value of
    `RedHatBoyState<Jumping>` can only be handed to the jumping operations. */
module BoyStates {
  import opened BoyContext

  datatype RedHatBoyState<S> = RedHatBoyState(context: RedHatBoyContext, state: S)

  datatype Idle = Idle
  datatype Running = Running
  datatype Jumping = Jumping
  datatype Sliding = Sliding
  datatype Falling = Falling
  /** Terminal: src/game/red_hat_boy/states/knocked_out.rs declares no transition. */
  datatype KnockedOut = KnockedOut
}
