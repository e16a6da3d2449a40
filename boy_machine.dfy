/** The runner's state machine enum and its events. The dispatcher file
    (src/game/red_hat_boy/state_machine.rs) is not part of this model: the variants and
    events are those the wrapper and the end-state conversions use, and the
    dispatching functions are declared without definitions. */
module BoyMachine {
  import opened Ints
  import opened BoyContext
  import S = BoyStates

  datatype Event = Jump | KnockOut | Land(position: I16) | Run | Slide | Update

  datatype RedHatBoyStateMachine =
    | Idle(idle: S.RedHatBoyState<S.Idle>)
    | Running(running: S.RedHatBoyState<S.Running>)
    | Jumping(jumping: S.RedHatBoyState<S.Jumping>)
    | Sliding(sliding: S.RedHatBoyState<S.Sliding>)
    | Falling(falling: S.RedHatBoyState<S.Falling>)
    | KnockedOut(knockedOut: S.RedHatBoyState<S.KnockedOut>)
  {
    /** The context of whichever state is active. */
    function Context(): (c: RedHatBoyContext)
      ensures Idle? ==> c == idle.context
      ensures Running? ==> c == running.context
      ensures Jumping? ==> c == jumping.context
      ensures Sliding? ==> c == sliding.context
      ensures Falling? ==> c == falling.context
      ensures KnockedOut? ==> c == knockedOut.context
    {
      match this
      case Idle(s) => s.context
      case Running(s) => s.context
      case Jumping(s) => s.context
      case Sliding(s) => s.context
      case Falling(s) => s.context
      case KnockedOut(s) => s.context
    }
  }

  /** `RedHatBoyStateMachine::transition`, not shown. */
  const Transition: (RedHatBoyStateMachine, Event) -> RedHatBoyStateMachine

  /** `RedHatBoyStateMachine::update`, not shown. */
  const UpdateMachine: RedHatBoyStateMachine -> RedHatBoyStateMachine

  /** `RedHatBoyStateMachine::frame_name`, not shown. */
  const MachineFrameName: RedHatBoyStateMachine -> string

  /** `RedHatBoy::knocked_out`, `RedHatBoy::is_running` and `RedHatBoy::reset`, not shown. */
  const IsKnockedOut: RedHatBoyStateMachine -> bool
  const IsRunning: RedHatBoyStateMachine -> bool
  const ResetMachine: RedHatBoyStateMachine -> RedHatBoyStateMachine
}
