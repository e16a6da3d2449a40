/** The dog's state machine (src/game/dog/state_machine.rs): twelve states, six events,
    and one transition table in which every pair without an entry leaves the state as
    it is. */
module DogMachine {
  import opened Ints
  import opened DogContexts
  import S = DogStates
  import DogFleeing
  import DogJumping
  import DogJumpingFlee
  import DogJumpingFleeReturn
  import DogJumpingReturn
  import DogJumpingWorried
  import DogJumpingWorriedReturn
  import DogReturning
  import DogReturningToFlee
  import DogReturningWorried
  import DogRunning
  import DogRunningWorried

  datatype Event = Flee | Jump | Land(position: I16) | OffPlatform | Update | Worry

  datatype DogStateMachine =
    | Fleeing(fleeing: S.DogState<S.Fleeing>)
    | Jumping(jumping: S.DogState<S.Jumping>)
    | JumpingFlee(jumpingFlee: S.DogState<S.JumpingFlee>)
    | JumpingFleeReturn(jumpingFleeReturn: S.DogState<S.JumpingFleeReturn>)
    | JumpingReturn(jumpingReturn: S.DogState<S.JumpingReturn>)
    | JumpingWorried(jumpingWorried: S.DogState<S.JumpingWorried>)
    | JumpingWorriedReturn(jumpingWorriedReturn: S.DogState<S.JumpingWorriedReturn>)
    | Returning(returning: S.DogState<S.Returning>)
    | ReturningToFlee(returningToFlee: S.DogState<S.ReturningToFlee>)
    | ReturningWorried(returningWorried: S.DogState<S.ReturningWorried>)
    | Running(running: S.DogState<S.Running>)
    | RunningWorried(runningWorried: S.DogState<S.RunningWorried>)
  {
    /** The context of the active state. */
    function Context(): DogContext {
      match this
      case Fleeing(s) => s.context
      case Jumping(s) => s.context
      case JumpingFlee(s) => s.context
      case JumpingFleeReturn(s) => s.context
      case JumpingReturn(s) => s.context
      case JumpingWorried(s) => s.context
      case JumpingWorriedReturn(s) => s.context
      case Returning(s) => s.context
      case ReturningToFlee(s) => s.context
      case ReturningWorried(s) => s.context
      case Running(s) => s.context
      case RunningWorried(s) => s.context
    }

    function StateName(): string {
      match this
      case Fleeing(_) => "Fleeing"
      case Jumping(_) => "Jumping"
      case JumpingFlee(_) => "JumpingFlee"
      case JumpingFleeReturn(_) => "JumpingFleeReturn"
      case JumpingReturn(_) => "JumpingReturn"
      case JumpingWorried(_) => "JumpingWorried"
      case JumpingWorriedReturn(_) => "JumpingWorriedReturn"
      case Returning(_) => "Returning"
      case ReturningToFlee(_) => "ReturningToFlee"
      case ReturningWorried(_) => "ReturningWorried"
      case Running(_) => "Running"
      case RunningWorried(_) => "RunningWorried"
    }

    /** The transition table; any pair not listed leaves the state unchanged (the source
        only logs it). */
    function Transition(event: Event): (r: DogStateMachine)
      ensures !Handles(this, event) ==> r == this
    {
      match (this, event)
      case (Fleeing(s), Jump) => FleeingJump(s)
      case (Fleeing(s), OffPlatform) => FleeingDropFromPlatform(s)
      case (Fleeing(s), Update) => Fleeing(DogFleeing.Update(s))
      case (Fleeing(s), Worry) => FleeingWorry(s)

      case (Jumping(s), Land(p)) => Running(DogJumping.LandOn(s, p))
      case (Jumping(s), Update) => FromJumping(DogJumping.Update(s))

      case (JumpingFlee(s), Land(p)) => Fleeing(DogJumpingFlee.LandOn(s, p))
      case (JumpingFlee(s), Update) => FromJumpingFlee(DogJumpingFlee.Update(s))

      case (JumpingFleeReturn(s), Land(p)) => ReturningToFlee(DogJumpingFleeReturn.LandOn(s, p))
      case (JumpingFleeReturn(s), Update) => FromJumpingFleeReturn(DogJumpingFleeReturn.Update(s))

      case (JumpingReturn(s), Land(p)) => Returning(DogJumpingReturn.LandOn(s, p))
      case (JumpingReturn(s), Update) => FromJumpingReturn(DogJumpingReturn.Update(s))

      case (JumpingWorried(s), Land(p)) => RunningWorried(DogJumpingWorried.LandOn(s, p))
      case (JumpingWorried(s), Update) => FromJumpingWorried(DogJumpingWorried.Update(s))

      case (JumpingWorriedReturn(s), Land(p)) => ReturningWorried(DogJumpingWorriedReturn.LandOn(s, p))
      case (JumpingWorriedReturn(s), Update) => FromJumpingWorriedReturn(DogJumpingWorriedReturn.Update(s))

      case (Returning(s), Flee) => Fleeing(DogReturning.Flee(s))
      case (Returning(s), Jump) => Jumping(DogReturning.Jump(s))
      case (Returning(s), Update) => FromReturning(DogReturning.Update(s))

      case (ReturningToFlee(s), Land(p)) => ReturningToFleeLandOn(s, p)
      case (ReturningToFlee(s), Jump) => ReturningToFleeJump(s)
      case (ReturningToFlee(s), Update) => FromReturningToFlee(DogReturningToFlee.Update(s))
      case (ReturningToFlee(s), Worry) => ReturningToFleeWorry(s)

      case (ReturningWorried(s), Jump) => JumpingWorriedReturn(DogReturningWorried.Jump(s))
      case (ReturningWorried(s), Update) => FromReturningWorried(DogReturningWorried.Update(s))

      case (Running(s), Flee) => RunningFlee(s)
      case (Running(s), Jump) => RunningJump(s)
      case (Running(s), OffPlatform) => RunningDropFromPlatform(s)
      case (Running(s), Update) => Running(DogRunning.Update(s))

      case (RunningWorried(s), Jump) => JumpingWorried(DogRunningWorried.Jump(s))
      case (RunningWorried(s), OffPlatform) => RunningWorriedDropFromPlatform(s)
      case (RunningWorried(s), Update) => FromRunningWorried(DogRunningWorried.Update(s))

      case _ => this
    }

    function UpdateMachine(): (r: DogStateMachine)
      ensures r == Transition(Update)
    {
      Transition(Update)
    }

    predicate IsJumping() {
      Jumping? || JumpingFlee? || JumpingFleeReturn? || JumpingReturn? || JumpingWorried? || JumpingWorriedReturn?
    }
  }

  /** The table's rows, listed independently of the transition function: which
      (state, event) pairs have an entry. */
  predicate Handles(m: DogStateMachine, e: Event) {
    match e
    case Update => true
    case Land(_) => m.IsJumping() || m.ReturningToFlee?
    case Flee => m.Returning? || m.Running?
    case Worry => m.Fleeing? || m.ReturningToFlee?
    case OffPlatform => m.Fleeing? || m.Running? || m.RunningWorried?
    case Jump => m.Fleeing? || m.Returning? || m.ReturningToFlee? || m.ReturningWorried? || m.Running? || m.RunningWorried?
  }

  // State methods the table dispatches to that the state files shown do not define;
  // their results are not part of this model.
  const FleeingJump: S.DogState<S.Fleeing> -> DogStateMachine
  const FleeingDropFromPlatform: S.DogState<S.Fleeing> -> DogStateMachine
  const FleeingWorry: S.DogState<S.Fleeing> -> DogStateMachine
  const ReturningToFleeLandOn: (S.DogState<S.ReturningToFlee>, I16) -> DogStateMachine
  const ReturningToFleeJump: S.DogState<S.ReturningToFlee> -> DogStateMachine
  const ReturningToFleeWorry: S.DogState<S.ReturningToFlee> -> DogStateMachine
  const RunningFlee: S.DogState<S.Running> -> DogStateMachine
  const RunningJump: S.DogState<S.Running> -> DogStateMachine
  const RunningDropFromPlatform: S.DogState<S.Running> -> DogStateMachine
  const RunningWorriedDropFromPlatform: S.DogState<S.RunningWorried> -> DogStateMachine

  // The `From` conversions of the state files' end states: each becomes the machine
  // variant of the state it holds.

  function FromJumping(e: DogJumping.JumpingEndState): (m: DogStateMachine)
    ensures e.Jumping? ==> m == Jumping(e.jumping)
    ensures e.Landing? ==> m == Running(e.running)
  {
    match e
    case Jumping(s) => Jumping(s)
    case Landing(s) => Running(s)
  }

  function FromJumpingFlee(e: DogJumpingFlee.JumpingEndState): (m: DogStateMachine)
    ensures e.Jumping? ==> m == JumpingFlee(e.jumping)
    ensures e.Landing? ==> m == Fleeing(e.fleeing)
  {
    match e
    case Jumping(s) => JumpingFlee(s)
    case Landing(s) => Fleeing(s)
  }

  function FromJumpingFleeReturn(e: DogJumpingFleeReturn.JumpingEndState): (m: DogStateMachine)
    ensures e.Jumping? ==> m == JumpingFleeReturn(e.jumping)
    ensures e.Landing? ==> m == ReturningToFlee(e.returning)
  {
    match e
    case Jumping(s) => JumpingFleeReturn(s)
    case Landing(s) => ReturningToFlee(s)
  }

  function FromJumpingReturn(e: DogJumpingReturn.JumpingEndState): (m: DogStateMachine)
    ensures e.Jumping? ==> m == JumpingReturn(e.jumping)
    ensures e.Landing? ==> m == Returning(e.returning)
  {
    match e
    case Jumping(s) => JumpingReturn(s)
    case Landing(s) => Returning(s)
  }

  function FromJumpingWorried(e: DogJumpingWorried.JumpingEndState): (m: DogStateMachine)
    ensures e.Jumping? ==> m == JumpingWorried(e.jumping)
    ensures e.Landing? ==> m == RunningWorried(e.running)
  {
    match e
    case Jumping(s) => JumpingWorried(s)
    case Landing(s) => RunningWorried(s)
  }

  function FromJumpingWorriedReturn(e: DogJumpingWorriedReturn.JumpingEndState): (m: DogStateMachine)
    ensures e.Jumping? ==> m == JumpingWorriedReturn(e.jumping)
    ensures e.Landing? ==> m == ReturningWorried(e.returning)
  {
    match e
    case Jumping(s) => JumpingWorriedReturn(s)
    case Landing(s) => ReturningWorried(s)
  }

  function FromReturning(e: DogReturning.ReturningEndState): (m: DogStateMachine)
    ensures e.Returning? ==> m == Returning(e.returning)
    ensures e.Running? ==> m == Running(e.running)
  {
    match e
    case Returning(s) => Returning(s)
    case Running(s) => Running(s)
  }

  function FromReturningToFlee(e: DogReturningToFlee.ReturningEndState): (m: DogStateMachine)
    ensures e.Returning? ==> m == ReturningToFlee(e.returning)
    ensures e.Fleeing? ==> m == Fleeing(e.fleeing)
  {
    match e
    case Returning(s) => ReturningToFlee(s)
    case Fleeing(s) => Fleeing(s)
  }

  function FromReturningWorried(e: DogReturningWorried.ReturningEndState): (m: DogStateMachine)
    ensures e.Returning? ==> m == ReturningWorried(e.returning)
    ensures e.Running? ==> m == RunningWorried(e.running)
  {
    match e
    case Returning(s) => ReturningWorried(s)
    case Running(s) => RunningWorried(s)
  }

  /** The source repeats the returning-worried conversion here for the running-worried
      end state. */
  function FromRunningWorried(e: DogRunningWorried.RunningEndState): (m: DogStateMachine)
    ensures e.Returning? ==> m == ReturningWorried(e.returning)
    ensures e.Running? ==> m == RunningWorried(e.running)
  {
    match e
    case Returning(s) => ReturningWorried(s)
    case Running(s) => RunningWorried(s)
  }

  /** Where an `Update` may take each state, listed independently of the transition
      function: every state stays or moves to the one state its tick can end in. */
  predicate UpdateSuccessor(from: DogStateMachine, to: DogStateMachine) {
    match from
    case Fleeing(_) => to.Fleeing?
    case Jumping(_) => to.Jumping? || to.Running?
    case JumpingFlee(_) => to.JumpingFlee? || to.Fleeing?
    case JumpingFleeReturn(_) => to.JumpingFleeReturn? || to.ReturningToFlee?
    case JumpingReturn(_) => to.JumpingReturn? || to.Returning?
    case JumpingWorried(_) => to.JumpingWorried? || to.RunningWorried?
    case JumpingWorriedReturn(_) => to.JumpingWorriedReturn? || to.ReturningWorried?
    case Returning(_) => to.Returning? || to.Running?
    case ReturningToFlee(_) => to.ReturningToFlee? || to.Fleeing?
    case ReturningWorried(_) => to.ReturningWorried? || to.RunningWorried?
    case Running(_) => to.Running?
    case RunningWorried(_) => to.RunningWorried? || to.ReturningWorried?
  }

  /** Every state handles `Update`, and the tick ends in a permitted successor. */
  lemma UpdateIsHandled(m: DogStateMachine)
    ensures Handles(m, Update)
    ensures UpdateSuccessor(m, m.UpdateMachine())
  {
  }

  /** `Land` ends every jump: each of the six jumping states lands in its non-jumping
      counterpart. */
  lemma LandEndsJump(m: DogStateMachine, p: I16)
    requires m.IsJumping()
    ensures !m.Transition(Land(p)).IsJumping()
    ensures m.Jumping? ==> m.Transition(Land(p)).Running?
    ensures m.JumpingFlee? ==> m.Transition(Land(p)).Fleeing?
    ensures m.JumpingFleeReturn? ==> m.Transition(Land(p)).ReturningToFlee?
    ensures m.JumpingReturn? ==> m.Transition(Land(p)).Returning?
    ensures m.JumpingWorried? ==> m.Transition(Land(p)).RunningWorried?
    ensures m.JumpingWorriedReturn? ==> m.Transition(Land(p)).ReturningWorried?
  {
  }

  /** `Land` outside the jumping states and ReturningToFlee is ignored; in particular a
      fleeing dog cannot land. */
  lemma LandIgnoredOnGround(m: DogStateMachine, p: I16)
    requires !m.IsJumping() && !m.ReturningToFlee?
    ensures m.Transition(Land(p)) == m
  {
  }

  /** A dog in the air ignores `Jump`, `Flee`, `Worry` and `OffPlatform`. */
  lemma AirborneIgnoresCommands(m: DogStateMachine)
    requires m.IsJumping()
    ensures m.Transition(Jump) == m
    ensures m.Transition(Flee) == m
    ensures m.Transition(Worry) == m
    ensures m.Transition(OffPlatform) == m
  {
  }

  /** `Flee` is accepted only when returning or running; a returning dog then stops
      moving horizontally and flees from where it is. */
  lemma FleeAcceptance(m: DogStateMachine)
    ensures !(m.Returning? || m.Running?) ==> m.Transition(Flee) == m
    ensures m.Returning? ==>
      && m.Transition(Flee).Fleeing?
      && m.Transition(Flee).Context().velocity.x == 0
      && m.Transition(Flee).Context().position == m.Context().position
  {
  }

  /** `Worry` is accepted only when fleeing or returning to flee. */
  lemma WorryAcceptance(m: DogStateMachine)
    ensures !(m.Fleeing? || m.ReturningToFlee?) ==> m.Transition(Worry) == m
  {
  }

  /** `OffPlatform` is accepted only when fleeing, running or running worried. */
  lemma OffPlatformAcceptance(m: DogStateMachine)
    ensures !(m.Fleeing? || m.Running? || m.RunningWorried?) ==> m.Transition(OffPlatform) == m
  {
  }

  /** A returning, returning-worried or running-worried dog that jumps takes off at
      JUMP_SPEED into the matching jumping state, keeping its animation frame and position. */
  lemma ReturningJump(m: DogStateMachine)
    requires m.Returning? || m.ReturningWorried? || m.RunningWorried?
    ensures m.Transition(Jump).IsJumping()
    ensures m.Transition(Jump).Context().velocity.y == JUMP_SPEED
    ensures m.Transition(Jump).Context().frame == m.Context().frame
    ensures m.Transition(Jump).Context().position == m.Context().position
  {
  }

  function VariantIndex(m: DogStateMachine): nat {
    match m
    case Fleeing(_) => 0
    case Jumping(_) => 1
    case JumpingFlee(_) => 2
    case JumpingFleeReturn(_) => 3
    case JumpingReturn(_) => 4
    case JumpingWorried(_) => 5
    case JumpingWorriedReturn(_) => 6
    case Returning(_) => 7
    case ReturningToFlee(_) => 8
    case ReturningWorried(_) => 9
    case Running(_) => 10
    case RunningWorried(_) => 11
  }

  /** Each state has its own name. */
  lemma StateNamesDistinct(a: DogStateMachine, b: DogStateMachine)
    ensures a.StateName() == b.StateName() <==> VariantIndex(a) == VariantIndex(b)
  {
  }
}
