/** What an obstacle's `check_intersection` does to the runner, decided from the
    runner's state before the call (src/game/obstacles/barrier.rs,
    src/game/obstacles/platform.rs, src/game/barrier.rs, src/game/platform.rs). */
module Collisions {
  import opened Ints
  import opened Events
  import M = BoyMachine

  /** No contact; the runner lands on a surface at height `top`; the runner hits the obstacle. */
  datatype Contact = NoContact | LandsOn(top: I16) | Hits

  /** The runner's machine after a contact: a landing is one `Land` transition, a hit one
      `KnockOut` transition, and no contact leaves it alone. */
  function After(c: Contact, before: M.RedHatBoyStateMachine): M.RedHatBoyStateMachine {
    match c
    case NoContact => before
    case LandsOn(top) => M.Transition(before, M.Land(top))
    case Hits => M.Transition(before, M.KnockOut)
  }

  /** A publishing obstacle announces a hit, and nothing else. */
  function Announced(c: Contact): seq<GameEvent> {
    if c == Hits then [BoyHitsObstacle] else []
  }

  /** The runner's machine and the event queue after a contact with a publishing obstacle. */
  predicate Applied(c: Contact, before: M.RedHatBoyStateMachine, after: M.RedHatBoyStateMachine,
                    queueBefore: seq<GameEvent>, queueAfter: seq<GameEvent>)
  {
    after == After(c, before) && queueAfter == queueBefore + Announced(c)
  }
}
