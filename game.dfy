/** Game-wide constants (src/game.rs). */
module Game {
  import opened Ints

  /** Canvas height. */
  const HEIGHT: I16 := 600

  /** `game::FLOOR`, which the dog's starting position refers to; its value is not part
      of this model. */
  const FLOOR: I16
}
