/** The dog running ahead of the runner (src/game/dog/states/running.rs). */
module DogRunning {
  import opened Ints
  import opened Geometry
  import opened DogContexts
  import Game
  import S = DogStates

  /** The dog starts at the first frame, at x = 10, 27 below `game::FLOOR`. */
  function New(): (s: S.DogState<S.Running>)
    ensures s.context.frame == 0
    ensures s.context.position == Point(10, Wrap16(Game.FLOOR + 27))
  {
    S.DogState(DogContexts.New(0, Point(10, Wrap16(Game.FLOOR + 27))), S.Running)
  }

  /** Keeps running; the context ticks with a 5-frame animation. */
  function Update(s: S.DogState<S.Running>): (r: S.DogState<S.Running>)
    ensures r.context == s.context.Update(5)
    ensures r.context.frame <= 5
  {
    S.DogState(s.context.Update(5), S.Running)
  }
}
