/** The GameOver game state (src/game/game_states/game_over.rs): the walk stands still
    until the new-game signal arrives, which resets the walk and returns to Ready. The
    signal's channel is modelled as a boolean: whether a message was waiting. */
module GameOverState {
  import opened Walks
  import Segments
  import Obstacles
  import DogMachine
  import DogRunning
  import RedHatBoys

  /** What a GameOver tick ends in: a new game (Ready), or still GameOver. */
  datatype GameOverEndState = Complete(walk: Walk) | Continue(walk: Walk)

  /** `update`: without the signal nothing moves, not the runner, the dog nor the queue;
      with it the walk is reset and the state becomes Ready. The reset is the corrected
      one (`Walk.Reset`); as written, `Walk::reset` panics (`Walk.ResetAsWritten`). */
  method Update(walk: Walk, newGame: bool) returns (r: GameOverEndState)
    requires walk.Valid()
    modifies walk`cells, walk`obstacles, walk`timeline, walk`subscribers, walk.segmentFactory, walk.boy, walk.dog
    ensures r.walk == walk
    ensures r.Complete? <==> newGame
    ensures !newGame ==> unchanged(walk, walk.segmentFactory, walk.boy, walk.dog)
    ensures newGame ==> Restarted(walk, |old(walk.cells)|)
    ensures newGame ==> walk.boy.stateMachine == RedHatBoys.M.ResetMachine(old(walk.boy.stateMachine))
    ensures newGame ==> walk.segmentFactory.id == old(walk.segmentFactory.id) + 1
    ensures walk.Valid()
    ensures newGame || old(walk.Subscribed()) ==> walk.Subscribed()
  {
    if newGame {
      r := NewGame(walk);
    } else {
      r := Continue(walk);
    }
  }

  /** The walk after a reset whose first new cell is `base`: the opening segment is all
      that is live, the dog and every one of its obstacles are subscribed in that order,
      the timeline is at its right end and the dog runs again. */
  predicate Restarted(walk: Walk, base: nat)
    reads walk, walk.segmentFactory, walk.dog
  {
    var opening := Segments.Segment(Segments.STONE_AND_PLATFORM_SEGMENT_ID, walk.segmentFactory.id, 0,
                                    walk.stone, walk.publisher);
    && |walk.cells| == base + |opening| && walk.cells[base..] == opening
    && walk.obstacles == Range(base, |opening|)
    && walk.subscribers == [DogSubscriber] + SubscribersFrom(base, |opening|)
    && walk.timeline == Obstacles.Rightmost(opening)
    && walk.dog.stateMachine == DogMachine.Running(DogRunning.New())
  }

  /** `new_game`: the walk is reset and the state becomes Ready. */
  method NewGame(walk: Walk) returns (r: GameOverEndState)
    requires walk.Valid()
    modifies walk`cells, walk`obstacles, walk`timeline, walk`subscribers, walk.segmentFactory, walk.boy, walk.dog
    ensures r == Complete(walk)
    ensures Restarted(walk, |old(walk.cells)|)
    ensures walk.boy.stateMachine == RedHatBoys.M.ResetMachine(old(walk.boy.stateMachine))
    ensures walk.segmentFactory.id == old(walk.segmentFactory.id) + 1
    ensures walk.Valid() && walk.Subscribed()
  {
    walk.Reset();
    r := Complete(walk);
  }
}
