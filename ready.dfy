/** The Ready game state (src/game/game_states/ready.rs): the runner idles and the dog
    runs until ArrowRight starts the walk. */
module ReadyState {
  import Input
  import M = BoyMachine
  import DogMachine
  import opened Walks

  /** What a Ready tick ends in: the walk started (Walking), or still Ready. */
  datatype ReadyEndState = Complete(walk: Walk) | Continue(walk: Walk)

  /** `update`: the runner ticks, then the dog; with ArrowRight held the runner is told
      to run right and the state becomes Walking. Nothing else in the walk changes. */
  method Update(walk: Walk, keys: Input.KeyState) returns (r: ReadyEndState)
    modifies walk.boy, walk.dog
    ensures r.walk == walk
    ensures r.Complete? <==> keys.IsPressed("ArrowRight")
    ensures var ticked := M.UpdateMachine(old(walk.boy.stateMachine));
      walk.boy.stateMachine == if r.Complete? then M.Transition(ticked, M.Run) else ticked
    ensures walk.dog.stateMachine == old(walk.dog.stateMachine).Transition(DogMachine.Update)
    ensures unchanged(walk, walk.events, walk.segmentFactory)
  {
    walk.boy.Update();
    walk.dog.Update();
    if keys.IsPressed("ArrowRight") {
      r := StartRunning(walk);
    } else {
      r := Continue(walk);
    }
  }

  /** `start_running`: one `run_right` on the runner, and the walk moves on to Walking. */
  method StartRunning(walk: Walk) returns (r: ReadyEndState)
    modifies walk.boy
    ensures r == Complete(walk)
    ensures walk.boy.stateMachine == M.Transition(old(walk.boy.stateMachine), M.Run)
  {
    walk.boy.RunRight();
    r := Complete(walk);
  }
}
