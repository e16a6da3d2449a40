/** The game's state machine (src/game/game_states.rs): always exactly one of Ready,
    Walking or GameOver, each holding the walk, and `update` dispatches a tick to the
    current state. */
module GameStates {
  import Input
  import opened Walks
  import WalkingState
  import ReadyState
  import GameOverState

  datatype WalkTheDogStateMachine = Ready(walk: Walk) | Walking(walk: Walk) | GameOver(walk: Walk)

  /** Which of the three states the machine is in. */
  datatype Phase = ReadyPhase | WalkingPhase | GameOverPhase

  function PhaseOf(m: WalkTheDogStateMachine): Phase {
    match m
    case Ready(_) => ReadyPhase
    case Walking(_) => WalkingPhase
    case GameOver(_) => GameOverPhase
  }

  /** The state after one tick: Ready leaves for Walking on ArrowRight, GameOver for
      Ready on the new-game signal, and Walking stays Walking. */
  function NextPhase(p: Phase, arrowRight: bool, newGame: bool): (r: Phase)
    ensures r == GameOverPhase ==> p == GameOverPhase
    ensures r != p <==> (p == ReadyPhase && arrowRight) || (p == GameOverPhase && newGame)
  {
    match p
    case ReadyPhase => if arrowRight then WalkingPhase else ReadyPhase
    case WalkingPhase => WalkingPhase
    case GameOverPhase => if newGame then ReadyPhase else GameOverPhase
  }

  /** The state after a run of ticks, given each tick's ArrowRight and new-game inputs. */
  function PhaseAfter(p: Phase, inputs: seq<(bool, bool)>): Phase {
    if inputs == [] then p
    else
      var last := inputs[|inputs| - 1];
      NextPhase(PhaseAfter(p, inputs[..|inputs| - 1]), last.0, last.1)
  }

  /** No run of ticks from Ready or Walking reaches GameOver: nothing in this dispatcher
      ever enters it. */
  lemma {:induction false} GameOverUnreachable(p: Phase, inputs: seq<(bool, bool)>)
    requires p != GameOverPhase
    ensures PhaseAfter(p, inputs) != GameOverPhase
  {
    if inputs != [] {
      GameOverUnreachable(p, inputs[..|inputs| - 1]);
    }
  }

  /** Once Walking, every later tick is Walking. */
  lemma {:induction false} WalkingForever(inputs: seq<(bool, bool)>)
    ensures PhaseAfter(WalkingPhase, inputs) == WalkingPhase
  {
    if inputs != [] {
      WalkingForever(inputs[..|inputs| - 1]);
    }
  }

  /** The walk is well formed, every live obstacle has exactly one subscriber, and no
      obstacle is listed twice. */
  predicate Playable(walk: Walk)
    reads walk, walk.segmentFactory
  {
    walk.Valid() && walk.Subscribed() && WalkingState.Distinct(walk.obstacles)
  }

  /** `WalkTheDogStateMachine::update`: GameOver ignores the keys, Ready and Walking get
      them; the machine moves as `NextPhase` says and keeps its walk playable.
      `newGame` is whether the new-game signal was waiting; `choice` is the segment a
      generation this tick would draw. */
  method Update(m: WalkTheDogStateMachine, keys: Input.KeyState, newGame: bool, choice: int)
    returns (r: WalkTheDogStateMachine)
    requires Playable(m.walk) && 0 <= choice < 6
    modifies m.walk`backgrounds, m.walk`cells, m.walk`obstacles, m.walk`subscribers, m.walk`timeline
    modifies m.walk.boy, m.walk.dog, m.walk.events, m.walk.segmentFactory
    ensures r.walk == m.walk
    ensures PhaseOf(r) == NextPhase(PhaseOf(m), keys.IsPressed("ArrowRight"), newGame)
    ensures Playable(r.walk)
  {
    match m
    case GameOver(walk) =>
      var e := GameOverState.Update(walk, newGame);
      if newGame {
        RangeDistinct(|old(walk.cells)|, |walk.obstacles|);
      }
      r := FromGameOver(e);
    case Ready(walk) =>
      var e := ReadyState.Update(walk, keys);
      r := FromReady(e);
    case Walking(walk) =>
      WalkOn(walk, keys, choice);
      r := Walking(walk);
  }

  /** A Walking tick keeps the walk playable. */
  method WalkOn(walk: Walk, keys: Input.KeyState, choice: int)
    requires Playable(walk) && 0 <= choice < 6
    modifies walk`backgrounds, walk`cells, walk`obstacles, walk`subscribers, walk`timeline
    modifies walk.boy, walk.events, walk.segmentFactory
    ensures Playable(walk)
  {
    ghost var t := WalkingState.TrackOf(walk);
    var next := WalkingState.Update(walk, keys, choice);
    ghost var boy := WalkingState.M.UpdateMachine(WalkingState.Commanded(t.boy, keys.IsPressed("Space"),
                                                                          keys.IsPressed("ArrowDown")));
    WalkingState.AdvancedDistinct(t.(boy := boy), WalkingState.ScrollSpeed(boy), walk.boy.spriteSheet, next);
  }

  /** Consecutive cell indices are all different. */
  lemma RangeDistinct(base: nat, n: nat)
    ensures WalkingState.Distinct(Range(base, n))
  {
  }

  /** `From<ReadyEndState>`: a started walk is Walking, otherwise Ready. */
  function FromReady(e: ReadyState.ReadyEndState): (r: WalkTheDogStateMachine)
    ensures r.walk == e.walk && (r.Walking? <==> e.Complete?) && (r.Ready? <==> e.Continue?)
  {
    match e
    case Complete(walk) => Walking(walk)
    case Continue(walk) => Ready(walk)
  }

  /** `From<GameOverEndState>`: a new game is Ready, otherwise GameOver. */
  function FromGameOver(e: GameOverState.GameOverEndState): (r: WalkTheDogStateMachine)
    ensures r.walk == e.walk && (r.Ready? <==> e.Complete?) && (r.GameOver? <==> e.Continue?)
  {
    match e
    case Complete(walk) => Ready(walk)
    case Continue(walk) => GameOver(walk)
  }
}
