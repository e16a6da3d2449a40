/** The Walking game state (src/game/game_states/walking.rs): one tick steers and
    ticks the runner, scrolls the backgrounds and the obstacles by the runner's speed,
    checks every obstacle against the runner, and extends the course when the
    timeline runs short. */
module WalkingState {
  import opened Ints
  import opened Events
  import Images
  import Input
  import RedHatBoys
  import M = BoyMachine
  import Sheets
  import Collisions
  import opened Obstacles
  import opened Walks
  import Segments

  const TIMELINE_MINIMUM: I16 := 1000

  /** What scrolling the obstacles changes: the cells, the runner's machine and the queue. */
  datatype Scene = Scene(cells: seq<Obstacle>, boy: M.RedHatBoyStateMachine, queue: seq<GameEvent>)

  /** The contact an obstacle makes with the runner whose machine is `sm`. */
  function ContactWith(o: Obstacle, sheet: Sheets.Sheet, sm: M.RedHatBoyStateMachine): Collisions.Contact {
    o.Contact(M.IsRunning(sm), RedHatBoys.CollisionBox(sheet, sm), sm.Context().velocity.y, sm.Context().position.y)
  }

  /** The obstacle in cell `c` moves by `speed`, then checks the runner. */
  function ScrollOne(s: Scene, c: nat, speed: I16, sheet: Sheets.Sheet): Scene {
    if c < |s.cells| then
      var moved := s.cells[c].Shifted(speed);
      var contact := ContactWith(moved, sheet, s.boy);
      Scene(s.cells[c := moved], Collisions.After(contact, s.boy), s.queue + Collisions.Announced(contact))
    else s
  }

  /** The live obstacles, in list order, each moved and then checked against the runner.
      Obstacles keep their ids and publishers, and the queue only gains hit events. */
  function ScrollAll(s: Scene, live: seq<nat>, speed: I16, sheet: Sheets.Sheet): (r: Scene)
    ensures SameObstacles(r.cells, s.cells)
    ensures |s.queue| <= |r.queue| && r.queue[..|s.queue|] == s.queue
    ensures forall i :: |s.queue| <= i < |r.queue| ==> r.queue[i] == BoyHitsObstacle
  {
    if live == [] then s
    else
      var p := ScrollAll(s, live[..|live| - 1], speed, sheet);
      var r := ScrollOne(p, live[|live| - 1], speed, sheet);
      assert r.queue[..|p.queue|] == p.queue;
      r
  }

  /** The runner's machine after the Space and ArrowDown commands: a jump first, then a slide. */
  function Commanded(sm: M.RedHatBoyStateMachine, space: bool, down: bool): M.RedHatBoyStateMachine {
    var jumped := if space then M.Transition(sm, M.Jump) else sm;
    if down then M.Transition(jumped, M.Slide) else jumped
  }

  /** The speed the scene scrolls at: the runner's walking speed negated in `i16`. */
  function ScrollSpeed(sm: M.RedHatBoyStateMachine): I16 {
    Wrap16(-(sm.Context().velocity.x as int))
  }

  /** Background tiles after the scroll: both move by `speed`; a tile past the left edge
      is put where the other ends, the first tile first. */
  function Scrolled(a: Images.Image, b: Images.Image, speed: I16): (r: (Images.Image, Images.Image)) {
    var first := a.MoveHorizontally(speed);
    var second := b.MoveHorizontally(speed);
    var first' := if first.Right() < 0 then first.SetX(second.Right()) else first;
    var second' := if second.Right() < 0 then second.SetX(first'.Right()) else second;
    (first', second')
  }

  /** The obstacle side of a walk: everything a tick changes besides the backgrounds. */
  datatype Track = Track(cells: seq<Obstacle>, live: seq<nat>, subscribers: seq<Subscriber>,
                         boy: M.RedHatBoyStateMachine, queue: seq<GameEvent>, timeline: I16, counter: nat)

  function TrackOf(walk: Walk): Track
    reads walk, walk.boy, walk.events, walk.segmentFactory
  {
    Track(walk.cells, walk.obstacles, walk.subscribers, walk.boy.stateMachine, walk.events.contents,
          walk.timeline, walk.segmentFactory.id)
  }

  /** `retain` and then `for_each`: the obstacles whose right edge is past zero stay
      live, and each of them moves by `speed` and checks the runner, in list order. */
  function Moved(t: Track, speed: I16, sheet: Sheets.Sheet): (r: Track)
    ensures forall j :: j in r.live <==> j in t.live && j < |t.cells| && t.cells[j].Right() > 0
    ensures SameObstacles(r.cells, t.cells)
    ensures |t.queue| <= |r.queue| && r.queue[..|t.queue|] == t.queue
    ensures forall i :: |t.queue| <= i < |r.queue| ==> r.queue[i] == BoyHitsObstacle
    ensures r.timeline == t.timeline && r.counter == t.counter && r.subscribers == t.subscribers
  {
    var kept := Surviving(t.cells, t.live);
    var scene := ScrollAll(Scene(t.cells, t.boy, t.queue), kept, speed, sheet);
    t.(cells := scene.cells, live := kept, boy := scene.boy, queue := scene.queue)
  }

  /** The segment a tick generates from a track whose counter and timeline are given:
      built with the bumped counter, placed `OBSTACLE_BUFFER` past the timeline. */
  function NextSegment(choice: int, counter: nat, timeline: I16, stone: Images.HtmlImage,
                       publisher: EventPublisher): seq<Obstacle>
  {
    Segments.Segment(choice, counter + 1, Wrap16(timeline + OBSTACLE_BUFFER), stone, publisher)
  }

  /** The timeline rule: below the minimum the segment `next` is appended and the
      timeline jumps to its right edge; otherwise the timeline moves by `speed`. */
  function Extended(t: Track, speed: I16, next: seq<Obstacle>): Track {
    if t.timeline < TIMELINE_MINIMUM then
      t.(cells := t.cells + next, live := t.live + Range(|t.cells|, |next|),
         subscribers := t.subscribers + SubscribersFrom(|t.cells|, |next|),
         timeline := Rightmost(next), counter := t.counter + 1)
    else
      t.(timeline := Wrap16(t.timeline + speed))
  }

  /** The obstacle side of a tick at `speed`: moved, then extended by `next` when the
      timeline is short. */
  function Advanced(t: Track, speed: I16, sheet: Sheets.Sheet, next: seq<Obstacle>): Track {
    Extended(Moved(t, speed, sheet), speed, next)
  }

  /** `Walking::update`. `choice` is the random segment draw that
      `generate_next_segment` would take. */
  method Update(walk: Walk, keys: Input.KeyState, choice: int) returns (ghost next: seq<Obstacle>)
    requires walk.Valid() && 0 <= choice < 6
    modifies walk`backgrounds, walk`cells, walk`obstacles, walk`subscribers, walk`timeline
    modifies walk.boy, walk.events, walk.segmentFactory
    ensures walk.Valid()
    ensures old(walk.Subscribed()) ==> walk.Subscribed()
    ensures var boy := M.UpdateMachine(Commanded(old(walk.boy.stateMachine), keys.IsPressed("Space"), keys.IsPressed("ArrowDown")));
      Scrolls(walk, old(walk.backgrounds), old(TrackOf(walk)).(boy := boy), ScrollSpeed(boy), next)
    ensures old(walk.timeline) < TIMELINE_MINIMUM ==>
      next == NextSegment(choice, old(walk.segmentFactory.id), old(walk.timeline), walk.stone, walk.publisher)
  {
    ghost var backgrounds, t := walk.backgrounds, TrackOf(walk);
    Steer(walk.boy, keys.IsPressed("Space"), keys.IsPressed("ArrowDown"));
    ghost var steered := TrackOf(walk);
    assert steered == t.(boy := walk.boy.stateMachine);
    var speed := walk.Velocity();
    assert speed == ScrollSpeed(steered.boy);
    next := Scroll(walk, speed, choice);
    assert Scrolls(walk, backgrounds, steered, speed, next);
  }

  /** The runner's part of a tick: Space makes it jump, ArrowDown slide, then it ticks. */
  method Steer(boy: RedHatBoys.RedHatBoy, space: bool, down: bool)
    modifies boy
    ensures boy.stateMachine == M.UpdateMachine(Commanded(old(boy.stateMachine), space, down))
  {
    if space {
      boy.Jump();
    }
    if down {
      boy.Slide();
    }
    boy.Update();
  }

  /** The walk after the scrolling part of a tick from the given old state, at `speed`:
      the backgrounds scrolled, then the obstacle side advanced. */
  ghost predicate Scrolls(walk: Walk, backgrounds: seq<Images.Image>, t: Track, speed: I16, next: seq<Obstacle>)
    reads walk, walk.boy, walk.events, walk.segmentFactory
    requires |backgrounds| == 2 && |walk.backgrounds| == 2
  {
    && (walk.backgrounds[0], walk.backgrounds[1]) == Scrolled(backgrounds[0], backgrounds[1], speed)
    && TrackOf(walk) == Advanced(t, speed, walk.boy.spriteSheet, next)
  }

  /** Everything in a tick after the runner's: backgrounds, obstacles, timeline. */
  method Scroll(walk: Walk, speed: I16, choice: int) returns (ghost next: seq<Obstacle>)
    requires walk.Valid() && 0 <= choice < 6
    modifies walk`backgrounds, walk`cells, walk`obstacles, walk`subscribers, walk`timeline
    modifies walk.boy, walk.events, walk.segmentFactory
    ensures walk.Valid()
    ensures old(walk.Subscribed()) ==> walk.Subscribed()
    ensures Scrolls(walk, old(walk.backgrounds), old(TrackOf(walk)), speed, next)
    ensures old(walk.timeline) < TIMELINE_MINIMUM ==>
      next == NextSegment(choice, old(walk.segmentFactory.id), old(walk.timeline), walk.stone, walk.publisher)
  {
    ghost var t := TrackOf(walk);
    ScrollBackgrounds(walk, speed);
    ghost var tiles := walk.backgrounds;
    assert TrackOf(walk) == t;
    next := Advance(walk, speed, choice);
    assert walk.backgrounds == tiles;
  }

  /** The obstacle and timeline part of a tick. */
  method Advance(walk: Walk, speed: I16, choice: int) returns (ghost next: seq<Obstacle>)
    requires walk.Valid() && 0 <= choice < 6
    modifies walk`cells, walk`obstacles, walk`subscribers, walk`timeline
    modifies walk.boy, walk.events, walk.segmentFactory
    ensures walk.Valid()
    ensures old(walk.Subscribed()) ==> walk.Subscribed()
    ensures TrackOf(walk) == Advanced(old(TrackOf(walk)), speed, walk.boy.spriteSheet, next)
    ensures old(walk.timeline) < TIMELINE_MINIMUM ==>
      next == NextSegment(choice, old(walk.segmentFactory.id), old(walk.timeline), walk.stone, walk.publisher)
  {
    ghost var t := TrackOf(walk);
    Move(walk, speed);
    ghost var moved := TrackOf(walk);
    MovedFrom(t, walk.obstacles, Scene(walk.cells, walk.boy.stateMachine, walk.events.contents), speed,
              walk.boy.spriteSheet);
    assert moved == Moved(t, speed, walk.boy.spriteSheet);
    next := AdvanceTimeline(walk, speed, choice);
  }

  /** Drops the obstacles past the left edge, then moves the rest and checks each
      against the runner. */
  method Move(walk: Walk, speed: I16)
    requires walk.Valid()
    modifies walk`cells, walk`obstacles, walk.boy, walk.events
    ensures walk.obstacles == Surviving(old(walk.cells), old(walk.obstacles))
    ensures Scene(walk.cells, walk.boy.stateMachine, walk.events.contents)
         == ScrollAll(Scene(old(walk.cells), old(walk.boy.stateMachine), old(walk.events.contents)),
                      walk.obstacles, speed, walk.boy.spriteSheet)
    ensures walk.Valid()
    ensures old(walk.Subscribed()) ==> walk.Subscribed()
  {
    RetainObstacles(walk);
    ghost var kept := walk.obstacles;
    ScrollObstacles(walk, speed);
    assert walk.obstacles == kept;
  }

  /** The moved track, given the survivors and the scrolled scene. */
  lemma MovedFrom(t: Track, kept: seq<nat>, scene: Scene, speed: I16, sheet: Sheets.Sheet)
    requires kept == Surviving(t.cells, t.live)
    requires scene == ScrollAll(Scene(t.cells, t.boy, t.queue), kept, speed, sheet)
    ensures Moved(t, speed, sheet) == t.(cells := scene.cells, live := kept, boy := scene.boy, queue := scene.queue)
  {
  }


  /** The background part of `Walking::update`. */
  method ScrollBackgrounds(walk: Walk, speed: I16)
    requires walk.Valid()
    modifies walk`backgrounds
    ensures walk.Valid()
    ensures (walk.backgrounds[0], walk.backgrounds[1]) == Scrolled(old(walk.backgrounds[0]), old(walk.backgrounds[1]), speed)
  {
    var first := walk.backgrounds[0].MoveHorizontally(speed);
    var second := walk.backgrounds[1].MoveHorizontally(speed);
    if first.Right() < 0 {
      first := first.SetX(second.Right());
    }
    if second.Right() < 0 {
      second := second.SetX(first.Right());
    }
    ScrollKeepsTiling(walk.backgrounds[0], walk.backgrounds[1], speed);
    Retiled(walk.backgrounds, [first, second], walk.cells, walk.obstacles, walk.subscribers, walk.publisher,
            walk.segmentFactory.id);
    walk.backgrounds := [first, second];
  }

  /** `obstacles.retain(right > 0)`: the subscribers are left as they are. */
  method RetainObstacles(walk: Walk)
    requires walk.Valid()
    modifies walk`obstacles
    ensures walk.obstacles == Surviving(walk.cells, old(walk.obstacles))
    ensures walk.Valid()
    ensures old(walk.Subscribed()) ==> walk.Subscribed()
  {
    var kept := Retain(walk.cells, walk.obstacles);
    Narrowed(walk.backgrounds, walk.cells, walk.obstacles, walk.subscribers, walk.publisher, walk.segmentFactory.id);
    walk.obstacles := kept;
  }

  /** The `for_each` over the obstacles: each moves by `speed` and then checks the runner. */
  method ScrollObstacles(walk: Walk, speed: I16)
    requires walk.Valid()
    modifies walk`cells, walk.boy, walk.events
    ensures Scene(walk.cells, walk.boy.stateMachine, walk.events.contents)
      == ScrollAll(Scene(old(walk.cells), old(walk.boy.stateMachine), old(walk.events.contents)),
                   walk.obstacles, speed, walk.boy.spriteSheet)
    ensures walk.Valid()
  {
    forall j | j in walk.obstacles ensures j < |walk.cells| && walk.cells[j].Publisher().events == walk.events {
      assert Fits(walk.cells, j, walk.publisher, walk.segmentFactory.id);
    }
    var moved := ScrollEach(walk.cells, walk.obstacles, speed, walk.boy, walk.events);
    Delivered(walk.backgrounds, walk.cells, moved, walk.obstacles, walk.subscribers, walk.publisher,
              walk.segmentFactory.id);
    walk.cells := moved;
  }

  /** The loop of the obstacle scroll, on the cells as a value. */
  method ScrollEach(cells: seq<Obstacle>, live: seq<nat>, speed: I16, boy: RedHatBoys.RedHatBoy, queue: EventQueue)
    returns (r: seq<Obstacle>)
    requires forall j :: j in live ==> j < |cells| && cells[j].Publisher().events == queue
    modifies boy, queue
    ensures Scene(r, boy.stateMachine, queue.contents)
      == ScrollAll(Scene(cells, old(boy.stateMachine), old(queue.contents)), live, speed, boy.spriteSheet)
  {
    r := cells;
    var i := 0;
    while i < |live|
      invariant 0 <= i <= |live|
      invariant Scene(r, boy.stateMachine, queue.contents)
        == ScrollAll(Scene(cells, old(boy.stateMachine), old(queue.contents)), live[..i], speed, boy.spriteSheet)
      invariant |r| == |cells| && forall j :: 0 <= j < |r| ==> r[j].Publisher() == cells[j].Publisher()
    {
      assert live[..i + 1][..i] == live[..i];
      assert live[i] in live;
      var c := live[i];
      var moved := r[c].MoveHorizontally(speed);
      r := r[c := moved];
      moved.CheckIntersection(boy);
      i := i + 1;
    }
    assert live[..i] == live;
  }

  /** The timeline part of a tick: below TIMELINE_MINIMUM a new segment is generated and
      the timeline is not scrolled this tick; otherwise the timeline scrolls by `speed`. */
  method AdvanceTimeline(walk: Walk, speed: I16, choice: int) returns (ghost next: seq<Obstacle>)
    requires walk.Valid() && 0 <= choice < 6
    modifies walk`cells, walk`obstacles, walk`subscribers, walk`timeline, walk.segmentFactory
    ensures TrackOf(walk) == Extended(old(TrackOf(walk)), speed, next)
    ensures old(walk.timeline) < TIMELINE_MINIMUM ==>
      next == NextSegment(choice, old(walk.segmentFactory.id), old(walk.timeline), walk.stone, walk.publisher)
    ensures walk.Valid()
    ensures old(walk.Subscribed()) ==> walk.Subscribed()
  {
    if walk.timeline < TIMELINE_MINIMUM {
      next := NextSegment(choice, walk.segmentFactory.id, walk.timeline, walk.stone, walk.publisher);
      walk.GenerateNextSegment(choice);
    } else {
      next := [];
      walk.timeline := Wrap16(walk.timeline + speed);
    }
  }

  /** No cell index occurs twice in the live list. */
  predicate Distinct(live: seq<nat>) {
    forall i, j :: 0 <= i < j < |live| ==> live[i] != live[j]
  }

  /** The scroll moves every listed obstacle exactly once and leaves every other cell as it was. */
  lemma {:induction false} ScrollAllShifts(s: Scene, live: seq<nat>, speed: I16, sheet: Sheets.Sheet)
    requires Distinct(live) && forall j :: j in live ==> j < |s.cells|
    ensures var r := ScrollAll(s, live, speed, sheet);
      |r.cells| == |s.cells| &&
      forall c :: 0 <= c < |s.cells| ==> r.cells[c] == if c in live then s.cells[c].Shifted(speed) else s.cells[c]
  {
    if live != [] {
      var init := live[..|live| - 1];
      var last := live[|live| - 1];
      assert forall j :: j in live <==> j in init || j == last;
      assert last !in init;
      ScrollAllShifts(s, init, speed, sheet);
    }
  }

  /** `retain` keeps the live list free of repeats. */
  lemma {:induction false} SurvivingDistinct(cells: seq<Obstacle>, live: seq<nat>)
    requires Distinct(live)
    ensures Distinct(Surviving(cells, live))
  {
    if live != [] {
      var init := live[..|live| - 1];
      var last := live[|live| - 1];
      assert last !in init;
      SurvivingDistinct(cells, init);
    }
  }

  /** A tick's scroll moves each surviving obstacle by `speed` exactly once; the cells
      it dropped, and the cells of obstacles dropped earlier, stay where they were. */
  lemma TickShiftsSurvivors(t: Track, speed: I16, sheet: Sheets.Sheet)
    requires Distinct(t.live) && Indexed(t.live, |t.cells|)
    ensures var r := Moved(t, speed, sheet);
      |r.cells| == |t.cells| && Distinct(r.live) &&
      forall c :: 0 <= c < |t.cells| ==> r.cells[c] == if c in r.live then t.cells[c].Shifted(speed) else t.cells[c]
  {
    var kept := Surviving(t.cells, t.live);
    SurvivingDistinct(t.cells, t.live);
    ScrollAllShifts(Scene(t.cells, t.boy, t.queue), kept, speed, sheet);
  }

  /** Extending keeps the live list free of repeats: the new indices name fresh cells. */
  lemma ExtendedDistinct(t: Track, speed: I16, next: seq<Obstacle>)
    requires Distinct(t.live) && Indexed(t.live, |t.cells|)
    ensures var r := Extended(t, speed, next); Distinct(r.live) && Indexed(r.live, |r.cells|)
  {
    var r := Extended(t, speed, next);
    if t.timeline < TIMELINE_MINIMUM {
      var added := Range(|t.cells|, |next|);
      assert r.live == t.live + added;
      forall i, j | 0 <= i < j < |r.live| ensures r.live[i] != r.live[j] {
        if j >= |t.live| && i < |t.live| {
          assert t.live[i] in t.live;
        }
      }
      forall j | j in r.live ensures j < |r.cells| {
        if j !in t.live {
          var k :| 0 <= k < |r.live| && r.live[k] == j;
        }
      }
    }
  }

  /** A whole tick keeps the live list free of repeats and naming cells only. */
  lemma AdvancedDistinct(t: Track, speed: I16, sheet: Sheets.Sheet, next: seq<Obstacle>)
    requires Distinct(t.live) && Indexed(t.live, |t.cells|)
    ensures var r := Advanced(t, speed, sheet, next); Distinct(r.live) && Indexed(r.live, |r.cells|)
  {
    TickShiftsSurvivors(t, speed, sheet);
    ExtendedDistinct(Moved(t, speed, sheet), speed, next);
  }

  /** The timeline rule over a whole tick: the segment factory's counter moves on, and
      the course grows by `next`, exactly when the timeline was short before the tick;
      the cells built before stay in front, and the new segment's obstacles are live. */
  lemma AdvancedTimeline(t: Track, speed: I16, sheet: Sheets.Sheet, next: seq<Obstacle>)
    ensures var r := Advanced(t, speed, sheet, next);
      && (r.counter == t.counter + 1 <==> t.timeline < TIMELINE_MINIMUM)
      && (t.timeline < TIMELINE_MINIMUM ==>
            |r.cells| == |t.cells| + |next| && r.cells[|t.cells|..] == next
            && r.timeline == Rightmost(next)
            && forall c :: |t.cells| <= c < |r.cells| ==> c in r.live)
      && (t.timeline >= TIMELINE_MINIMUM ==>
            |r.cells| == |t.cells| && r.timeline == Wrap16(t.timeline + speed))
  {
    var m := Moved(t, speed, sheet);
    assert |Tags(m.cells)| == |Tags(t.cells)|;
    ExtendedTimeline(m, speed, next);
  }

  lemma ExtendedTimeline(m: Track, speed: I16, next: seq<Obstacle>)
    ensures var r := Extended(m, speed, next);
      && (r.counter == m.counter + 1 <==> m.timeline < TIMELINE_MINIMUM)
      && (m.timeline < TIMELINE_MINIMUM ==>
            |r.cells| == |m.cells| + |next| && r.cells[|m.cells|..] == next
            && r.timeline == Rightmost(next)
            && forall c :: |m.cells| <= c < |r.cells| ==> c in r.live)
      && (m.timeline >= TIMELINE_MINIMUM ==>
            |r.cells| == |m.cells| && r.timeline == Wrap16(m.timeline + speed))
  {
    var r := Extended(m, speed, next);
    if m.timeline < TIMELINE_MINIMUM {
      forall c | |m.cells| <= c < |r.cells| ensures c in r.live {
        assert r.live[|m.live| + (c - |m.cells|)] == c;
      }
    }
  }

  /** Scrolling keeps the two background tiles side by side, whatever the speed. */
  lemma ScrollKeepsTiling(a: Images.Image, b: Images.Image, speed: I16)
    requires Tiled(a, b)
    ensures Tiled(Scrolled(a, b, speed).0, Scrolled(a, b, speed).1)
  {
    var first := a.MoveHorizontally(speed);
    var second := b.MoveHorizontally(speed);
    if a.Right() == b.boundingBox.X() {
      MovedTogether(a, b, speed);
    } else {
      MovedTogether(b, a, speed);
    }
    assert Tiled(first, second);
  }

  /** Two tiles moved by the same distance stay adjacent. */
  lemma MovedTogether(a: Images.Image, b: Images.Image, speed: I16)
    requires a.Right() == b.boundingBox.X()
    ensures a.MoveHorizontally(speed).Right() == b.MoveHorizontally(speed).boundingBox.X()
  {
    var a2 := a.MoveHorizontally(speed);
    var b2 := b.MoveHorizontally(speed);
    EdgesMoveTogether(a.boundingBox.X(), a.boundingBox.width, speed, a.Right(), a2.Right(), b2.boundingBox.X());
  }

  lemma EdgesMoveTogether(x: int, w: int, speed: int, right: int, movedRight: int, movedLeft: int)
    requires right == Wrap16(x + w)
    requires movedRight == Wrap16(Wrap16(x + speed) + w)
    requires movedLeft == Wrap16(right + speed)
    ensures movedRight == movedLeft
  {
    ShiftsCommute(x, w, speed);
  }

  /** The right edge of an image is its left edge plus its width, in `i16`. */
  lemma RightEdge(a: Images.Image)
    ensures a.Right() == Wrap16(a.boundingBox.X() + a.boundingBox.width)
  {
  }

  /** Moving a right edge or moving the left edge and then adding the width agree. */
  lemma ShiftsCommute(x: int, w: int, speed: int)
    ensures Wrap16(Wrap16(x + speed) + w) == Wrap16(Wrap16(x + w) + speed)
  {
    WrapAddCommute(x, speed, w);
  }

  /** New tiles that are side by side keep the walk's shape. */
  lemma Retiled(backgrounds: seq<Images.Image>, tiles: seq<Images.Image>, cells: seq<Obstacle>, live: seq<nat>,
                subs: seq<Subscriber>, publisher: EventPublisher, n: nat)
    requires Shaped(backgrounds, cells, live, subs, publisher, n)
    requires |tiles| == 2 && Tiled(tiles[0], tiles[1])
    ensures Shaped(tiles, cells, live, subs, publisher, n)
  {
  }

  /** Narrowing the live list to the survivors keeps the shape and the subscriptions. */
  lemma Narrowed(backgrounds: seq<Images.Image>, cells: seq<Obstacle>, live: seq<nat>,
                 subs: seq<Subscriber>, publisher: EventPublisher, n: nat)
    requires Shaped(backgrounds, cells, live, subs, publisher, n)
    ensures Shaped(backgrounds, cells, Surviving(cells, live), subs, publisher, n)
    ensures SubscribedOnce(live, subs) ==> SubscribedOnce(Surviving(cells, live), subs)
  {
  }
}
