/** A jump mark for the dog beside an obstacle (src/game/obstacles/obstacle_mark.rs).
    The mark publishes `DogHitMark` / `DogOffMark` on the edges of "the dog is on me"
    and learns that the dog is on it only when its own event comes back through the
    event queue. Its `&mut self` updates (`move_horizontally`, `process_event`) are
    modelled as functions returning the updated mark. */
module ObstacleMarks {
  import opened Ints
  import opened Geometry
  import opened Events
  import Game

  datatype ObstacleMarkDirection = Left | Right

  datatype ObstacleMark = ObstacleMark(
    direction: ObstacleMarkDirection,
    publisher: EventPublisher,
    hasDog: bool,
    id: string,
    position: Point)
  {
    /** The trigger: one pixel wide, from the mark's position down to the canvas bottom. */
    function Mark(): (r: Rect)
      ensures r.position == position && r.width == 1
      ensures r.height == Wrap16(Game.HEIGHT - position.y)
      ensures InI16(Game.HEIGHT - position.y) ==> r.Bottom() == Game.HEIGHT
    {
      Geometry.New(position, 1, Wrap16(Game.HEIGHT - position.y))
    }

    /** A left mark is for a dog heading right, a right mark for a dog heading left. */
    predicate Relevant(movingLeft: bool, movingRight: bool) {
      (direction.Left? && movingRight) || (direction.Right? && movingLeft)
    }

    /** Whether a dog with box `dogBox` heading as given is on the mark. */
    predicate OnMark(dogBox: Rect, movingLeft: bool, movingRight: bool) {
      Relevant(movingLeft, movingRight) && dogBox.Intersects(Mark())
    }

    /** What `navigate` publishes: only a change of `onMark` against `hasDog` is news. */
    function NavigationEvents(onMark: bool): (r: seq<GameEvent>)
      ensures onMark == hasDog <==> r == []
      ensures onMark && !hasDog ==> r == [DogHitMark(id)]
      ensures !onMark && hasDog ==> r == [DogOffMark(id)]
    {
      if onMark && !hasDog then [DogHitMark(id)]
      else if !onMark && hasDog then [DogOffMark(id)]
      else []
    }

    /** Publishes the edge events for the dog; the mark itself does not change. `navigate`
        reads the dog's bounding box and heading, which are taken here as arguments. */
    method Navigate(dogBox: Rect, movingLeft: bool, movingRight: bool)
      modifies publisher.events
      ensures publisher.events.contents ==
        old(publisher.events.contents) + NavigationEvents(OnMark(dogBox, movingLeft, movingRight))
    {
      var isOnMark := OnMark(dogBox, movingLeft, movingRight);
      if isOnMark && !hasDog {
        publisher.Publish(DogHitMark(id));
      }
      if !isOnMark && hasDog {
        publisher.Publish(DogOffMark(id));
      }
    }

    /** Only this mark's own `DogHitMark` / `DogOffMark` set or clear `hasDog`. */
    function ProcessEvent(event: GameEvent): (r: ObstacleMark)
      ensures event == DogHitMark(id) ==> r == this.(hasDog := true)
      ensures event == DogOffMark(id) ==> r == this.(hasDog := false)
      ensures event != DogHitMark(id) && event != DogOffMark(id) ==> r == this
    {
      match event
      case DogHitMark(i) => if i == id then this.(hasDog := true) else this
      case DogOffMark(i) => if i == id then this.(hasDog := false) else this
      case _ => this
    }

    /** Shifts the mark by `distance` (an `i16` addition); nothing else changes. */
    function MoveHorizontally(distance: I16): (r: ObstacleMark)
      ensures r.position.x == Wrap16(position.x + distance)
      ensures InI16(position.x + distance) ==> r.position.x == position.x + distance
      ensures r == this.(position := r.position) && r.position.y == position.y
    {
      this.(position := position.(x := Wrap16(position.x + distance)))
    }

    /** The right edge of the one-pixel trigger. */
    function Right(): (r: I16)
      ensures r == Mark().Right()
      ensures InI16(position.x + 1) ==> r == position.x + 1
    {
      Wrap16(position.x + 1)
    }
  }

  function DirectionTag(direction: ObstacleMarkDirection): string {
    match direction
    case Left => "l"
    case Right => "r"
  }

  /** A new mark of the obstacle `obstacleId` is called "<obstacleId>_lm" or
      "<obstacleId>_rm" and has not seen the dog. */
  function New(position: Point, direction: ObstacleMarkDirection, obstacleId: string, publisher: EventPublisher): (r: ObstacleMark)
    ensures direction.Left? ==> r.id == obstacleId + "_lm"
    ensures direction.Right? ==> r.id == obstacleId + "_rm"
    ensures !r.hasDog
    ensures r.position == position && r.direction == direction && r.publisher == publisher
  {
    ObstacleMark(direction, publisher, false, obstacleId + "_" + DirectionTag(direction) + "m", position)
  }

  /** Marks of different obstacles, or on different sides of one obstacle, have different ids. */
  lemma MarkIdsDistinct(p1: Point, d1: ObstacleMarkDirection, o1: string,
                        p2: Point, d2: ObstacleMarkDirection, o2: string, publisher: EventPublisher)
    requires o1 != o2 || d1 != d2
    ensures New(p1, d1, o1, publisher).id != New(p2, d2, o2, publisher).id
  {
    var id1 := New(p1, d1, o1, publisher).id;
    var id2 := New(p2, d2, o2, publisher).id;
    if |o1| != |o2| {
      assert |id1| != |id2|;
    } else if o1 != o2 {
      assert id1[..|o1|] == o1 && id2[..|o2|] == o2;
    } else {
      assert id1[|o1| + 1] != id2[|o2| + 1];
    }
  }

  /** The events of a batch handed to the mark, first to last. */
  function ProcessAll(m: ObstacleMark, events: seq<GameEvent>): ObstacleMark {
    if events == [] then m
    else ProcessAll(m, events[..|events| - 1]).ProcessEvent(events[|events| - 1])
  }

  /** One game tick as the mark sees it: it navigates, and what it published is delivered
      back to it before the next tick. */
  function Tick(m: ObstacleMark, onMark: bool): ObstacleMark {
    ProcessAll(m, m.NavigationEvents(onMark))
  }

  /** The mark after a run of ticks in which the dog was on it as `trace` says. */
  function Run(m: ObstacleMark, trace: seq<bool>): ObstacleMark {
    if trace == [] then m else Tick(Run(m, trace[..|trace| - 1]), trace[|trace| - 1])
  }

  /** Everything the mark published during the run. */
  function Published(m: ObstacleMark, trace: seq<bool>): seq<GameEvent> {
    if trace == [] then []
    else
      var init := trace[..|trace| - 1];
      Published(m, init) + Run(m, init).NavigationEvents(trace[|trace| - 1])
  }

  /** The last value of a boolean signal that started at `initial`. */
  function Latest(initial: bool, trace: seq<bool>): bool {
    if trace == [] then initial else trace[|trace| - 1]
  }

  /** Reference definition: a hit event at every rising edge of the signal and an off
      event at every falling edge. */
  function EdgeEvents(id: string, initial: bool, trace: seq<bool>): seq<GameEvent> {
    if trace == [] then []
    else
      var init := trace[..|trace| - 1];
      var before := Latest(initial, init);
      var now := trace[|trace| - 1];
      EdgeEvents(id, initial, init)
        + (if now && !before then [DogHitMark(id)] else if !now && before then [DogOffMark(id)] else [])
  }

  /** The handshake in one tick: whatever `navigate` publishes, once it is delivered
      `hasDog` agrees with the dog, so the next tick in the same situation publishes nothing. */
  lemma Handshake(m: ObstacleMark, onMark: bool)
    ensures Tick(m, onMark) == m.(hasDog := onMark)
    ensures Tick(m, onMark).NavigationEvents(onMark) == []
  {
    var events := m.NavigationEvents(onMark);
    if events != [] {
      assert events[..0] == [];
      assert ProcessAll(m, events) == m.ProcessEvent(events[0]);
    }
  }

  /** Over a whole run the mark only ever changes `hasDog`, which follows the dog. */
  lemma {:induction false} RunFollowsDog(m: ObstacleMark, trace: seq<bool>)
    ensures Run(m, trace) == m.(hasDog := Latest(m.hasDog, trace))
  {
    if trace != [] {
      var init := trace[..|trace| - 1];
      RunFollowsDog(m, init);
      Handshake(Run(m, init), trace[|trace| - 1]);
    }
  }

  /** With every published event delivered back, the mark publishes exactly the edges of
      the dog's presence: one `DogHitMark` per arrival and one `DogOffMark` per departure. */
  lemma {:induction false} PublishesEdges(m: ObstacleMark, trace: seq<bool>)
    ensures Published(m, trace) == EdgeEvents(m.id, m.hasDog, trace)
  {
    if trace != [] {
      var init := trace[..|trace| - 1];
      PublishesEdges(m, init);
      RunFollowsDog(m, init);
    }
  }

  /** A dog that stays on a fresh mark for `n > 0` ticks is announced exactly once. */
  lemma {:induction false} OneHitPerVisit(m: ObstacleMark, n: nat)
    requires !m.hasDog && n > 0
    ensures Published(m, seq(n, i => true)) == [DogHitMark(m.id)]
  {
    PublishesEdges(m, seq(n, i => true));
    StayingEdges(m.id, n);
  }

  lemma {:induction false} StayingEdges(id: string, n: nat)
    requires n > 0
    ensures EdgeEvents(id, false, seq(n, i => true)) == [DogHitMark(id)]
  {
    var trace := seq(n, i => true);
    assert trace[..n - 1] == seq(n - 1, i => true);
    if n > 1 {
      StayingEdges(id, n - 1);
    }
  }

  /** Whether `e` is one of the two events the mark called `id` reacts to. */
  predicate AddressedTo(e: GameEvent, id: string) {
    e == DogHitMark(id) || e == DogOffMark(id)
  }

  /** Handing over two batches one after the other is handing over their concatenation. */
  lemma {:induction false} ProcessAllAppend(m: ObstacleMark, a: seq<GameEvent>, b: seq<GameEvent>)
    ensures ProcessAll(m, a + b) == ProcessAll(ProcessAll(m, a), b)
  {
    if b == [] {
      assert a + b == a;
    } else {
      assert (a + b)[..|a + b| - 1] == a + b[..|b| - 1];
      ProcessAllAppend(m, a, b[..|b| - 1]);
    }
  }

  /** Events meant for other marks, and all other kinds of event, leave the mark as it is. */
  lemma {:induction false} IgnoresOthers(m: ObstacleMark, events: seq<GameEvent>)
    requires forall i :: 0 <= i < |events| ==> !AddressedTo(events[i], m.id)
    ensures ProcessAll(m, events) == m
  {
    if events != [] {
      IgnoresOthers(m, events[..|events| - 1]);
    }
  }

  /** The handshake inside a shared queue: when the mark's own `navigate` output is
      delivered among events for others, the mark ends up agreeing with the dog. */
  lemma SettlesAmongOthers(m: ObstacleMark, onMark: bool, before: seq<GameEvent>, after: seq<GameEvent>)
    requires forall i :: 0 <= i < |before| ==> !AddressedTo(before[i], m.id)
    requires forall i :: 0 <= i < |after| ==> !AddressedTo(after[i], m.id)
    ensures ProcessAll(m, before + m.NavigationEvents(onMark) + after) == m.(hasDog := onMark)
  {
    var own := m.NavigationEvents(onMark);
    ProcessAllAppend(m, before + own, after);
    ProcessAllAppend(m, before, own);
    IgnoresOthers(m, before);
    Handshake(m, onMark);
    IgnoresOthers(m.(hasDog := onMark), after);
  }
}
