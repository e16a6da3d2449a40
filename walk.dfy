/** The walk (src/game/walk.rs): the runner, the dog, the scrolling backgrounds, the
    live obstacles and the event bus that connects them.

    The source shares every obstacle through `Rc<RefCell<..>>` between the obstacle
    list and the subscriber list. Here every obstacle ever built lives in one cell of
    `cells`; the obstacle list `obstacles` and the subscribers refer to cells by index,
    so an obstacle that leaves the list stays reachable from a subscriber that still
    names its cell, as an `Rc` would keep it alive. */
module Walks {
  import opened Ints
  import opened Geometry
  import opened Events
  import Images
  import RedHatBoys
  import Dogs
  import DogMachine
  import ObstacleMarks
  import opened Obstacles
  import Segments

  const OBSTACLE_BUFFER: I16 := 20

  /** An event subscriber: the dog, or the obstacle in a cell. */
  datatype Subscriber = DogSubscriber | ObstacleSubscriber(cell: nat)

  /** Everything event delivery can change: the obstacle cells and the dog's machine. */
  datatype Listeners = Listeners(cells: seq<Obstacle>, dog: DogMachine.DogStateMachine)

  /** The id and publisher of every cell, in cell order. */
  function Tags(cells: seq<Obstacle>): seq<(string, EventPublisher)> {
    seq(|cells|, c requires 0 <= c < |cells| => (cells[c].Id(), cells[c].Publisher()))
  }

  /** The two cell lists hold obstacles with the same ids and publishers, cell by cell. */
  predicate SameObstacles(a: seq<Obstacle>, b: seq<Obstacle>) {
    Tags(a) == Tags(b)
  }

  /** `process_event` of one subscriber: the dog's own handler, or the obstacle's. */
  function DeliverTo(l: Listeners, s: Subscriber, event: GameEvent): (r: Listeners)
    ensures SameObstacles(r.cells, l.cells)
  {
    match s
    case DogSubscriber => l.(dog := Dogs.DogProcessEvent(l.dog, event))
    case ObstacleSubscriber(c) =>
      if c < |l.cells| then l.(cells := l.cells[c := l.cells[c].ProcessEvent(event)]) else l
  }

  /** One event handed to every subscriber, in list order. */
  function Deliver(l: Listeners, subs: seq<Subscriber>, event: GameEvent): (r: Listeners)
    ensures SameObstacles(r.cells, l.cells)
  {
    if subs == [] then l
    else DeliverTo(Deliver(l, subs[..|subs| - 1], event), subs[|subs| - 1], event)
  }

  /** A batch of events, head first, each handed to every subscriber. */
  function DeliverAll(l: Listeners, subs: seq<Subscriber>, events: seq<GameEvent>): (r: Listeners)
    ensures SameObstacles(r.cells, l.cells)
  {
    if events == [] then l
    else Deliver(DeliverAll(l, subs, events[..|events| - 1]), subs, events[|events| - 1])
  }

  /** Delivering one more event of a batch extends the delivery of the events before it. */
  lemma DeliverOneMore(l: Listeners, subs: seq<Subscriber>, events: seq<GameEvent>, k: nat)
    requires k < |events|
    ensures DeliverAll(l, subs, events[..k + 1]) == Deliver(DeliverAll(l, subs, events[..k]), subs, events[k])
  {
    assert events[..k + 1][..k] == events[..k];
  }

  /** What `navigate` publishes over the live obstacles, in list order. */
  function NavigationEventsOf(cells: seq<Obstacle>, live: seq<nat>, dogBox: Rect, movingLeft: bool, movingRight: bool)
    : seq<GameEvent>
  {
    if live == [] then []
    else
      var c := live[|live| - 1];
      NavigationEventsOf(cells, live[..|live| - 1], dogBox, movingLeft, movingRight)
        + (if c < |cells| then cells[c].NavigationEvents(dogBox, movingLeft, movingRight) else [])
  }

  /** The live obstacles that `retain(right > 0)` keeps, in order. */
  function Surviving(cells: seq<Obstacle>, live: seq<nat>): (r: seq<nat>)
    ensures forall j :: j in r <==> j in live && j < |cells| && cells[j].Right() > 0
    ensures |r| <= |live|
  {
    if live == [] then []
    else
      var c := live[|live| - 1];
      var init := Surviving(cells, live[..|live| - 1]);
      assert forall j :: j in live <==> j in live[..|live| - 1] || j == c;
      if c < |cells| && cells[c].Right() > 0 then init + [c] else init
  }

  /** The ids of the live obstacles at or past the left edge. */
  function DroppedIds(cells: seq<Obstacle>, live: seq<nat>): set<string> {
    if live == [] then {}
    else
      var c := live[|live| - 1];
      DroppedIds(cells, live[..|live| - 1]) + (if c < |cells| && cells[c].Right() <= 0 then {cells[c].Id()} else {})
  }

  /** The subscriber's `name`: the dog's name, or its obstacle's id. */
  function Name(cells: seq<Obstacle>, s: Subscriber): string {
    match s
    case DogSubscriber => Dogs.DOG_NAME
    case ObstacleSubscriber(c) => if c < |cells| then cells[c].Id() else ""
  }

  /** The subscribers whose name is not in `dropped`, in order. */
  function KeptSubscribers(cells: seq<Obstacle>, subs: seq<Subscriber>, dropped: set<string>): (r: seq<Subscriber>)
    ensures forall s :: s in r <==> s in subs && Name(cells, s) !in dropped
  {
    if subs == [] then []
    else
      var s := subs[|subs| - 1];
      var init := KeptSubscribers(cells, subs[..|subs| - 1], dropped);
      assert forall t :: t in subs <==> t in subs[..|subs| - 1] || t == s;
      if Name(cells, s) in dropped then init else init + [s]
  }

  /** One subscriber per cell from `base` on, in cell order. */
  function SubscribersFrom(base: nat, n: nat): (r: seq<Subscriber>)
    ensures |r| == n
    ensures forall i :: 0 <= i < n ==> r[i] == ObstacleSubscriber(base + i)
  {
    seq(n, i requires 0 <= i < n => ObstacleSubscriber(base + i))
  }

  /** Two background tiles side by side: one starts where the other ends. */
  predicate Tiled(a: Images.Image, b: Images.Image) {
    a.Right() == b.boundingBox.X() || b.Right() == a.boundingBox.X()
  }

  /** The cell indices `base`, `base + 1`, ..., `base + n - 1`. */
  function Range(base: nat, n: nat): (r: seq<nat>)
    ensures |r| == n
    ensures forall i :: 0 <= i < n ==> r[i] == base + i
  {
    seq(n, i requires 0 <= i < n => base + i)
  }

  /** A live list over `n` cells: every index names a cell. */
  predicate Indexed(live: seq<nat>, n: nat) {
    forall j :: j in live ==> j < n
  }

  /** What the cells keep: one publisher behind every obstacle, every id carrying a
      counter value the factory has reached, and no two obstacles sharing an id. */
  predicate CellsValid(cells: seq<Obstacle>, publisher: EventPublisher, counter: nat) {
    && (forall c :: 0 <= c < |cells| ==> Fits(cells, c, publisher, counter))
    && IdsDistinct(cells)
  }

  /** The obstacle in cell `c` publishes through `publisher` and carries a counter value
      up to `counter`. */
  predicate Fits(cells: seq<Obstacle>, c: int, publisher: EventPublisher, counter: nat) {
    0 <= c < |cells| ==> cells[c].Publisher() == publisher && Segments.CounterOf(cells[c].Id()) <= counter
  }

  /** The id of the obstacle in cell `c`, or "" past the cells. */
  function IdAt(cells: seq<Obstacle>, c: int): string {
    if 0 <= c < |cells| then cells[c].Id() else ""
  }

  /** No two cells hold obstacles with the same id. */
  predicate IdsDistinct(cells: seq<Obstacle>) {
    forall c, d :: 0 <= c < d < |cells| ==> IdAt(cells, c) != IdAt(cells, d)
  }

  /** The subscriber's cell, where it has one, is one of the `n` cells. */
  predicate SubscribersIndexed(subs: seq<Subscriber>, n: nat) {
    forall s :: s in subs && s.ObstacleSubscriber? ==> s.cell < n
  }

  /** Every live obstacle has exactly one subscriber. */
  predicate SubscribedOnce(live: seq<nat>, subs: seq<Subscriber>) {
    forall j :: j in live ==> multiset(subs)[ObstacleSubscriber(j)] == 1
  }

  /** The two opening background tiles: one at the origin, the next where it ends. */
  function OpeningBackgrounds(background: Images.HtmlImage): seq<Images.Image> {
    [Images.New(background, Point(0, 0)), Images.New(background, Point(Wrap16(background.width), 0))]
  }

  /** The shape the walk keeps, on its values: two tiled backgrounds; every index
      naming a cell; live obstacles in cell order; one publisher behind every obstacle;
      and obstacle ids pairwise different, each carrying a counter value the factory
      has reached. */
  predicate Shaped(backgrounds: seq<Images.Image>, cells: seq<Obstacle>, live: seq<nat>, subs: seq<Subscriber>,
                   publisher: EventPublisher, counter: nat) {
    && |backgrounds| == 2
    && Tiled(backgrounds[0], backgrounds[1])
    && Indexed(live, |cells|)
    && SubscribersIndexed(subs, |cells|)
    && CellsValid(cells, publisher, counter)
  }

  class Walk {
    var backgrounds: seq<Images.Image>
    const boy: RedHatBoys.RedHatBoy
    const publisher: EventPublisher
    /** Every obstacle built so far; the cells the source reaches through `Rc`s. */
    var cells: seq<Obstacle>
    /** The live obstacle list, as cell indices. */
    var obstacles: seq<nat>
    var timeline: I16
    const dog: Dogs.Dog
    var subscribers: seq<Subscriber>
    const events: EventQueue
    const segmentFactory: Segments.SegmentFactory
    const stone: Images.HtmlImage

    /** The walk's shape, with one queue behind every publisher and the factory building
        onto it. */
    predicate Valid()
      reads this, segmentFactory
    {
      && publisher.events == events
      && segmentFactory.publisher == publisher && segmentFactory.stoneImage == stone
      && Shaped(backgrounds, cells, obstacles, subscribers, publisher, segmentFactory.id)
    }

    /** Every live obstacle has exactly one subscriber. */
    predicate Subscribed()
      reads this
    {
      SubscribedOnce(obstacles, subscribers)
    }

    /** `Walk::new`: the opening segment from a fresh factory, the dog subscribed first
        and then every opening obstacle in order, the timeline at the segment's right
        end, and two background tiles side by side. `publisher` must publish onto
        `events`, as the game builds them. */
    constructor (background: Images.HtmlImage, boy: RedHatBoys.RedHatBoy, dog: Dogs.Dog,
                 publisher: EventPublisher, events: EventQueue, stone: Images.HtmlImage)
      requires publisher.events == events
      ensures Valid() && Subscribed()
      ensures fresh(segmentFactory) && segmentFactory.id == 1
      ensures cells == Segments.Segment(Segments.STONE_AND_PLATFORM_SEGMENT_ID, segmentFactory.id, 0, stone, publisher)
      ensures obstacles == Range(0, |cells|)
      ensures subscribers == [DogSubscriber] + SubscribersFrom(0, |cells|)
      ensures timeline == Rightmost(cells)
      ensures backgrounds == OpeningBackgrounds(background)
      ensures this.boy == boy && this.dog == dog && this.publisher == publisher && this.events == events
      ensures this.stone == stone
    {
      var factory := new Segments.SegmentFactory(stone, publisher);
      var starting := factory.First();
      var subs := AppendSubscribers([DogSubscriber], 0, |starting|);
      var backgroundWidth := Wrap16(background.width);
      Opening(starting, Segments.STONE_AND_PLATFORM_SEGMENT_ID, factory.id, stone, publisher, background);

      backgrounds := [Images.New(background, Point(0, 0)), Images.New(background, Point(backgroundWidth, 0))];
      this.boy := boy;
      this.dog := dog;
      this.events := events;
      this.publisher := publisher;
      subscribers := subs;
      cells := starting;
      obstacles := Range(0, |starting|);
      segmentFactory := factory;
      this.stone := stone;
      timeline := Rightmost(starting);
    }

    /** `Walk::reset` as written: the factory builds the opening segment first; then
        taking the dog out of its `Rc` fails, and the program panics, whenever the dog's
        subscriber still holds a clone, which it does from `new` on. Otherwise the runner
        and dog are reset and the new obstacles replace the old ones, but the subscriber
        list is kept, so no new obstacle is subscribed. */
    method ResetAsWritten() returns (panicked: bool)
      requires Valid()
      modifies this`cells, this`obstacles, this`timeline, segmentFactory, boy, dog
      ensures panicked <==> DogSubscriber in subscribers
      ensures segmentFactory.id == old(segmentFactory.id) + 1
      ensures panicked ==> cells == old(cells) && obstacles == old(obstacles) && timeline == old(timeline)
      ensures panicked ==> boy.stateMachine == old(boy.stateMachine) && dog.stateMachine == old(dog.stateMachine)
      ensures !panicked ==>
        var opening := Segments.Segment(Segments.STONE_AND_PLATFORM_SEGMENT_ID, segmentFactory.id, 0, stone, publisher);
        && cells == old(cells) + opening
        && obstacles == Range(|old(cells)|, |opening|)
        && timeline == Rightmost(opening)
      ensures !panicked ==> forall j :: j in obstacles ==> ObstacleSubscriber(j) !in subscribers
      ensures !panicked ==> boy.stateMachine == RedHatBoys.M.ResetMachine(old(boy.stateMachine))
      ensures !panicked ==> dog.stateMachine == DogMachine.Running(Dogs.DogRunning.New())
      ensures Valid()
    {
      ghost var n := segmentFactory.id;
      var starting := segmentFactory.First();
      if DogSubscriber in subscribers {
        Recount(backgrounds, cells, obstacles, subscribers, publisher, n);
        panicked := true;
        return;
      }
      panicked := false;
      AppendSegment(cells, Segments.STONE_AND_PLATFORM_SEGMENT_ID, n, 0, stone, publisher);
      RebuildAsWritten(starting, n);
    }

    /** The walk `reset` returns as written, once it has the dog: the runner and the dog
        reset, the new obstacles in place of the old, the timeline at their right end,
        and the subscriber list as it was. */
    method RebuildAsWritten(starting: seq<Obstacle>, ghost n: nat)
      requires publisher.events == events
      requires segmentFactory.publisher == publisher && segmentFactory.stoneImage == stone
      requires segmentFactory.id == n + 1
      requires Shaped(backgrounds, cells, obstacles, subscribers, publisher, n)
      requires CellsValid(cells + starting, publisher, n + 1)
      modifies this`cells, this`obstacles, this`timeline, boy, dog
      ensures cells == old(cells) + starting
      ensures obstacles == Range(|old(cells)|, |starting|)
      ensures timeline == Rightmost(starting)
      ensures forall j :: j in obstacles ==> ObstacleSubscriber(j) !in subscribers
      ensures boy.stateMachine == RedHatBoys.M.ResetMachine(old(boy.stateMachine))
      ensures dog.stateMachine == DogMachine.Running(Dogs.DogRunning.New())
      ensures Valid()
    {
      boy.Reset();
      dog.Reset();
      ReplaceKeepingSubscribers(backgrounds, cells, obstacles, subscribers, publisher, n, starting);
      timeline, obstacles, cells := Rightmost(starting), Range(|cells|, |starting|), cells + starting;
    }

    /** `Walk::reset` as evidently intended: as written, except that the dog is taken
        back whatever the subscribers hold, and the subscriber list is rebuilt as `new`
        builds it, the dog first and then every new obstacle. */
    method Reset()
      requires Valid()
      modifies this`cells, this`obstacles, this`timeline, this`subscribers, segmentFactory, boy, dog
      ensures segmentFactory.id == old(segmentFactory.id) + 1
      ensures var opening := Segments.Segment(Segments.STONE_AND_PLATFORM_SEGMENT_ID, segmentFactory.id, 0, stone, publisher);
        && cells == old(cells) + opening
        && obstacles == Range(|old(cells)|, |opening|)
        && subscribers == [DogSubscriber] + SubscribersFrom(|old(cells)|, |opening|)
        && timeline == Rightmost(opening)
      ensures boy.stateMachine == RedHatBoys.M.ResetMachine(old(boy.stateMachine))
      ensures dog.stateMachine == DogMachine.Running(Dogs.DogRunning.New())
      ensures Valid() && Subscribed()
    {
      ghost var n := segmentFactory.id;
      var starting := segmentFactory.First();
      AppendSegment(cells, Segments.STONE_AND_PLATFORM_SEGMENT_ID, n, 0, stone, publisher);
      Rebuild(starting, n);
    }

    /** The walk the corrected reset returns: as written, except that the subscribers are
        rebuilt, the dog first and then one per new obstacle. */
    method Rebuild(starting: seq<Obstacle>, ghost n: nat)
      requires publisher.events == events
      requires segmentFactory.publisher == publisher && segmentFactory.stoneImage == stone
      requires segmentFactory.id == n + 1
      requires Shaped(backgrounds, cells, obstacles, subscribers, publisher, n)
      requires CellsValid(cells + starting, publisher, n + 1)
      modifies this`cells, this`obstacles, this`timeline, this`subscribers, boy, dog
      ensures cells == old(cells) + starting
      ensures obstacles == Range(|old(cells)|, |starting|)
      ensures subscribers == [DogSubscriber] + SubscribersFrom(|old(cells)|, |starting|)
      ensures timeline == Rightmost(starting)
      ensures boy.stateMachine == RedHatBoys.M.ResetMachine(old(boy.stateMachine))
      ensures dog.stateMachine == DogMachine.Running(Dogs.DogRunning.New())
      ensures Valid() && Subscribed()
    {
      boy.Reset();
      dog.Reset();
      Replace(backgrounds, cells, obstacles, subscribers, publisher, n, starting);
      var rebuilt := AppendSubscribers([DogSubscriber], |cells|, |starting|);
      timeline, subscribers, obstacles, cells := Rightmost(starting), rebuilt, Range(|cells|, |starting|), cells + starting;
    }

    /** `drop_surpassed_obstacles`: the live obstacles keep those whose right edge is
        past 0, in order, and every subscriber named after a dropped obstacle goes. */
    method DropSurpassedObstacles()
      requires Valid()
      modifies this`obstacles, this`subscribers
      ensures obstacles == Surviving(cells, old(obstacles))
      ensures subscribers == KeptSubscribers(cells, old(subscribers), DroppedIds(cells, old(obstacles)))
      ensures Valid()
      ensures old(Subscribed()) ==> Subscribed()
    {
      var toDrop := CollectDropped(cells, obstacles);
      var kept := Retain(cells, obstacles);
      var subs := RetainSubscribers(cells, subscribers, toDrop);
      Drop(backgrounds, cells, obstacles, subscribers, publisher, segmentFactory.id);
      obstacles := kept;
      subscribers := subs;
    }

    /** `generate_next_segment`: a segment chosen by `choice` (the random draw) is built
        OBSTACLE_BUFFER past the timeline; the timeline moves to its right end; every
        new obstacle gets a subscriber and joins the live list after the old ones. */
    method GenerateNextSegment(choice: int)
      requires Valid() && 0 <= choice < 6
      modifies this`cells, this`obstacles, this`subscribers, this`timeline, segmentFactory
      ensures segmentFactory.id == old(segmentFactory.id) + 1
      ensures var next := Segments.Segment(choice, segmentFactory.id, Wrap16(old(timeline) + OBSTACLE_BUFFER), stone, publisher);
        && cells == old(cells) + next
        && obstacles == old(obstacles) + Range(|old(cells)|, |next|)
        && subscribers == old(subscribers) + SubscribersFrom(|old(cells)|, |next|)
        && timeline == Rightmost(next)
      ensures Valid()
      ensures old(Subscribed()) ==> Subscribed()
    {
      ghost var n := segmentFactory.id;
      var offsetX := Wrap16(timeline + OBSTACLE_BUFFER);
      var next := segmentFactory.Random(offsetX, choice);
      AppendSegment(cells, choice, n, offsetX, stone, publisher);
      timeline := Rightmost(next);
      AppendObstacles(next, n);
    }

    /** The tail of `generate_next_segment`: every new obstacle gets a subscriber and
        joins the live list after the old ones. */
    method AppendObstacles(next: seq<Obstacle>, ghost n: nat)
      requires publisher.events == events
      requires segmentFactory.publisher == publisher && segmentFactory.stoneImage == stone
      requires segmentFactory.id == n + 1
      requires Shaped(backgrounds, cells, obstacles, subscribers, publisher, n)
      requires CellsValid(cells + next, publisher, n + 1)
      modifies this`cells, this`obstacles, this`subscribers
      ensures cells == old(cells) + next
      ensures obstacles == old(obstacles) + Range(|old(cells)|, |next|)
      ensures subscribers == old(subscribers) + SubscribersFrom(|old(cells)|, |next|)
      ensures Valid()
      ensures old(Subscribed()) ==> Subscribed()
    {
      Extend(backgrounds, cells, obstacles, subscribers, publisher, n, next);
      var extended := AppendSubscribers(subscribers, |cells|, |next|);
      subscribers, obstacles, cells := extended, obstacles + Range(|cells|, |next|), cells + next;
    }

    /** The walk is over exactly when its runner is knocked out. */
    function KnockedOut(): (out: bool)
      reads this, boy
      ensures out == RedHatBoys.M.IsKnockedOut(boy.stateMachine)
    {
      boy.KnockedOut()
    }

    /** How far the scene scrolls per tick: the runner's walking speed negated in `i16`,
        where negating -32768 gives -32768 back. */
    function Velocity(): (r: I16)
      reads this, boy
      ensures boy.WalkingSpeed() != I16_MIN ==> r == -boy.WalkingSpeed()
      ensures boy.WalkingSpeed() == I16_MIN ==> r == I16_MIN
    {
      Wrap16(-(boy.WalkingSpeed() as int))
    }

    /** `update`: pending events are delivered, then the dog takes a tick, then every
        live obstacle navigates against the moved dog. */
    method Update()
      requires Valid()
      modifies this`cells, dog, events
      ensures var l := DeliverAll(Listeners(old(cells), old(dog.stateMachine)), subscribers, old(events.contents));
        cells == l.cells && dog.stateMachine == l.dog.Transition(DogMachine.Update)
      ensures events.contents == NavigationEventsOf(cells, obstacles, dog.BoundingBox(), dog.MovingLeft(), dog.MovingRight())
      ensures Valid()
    {
      ProcessEvents();
      dog.Update();
      NavigateObstacles();
    }

    /** `navigate_obstacles`: every live obstacle, in list order, publishes what its
        `navigate` decides for the dog. */
    method NavigateObstacles()
      requires Valid()
      modifies events
      ensures events.contents == old(events.contents)
        + NavigationEventsOf(cells, obstacles, dog.BoundingBox(), dog.MovingLeft(), dog.MovingRight())
    {
      var box, left, right := dog.BoundingBox(), dog.MovingLeft(), dog.MovingRight();
      forall j | j in obstacles ensures j < |cells| && cells[j].Publisher().events == events {
        assert Fits(cells, j, publisher, segmentFactory.id);
      }
      NavigateEach(cells, obstacles, box, left, right, events);
    }

    /** `process_events`: pops events from the head until the queue is empty and hands
        each to every subscriber in list order. No handler publishes, so exactly the
        events queued on entry are delivered. */
    method ProcessEvents()
      requires Valid()
      modifies this`cells, dog, events
      ensures Listeners(cells, dog.stateMachine)
        == DeliverAll(Listeners(old(cells), old(dog.stateMachine)), subscribers, old(events.contents))
      ensures events.contents == []
      ensures Valid()
    {
      ghost var start := Listeners(cells, dog.stateMachine);
      ghost var all := events.contents;
      ghost var k := 0;
      var next := events.PopFront();
      while next.Some?
        invariant 0 <= k <= |all|
        invariant next.Some? ==> k < |all| && next.value == all[k] && events.contents == all[k + 1..]
        invariant next.None? ==> k == |all| && events.contents == []
        invariant Listeners(cells, dog.stateMachine) == DeliverAll(start, subscribers, all[..k])
        invariant Valid()
        decreases |all| - k
      {
        Broadcast(next.value);
        DeliverOneMore(start, subscribers, all, k);
        k := k + 1;
        next := events.PopFront();
      }
      assert all[..k] == all;
    }

    /** The inner loop of `process_events`: one event to every subscriber, in order. */
    method Broadcast(event: GameEvent)
      requires Valid()
      modifies this`cells, dog
      ensures Listeners(cells, dog.stateMachine) == Deliver(old(Listeners(cells, dog.stateMachine)), subscribers, event)
      ensures Valid()
    {
      ghost var before := Listeners(cells, dog.stateMachine);
      var i := 0;
      while i < |subscribers|
        invariant 0 <= i <= |subscribers|
        invariant Listeners(cells, dog.stateMachine) == Deliver(before, subscribers[..i], event)
      {
        assert subscribers[..i + 1][..i] == subscribers[..i];
        assert subscribers[i] in subscribers;
        match subscribers[i] {
          case DogSubscriber =>
            dog.ProcessEvent(event);
          case ObstacleSubscriber(c) =>
            cells := cells[c := cells[c].ProcessEvent(event)];
        }
        i := i + 1;
      }
      assert subscribers[..i] == subscribers;
      Delivered(backgrounds, before.cells, cells, obstacles, subscribers, publisher, segmentFactory.id);
    }
  }

  /** The loop of `navigate_obstacles`: each live obstacle, in list order, publishes
      onto `queue` what its `navigate` decides for a dog with this box and heading. */
  method NavigateEach(cells: seq<Obstacle>, live: seq<nat>, box: Rect, left: bool, right: bool, queue: EventQueue)
    requires forall j :: j in live ==> j < |cells| && cells[j].Publisher().events == queue
    modifies queue
    ensures queue.contents == old(queue.contents) + NavigationEventsOf(cells, live, box, left, right)
  {
    var i := 0;
    while i < |live|
      invariant 0 <= i <= |live|
      invariant queue.contents == old(queue.contents) + NavigationEventsOf(cells, live[..i], box, left, right)
    {
      assert live[..i + 1][..i] == live[..i];
      assert live[i] in live;
      cells[live[i]].Navigate(box, left, right);
      i := i + 1;
    }
    assert live[..i] == live;
  }

  /** The first loop of `drop_surpassed_obstacles`: the ids of the live obstacles at or
      past the left edge. */
  method CollectDropped(cells: seq<Obstacle>, live: seq<nat>) returns (toDrop: set<string>)
    requires forall j :: j in live ==> j < |cells|
    ensures toDrop == DroppedIds(cells, live)
  {
    toDrop := {};
    var i := 0;
    while i < |live|
      invariant 0 <= i <= |live|
      invariant toDrop == DroppedIds(cells, live[..i])
    {
      assert live[..i + 1][..i] == live[..i];
      assert live[i] in live;
      if cells[live[i]].Right() <= 0 {
        toDrop := toDrop + {cells[live[i]].Id()};
      }
      i := i + 1;
    }
    assert live[..i] == live;
  }

  /** `retain(right > 0)` on the live obstacles. */
  method Retain(cells: seq<Obstacle>, live: seq<nat>) returns (kept: seq<nat>)
    requires forall j :: j in live ==> j < |cells|
    ensures kept == Surviving(cells, live)
  {
    kept := [];
    var i := 0;
    while i < |live|
      invariant 0 <= i <= |live|
      invariant kept == Surviving(cells, live[..i])
    {
      assert live[..i + 1][..i] == live[..i];
      assert live[i] in live;
      if cells[live[i]].Right() > 0 {
        kept := kept + [live[i]];
      }
      i := i + 1;
    }
    assert live[..i] == live;
  }

  /** `retain` on the subscribers: those whose name is not a dropped id. */
  method RetainSubscribers(cells: seq<Obstacle>, subs: seq<Subscriber>, toDrop: set<string>) returns (r: seq<Subscriber>)
    ensures r == KeptSubscribers(cells, subs, toDrop)
  {
    r := [];
    var i := 0;
    while i < |subs|
      invariant 0 <= i <= |subs|
      invariant r == KeptSubscribers(cells, subs[..i], toDrop)
    {
      assert subs[..i + 1][..i] == subs[..i];
      if Name(cells, subs[i]) !in toDrop {
        r := r + [subs[i]];
      }
      i := i + 1;
    }
    assert subs[..i] == subs;
  }

  /** Appending one subscriber at a time builds `SubscribersFrom` (the loops of `new`
      and `generate_next_segment`). */
  method AppendSubscribers(subs: seq<Subscriber>, base: nat, n: nat) returns (r: seq<Subscriber>)
    ensures r == subs + SubscribersFrom(base, n)
  {
    r := subs;
    var i := 0;
    while i < n
      invariant 0 <= i <= n
      invariant r == subs + SubscribersFrom(base, i)
    {
      assert SubscribersFrom(base, i + 1) == SubscribersFrom(base, i) + [ObstacleSubscriber(base + i)];
      r := r + [ObstacleSubscriber(base + i)];
      i := i + 1;
    }
  }

  /** What `new` starts from has the walk's shape, and each opening obstacle is
      subscribed once. */
  lemma Opening(starting: seq<Obstacle>, choice: int, n: nat, stone: Images.HtmlImage, publisher: EventPublisher,
                background: Images.HtmlImage)
    requires starting == Segments.Segment(choice, n, 0, stone, publisher)
    ensures Shaped(OpeningBackgrounds(background), starting, Range(0, |starting|),
                   [DogSubscriber] + SubscribersFrom(0, |starting|), publisher, n)
    ensures SubscribedOnce(Range(0, |starting|), [DogSubscriber] + SubscribersFrom(0, |starting|))
  {
    FreshCells(choice, n, 0, stone, publisher);
    FreshSubscriptions(0, |starting|);
    RangeIndexed(0, |starting|);
    OpeningTiled(background);
  }

  /** The as-written reset: the new cells replace the live list and the subscribers are
      kept, so the walk keeps its shape but no new obstacle has a subscriber. */
  lemma ReplaceKeepingSubscribers(backgrounds: seq<Images.Image>, cells: seq<Obstacle>, live: seq<nat>,
                                  subs: seq<Subscriber>, publisher: EventPublisher, n: nat, next: seq<Obstacle>)
    requires Shaped(backgrounds, cells, live, subs, publisher, n)
    requires CellsValid(cells + next, publisher, n + 1)
    ensures Shaped(backgrounds, cells + next, Range(|cells|, |next|), subs, publisher, n + 1)
    ensures forall j :: j in Range(|cells|, |next|) ==> ObstacleSubscriber(j) !in subs
  {
    RangeIndexed(|cells|, |next|);
    forall j | j in Range(|cells|, |next|) ensures ObstacleSubscriber(j) !in subs {
      var i :| 0 <= i < |next| && Range(|cells|, |next|)[i] == j;
    }
  }

  /** A factory counter that moves on keeps the walk's shape. */
  lemma Recount(backgrounds: seq<Images.Image>, cells: seq<Obstacle>, live: seq<nat>,
                subs: seq<Subscriber>, publisher: EventPublisher, n: nat)
    requires Shaped(backgrounds, cells, live, subs, publisher, n)
    ensures Shaped(backgrounds, cells, live, subs, publisher, n + 1)
  {
    var m := n + 1;
    forall c | 0 <= c < |cells| ensures Fits(cells, c, publisher, m) {
      assert Fits(cells, c, publisher, n);
    }
  }

  /** The corrected reset: the new cells replace the live list and the subscribers are
      rebuilt, the dog first and then one per new cell. */
  lemma Replace(backgrounds: seq<Images.Image>, cells: seq<Obstacle>, live: seq<nat>,
                subs: seq<Subscriber>, publisher: EventPublisher, n: nat, next: seq<Obstacle>)
    requires Shaped(backgrounds, cells, live, subs, publisher, n)
    requires CellsValid(cells + next, publisher, n + 1)
    ensures Shaped(backgrounds, cells + next, Range(|cells|, |next|),
                   [DogSubscriber] + SubscribersFrom(|cells|, |next|), publisher, n + 1)
    ensures SubscribedOnce(Range(|cells|, |next|), [DogSubscriber] + SubscribersFrom(|cells|, |next|))
  {
    RangeIndexed(|cells|, |next|);
    FreshSubscriptions(|cells|, |next|);
  }

  /** `generate_next_segment`: new cells, each live and subscribed after the old ones,
      keep the walk's shape and every live obstacle subscribed once. */
  lemma Extend(backgrounds: seq<Images.Image>, cells: seq<Obstacle>, live: seq<nat>,
               subs: seq<Subscriber>, publisher: EventPublisher, n: nat, next: seq<Obstacle>)
    requires Shaped(backgrounds, cells, live, subs, publisher, n)
    requires CellsValid(cells + next, publisher, n + 1)
    ensures Shaped(backgrounds, cells + next, live + Range(|cells|, |next|),
                   subs + SubscribersFrom(|cells|, |next|), publisher, n + 1)
    ensures SubscribedOnce(live, subs) ==>
      SubscribedOnce(live + Range(|cells|, |next|), subs + SubscribersFrom(|cells|, |next|))
  {
    IndexedAppend(live, |cells|, |next|);
    ExtendSubscriptions(live, subs, |cells|, |next|);
  }

  /** `drop_surpassed_obstacles` keeps the walk's shape and every survivor subscribed once. */
  lemma Drop(backgrounds: seq<Images.Image>, cells: seq<Obstacle>, live: seq<nat>,
             subs: seq<Subscriber>, publisher: EventPublisher, n: nat)
    requires Shaped(backgrounds, cells, live, subs, publisher, n)
    ensures Shaped(backgrounds, cells, Surviving(cells, live), KeptSubscribers(cells, subs, DroppedIds(cells, live)),
                   publisher, n)
    ensures SubscribedOnce(live, subs) ==>
      SubscribedOnce(Surviving(cells, live), KeptSubscribers(cells, subs, DroppedIds(cells, live)))
  {
    DropKeepsSubscriptions(cells, live, subs);
  }

  /** Event delivery never changes an obstacle's id or publisher, so it keeps the shape. */
  lemma Delivered(backgrounds: seq<Images.Image>, before: seq<Obstacle>, after: seq<Obstacle>, live: seq<nat>,
                  subs: seq<Subscriber>, publisher: EventPublisher, n: nat)
    requires Shaped(backgrounds, before, live, subs, publisher, n) && SameObstacles(after, before)
    ensures Shaped(backgrounds, after, live, subs, publisher, n)
  {
    assert |after| == |Tags(after)| == |Tags(before)| == |before|;
    forall c | 0 <= c < |after| ensures Fits(after, c, publisher, n) {
      assert Fits(before, c, publisher, n);
      assert Tags(after)[c] == Tags(before)[c];
    }
    forall c, d | 0 <= c < d < |after| ensures IdAt(after, c) != IdAt(after, d) {
      assert IdAt(before, c) != IdAt(before, d);
      assert Tags(after)[c] == Tags(before)[c] && Tags(after)[d] == Tags(before)[d];
    }
  }

  /** A segment on its own: one publisher, its counter on every id, no id twice. */
  lemma FreshCells(choice: int, n: nat, offset: I16, image: Images.HtmlImage, publisher: EventPublisher)
    ensures CellsValid(Segments.Segment(choice, n, offset, image, publisher), publisher, n)
  {
    var cells := Segments.Segment(choice, n, offset, image, publisher);
    Segments.SegmentIdsDistinct(choice, n, offset, image, publisher);
    Segments.SegmentCounters(choice, n, offset, image, publisher);
    forall c, d | 0 <= c < d < |cells| ensures IdAt(cells, c) != IdAt(cells, d) {
      assert cells[c].Id() != cells[d].Id();
    }
  }

  /** The opening tiles: the second background starts where the first ends. */
  lemma OpeningTiled(background: Images.HtmlImage)
    ensures Tiled(OpeningBackgrounds(background)[0], OpeningBackgrounds(background)[1])
  {
    var first := Images.New(background, Point(0, 0));
    assert first.boundingBox.width == Wrap16(background.width);
  }

  /** A segment the factory builds with its next counter value keeps the cells valid:
      its obstacles publish on the same queue, carry the new counter, and share no id
      with each other or with any older obstacle, whose counters are all smaller. */
  lemma AppendSegment(cells: seq<Obstacle>, choice: int, n: nat, offset: I16, image: Images.HtmlImage,
                      publisher: EventPublisher)
    requires CellsValid(cells, publisher, n)
    ensures CellsValid(cells + Segments.Segment(choice, n + 1, offset, image, publisher), publisher, n + 1)
  {
    var next := Segments.Segment(choice, n + 1, offset, image, publisher);
    Segments.SegmentIdsDistinct(choice, n + 1, offset, image, publisher);
    Segments.SegmentCounters(choice, n + 1, offset, image, publisher);
    var all := cells + next;
    var m := n + 1;
    forall c | 0 <= c < |all| ensures Fits(all, c, publisher, m) {
      if c < |cells| {
        assert Fits(cells, c, publisher, n);
      } else {
        assert all[c] == next[c - |cells|];
      }
    }
    forall c, d | 0 <= c < d < |all|
      ensures IdAt(all, c) != IdAt(all, d)
    {
      if d < |cells| {
        assert IdAt(cells, c) != IdAt(cells, d);
      } else if c < |cells| {
        assert Fits(cells, c, publisher, n);
        assert all[d] == next[d - |cells|];
        assert Segments.CounterOf(all[c].Id()) < Segments.CounterOf(all[d].Id());
      } else {
        assert all[c] == next[c - |cells|] && all[d] == next[d - |cells|];
      }
    }
  }

  /** A fresh range of cells is a live list over the cells up to its end. */
  lemma RangeIndexed(base: nat, n: nat)
    ensures Indexed(Range(base, n), base + n)
  {
    forall j | j in Range(base, n) ensures j < base + n {
      var i :| 0 <= i < n && Range(base, n)[i] == j;
    }
  }

  /** Appending the indices of new cells keeps every live index naming a cell. */
  lemma IndexedAppend(live: seq<nat>, base: nat, n: nat)
    requires Indexed(live, base)
    ensures Indexed(live + Range(base, n), base + n)
  {
    RangeIndexed(base, n);
    var all := live + Range(base, n);
    forall j | j in all ensures j < base + n {
      if j in live {
      } else {
        assert j in Range(base, n);
      }
    }
  }

  /** The subscribers `new` and the corrected reset build subscribe each new obstacle once. */
  lemma FreshSubscriptions(base: nat, n: nat)
    ensures SubscribedOnce(Range(base, n), [DogSubscriber] + SubscribersFrom(base, n))
    ensures SubscribersIndexed([DogSubscriber] + SubscribersFrom(base, n), base + n)
  {
    SubscribersCount(base, n);
    var subs := [DogSubscriber] + SubscribersFrom(base, n);
    assert multiset(subs) == multiset([DogSubscriber]) + multiset(SubscribersFrom(base, n));
    forall j | j in Range(base, n) ensures multiset(subs)[ObstacleSubscriber(j)] == 1 {
      var i :| 0 <= i < n && Range(base, n)[i] == j;
    }
    forall s | s in subs && s.ObstacleSubscriber? ensures s.cell < base + n {
      assert s in SubscribersFrom(base, n);
    }
  }

  /** Subscribing the cells of a new segment keeps every older live obstacle subscribed
      once and subscribes each new one once. */
  lemma ExtendSubscriptions(live: seq<nat>, subs: seq<Subscriber>, base: nat, n: nat)
    requires forall j :: j in live ==> j < base
    requires SubscribersIndexed(subs, base)
    ensures SubscribersIndexed(subs + SubscribersFrom(base, n), base + n)
    ensures SubscribedOnce(live, subs) ==> SubscribedOnce(live + Range(base, n), subs + SubscribersFrom(base, n))
  {
    SubscribersCount(base, n);
    var all := subs + SubscribersFrom(base, n);
    assert multiset(all) == multiset(subs) + multiset(SubscribersFrom(base, n));
    forall s | s in all && s.ObstacleSubscriber? ensures s.cell < base + n {
      if s !in subs {
        assert s in SubscribersFrom(base, n);
      }
    }
    if SubscribedOnce(live, subs) {
      forall j | j in live + Range(base, n) ensures multiset(all)[ObstacleSubscriber(j)] == 1 {
        if j in live {
          assert ObstacleSubscriber(j) !in subs || ObstacleSubscriber(j) in subs;
        } else {
          var i :| 0 <= i < n && Range(base, n)[i] == j;
          assert ObstacleSubscriber(j) !in subs;
        }
      }
    }
  }

  /** Dropping keeps the walk's shape: the survivors stay in cell order, the kept
      subscribers still name cells, and each survivor keeps its one subscriber, since
      its id is not among the dropped ones. */
  lemma DropKeepsSubscriptions(cells: seq<Obstacle>, live: seq<nat>, subs: seq<Subscriber>)
    requires Indexed(live, |cells|) && SubscribersIndexed(subs, |cells|)
    requires IdsDistinct(cells)
    ensures Indexed(Surviving(cells, live), |cells|)
    ensures SubscribersIndexed(KeptSubscribers(cells, subs, DroppedIds(cells, live)), |cells|)
    ensures SubscribedOnce(live, subs) ==>
      SubscribedOnce(Surviving(cells, live), KeptSubscribers(cells, subs, DroppedIds(cells, live)))
  {
    var dropped := DroppedIds(cells, live);
    if SubscribedOnce(live, subs) {
      forall j | j in Surviving(cells, live)
        ensures multiset(KeptSubscribers(cells, subs, dropped))[ObstacleSubscriber(j)] == 1
      {
        SurvivorNotDropped(cells, live, j);
        KeptCount(cells, subs, dropped, ObstacleSubscriber(j));
      }
    }
  }

  /** The cells from `base` on are subscribed once each and no other cell is. */
  lemma {:induction false} SubscribersCount(base: nat, n: nat)
    ensures forall c :: multiset(SubscribersFrom(base, n))[ObstacleSubscriber(c)] == (if base <= c < base + n then 1 else 0)
    ensures multiset(SubscribersFrom(base, n))[DogSubscriber] == 0
  {
    if n > 0 {
      SubscribersCount(base, n - 1);
      assert SubscribersFrom(base, n) == SubscribersFrom(base, n - 1) + [ObstacleSubscriber(base + n - 1)];
    } else {
      assert SubscribersFrom(base, n) == [];
    }
  }

  /** A live obstacle that survives the drop is not named by any dropped id, because ids
      are unique. */
  lemma {:induction false} SurvivorNotDropped(cells: seq<Obstacle>, live: seq<nat>, j: nat)
    requires IdsDistinct(cells)
    requires j < |cells| && cells[j].Right() > 0
    ensures cells[j].Id() !in DroppedIds(cells, live)
  {
    if live != [] {
      SurvivorNotDropped(cells, live[..|live| - 1], j);
      var c := live[|live| - 1];
      if c < |cells| && cells[c].Right() <= 0 {
        assert IdAt(cells, c) != IdAt(cells, j) by {
          assert c != j;
        }
      }
    }
  }

  /** Filtering by name keeps every copy of a subscriber whose name is not dropped. */
  lemma {:induction false} KeptCount(cells: seq<Obstacle>, subs: seq<Subscriber>, dropped: set<string>, s: Subscriber)
    requires Name(cells, s) !in dropped
    ensures multiset(KeptSubscribers(cells, subs, dropped))[s] == multiset(subs)[s]
  {
    if subs != [] {
      var init := subs[..|subs| - 1];
      KeptCount(cells, init, dropped, s);
      assert subs == init + [subs[|subs| - 1]];
    }
  }

  /** A walk fresh from `new`, reset as written, panics: its dog subscriber holds a clone
      of the dog from the start. */
  method NewThenResetPanics(background: Images.HtmlImage, boy: RedHatBoys.RedHatBoy, dog: Dogs.Dog,
                            publisher: EventPublisher, events: EventQueue, stone: Images.HtmlImage)
    returns (panicked: bool)
    requires publisher.events == events
    modifies boy, dog
    ensures panicked
  {
    var walk := new Walk(background, boy, dog, publisher, events, stone);
    panicked := walk.ResetAsWritten();
  }
}
