/** The obstacles the walk scrolls past (src/game/obstacles.rs): the `dyn Obstacle`
    trait objects become one closed union over marks, barriers and platforms, and each
    trait method dispatches to the variant. */
module Obstacles {
  import opened Ints
  import opened Geometry
  import opened Events
  import RedHatBoys
  import Collisions
  import ObstacleMarks
  import Barriers
  import Platforms

  datatype Obstacle =
    | MarkObstacle(mark: ObstacleMarks.ObstacleMark)
    | BarrierObstacle(barrier: Barriers.Barrier)
    | PlatformObstacle(platform: Platforms.Platform)
  {
    /** The id the walk uses for the obstacle, and the name of its event subscriber. */
    function Id(): string {
      match this
      case MarkObstacle(m) => m.id
      case BarrierObstacle(b) => b.Name()
      case PlatformObstacle(p) => p.id
    }

    function Publisher(): EventPublisher {
      match this
      case MarkObstacle(m) => m.publisher
      case BarrierObstacle(b) => b.publisher
      case PlatformObstacle(p) => p.publisher
    }

    function Right(): I16 {
      match this
      case MarkObstacle(m) => m.Right()
      case BarrierObstacle(b) => b.Right()
      case PlatformObstacle(p) => p.Right()
    }

    /** The contact a runner with the given state makes; a mark never touches the runner. */
    function Contact(running: bool, boyBox: Rect, vy: I16, y: I16): (c: Collisions.Contact)
      ensures MarkObstacle? ==> c == Collisions.NoContact
      ensures BarrierObstacle? ==> !c.LandsOn?
    {
      match this
      case MarkObstacle(_) => Collisions.NoContact
      case BarrierObstacle(b) => b.Contact(running, boyBox)
      case PlatformObstacle(p) => p.Contact(boyBox, vy, y)
    }

    method CheckIntersection(boy: RedHatBoys.RedHatBoy)
      modifies boy, Publisher().events
      ensures Collisions.Applied(Contact(old(boy.IsRunning()), old(boy.BoundingBox()), old(boy.VelocityY()), old(boy.PositionY())),
        old(boy.stateMachine), boy.stateMachine, old(Publisher().events.contents), Publisher().events.contents)
    {
      match this
      case MarkObstacle(_) =>
      case BarrierObstacle(b) => b.CheckIntersection(boy);
      case PlatformObstacle(p) => p.CheckIntersection(boy);
    }

    /** The obstacle moved by `distance`, everything else unchanged. */
    function Shifted(distance: I16): (r: Obstacle)
      ensures r.Id() == Id() && r.Publisher() == Publisher()
      ensures MarkObstacle? ==> r == MarkObstacle(mark.MoveHorizontally(distance))
      ensures BarrierObstacle? ==> r == BarrierObstacle(barrier.MoveHorizontally(distance))
      ensures PlatformObstacle? ==> r == PlatformObstacle(platform.Shifted(distance))
    {
      match this
      case MarkObstacle(m) => MarkObstacle(m.MoveHorizontally(distance))
      case BarrierObstacle(b) => BarrierObstacle(b.MoveHorizontally(distance))
      case PlatformObstacle(p) => PlatformObstacle(p.Shifted(distance))
    }

    method MoveHorizontally(distance: I16) returns (r: Obstacle)
      ensures r == Shifted(distance)
    {
      match this {
        case MarkObstacle(m) => r := MarkObstacle(m.MoveHorizontally(distance));
        case BarrierObstacle(b) => r := BarrierObstacle(b.MoveHorizontally(distance));
        case PlatformObstacle(p) =>
          var q := p.MoveHorizontally(distance);
          r := PlatformObstacle(q);
      }
    }

    /** What `navigate` publishes for a dog with this box and heading; a barrier
        publishes nothing. */
    function NavigationEvents(dogBox: Rect, movingLeft: bool, movingRight: bool): (r: seq<GameEvent>)
      ensures BarrierObstacle? ==> r == []
      ensures |r| <= 1
    {
      match this
      case MarkObstacle(m) => m.NavigationEvents(m.OnMark(dogBox, movingLeft, movingRight))
      case BarrierObstacle(_) => []
      case PlatformObstacle(p) => p.NavigationEvents(p.OnPlatform(dogBox))
    }

    /** `navigate` against the dog, whose bounding box and heading are the arguments. */
    method Navigate(dogBox: Rect, movingLeft: bool, movingRight: bool)
      modifies Publisher().events
      ensures Publisher().events.contents ==
        old(Publisher().events.contents) + NavigationEvents(dogBox, movingLeft, movingRight)
    {
      match this
      case MarkObstacle(m) => m.Navigate(dogBox, movingLeft, movingRight);
      case BarrierObstacle(_) =>
      case PlatformObstacle(p) => p.Navigate(dogBox);
    }

    /** A barrier ignores every event; marks and platforms keep their identity. */
    function ProcessEvent(event: GameEvent): (r: Obstacle)
      ensures BarrierObstacle? ==> r == this
      ensures r.Id() == Id() && r.Publisher() == Publisher() && r.Right() == Right()
    {
      match this
      case MarkObstacle(m) => MarkObstacle(m.ProcessEvent(event))
      case BarrierObstacle(_) => this
      case PlatformObstacle(p) => PlatformObstacle(p.ProcessEvent(event))
    }
  }

  /** The events of a batch handed to one obstacle, first to last. */
  function ProcessAll(o: Obstacle, events: seq<GameEvent>): Obstacle {
    if events == [] then o else ProcessAll(o, events[..|events| - 1]).ProcessEvent(events[|events| - 1])
  }

  /** Handing a mark a batch of events is handing them to the mark itself. */
  lemma {:induction false} ProcessAllMark(m: ObstacleMarks.ObstacleMark, events: seq<GameEvent>)
    ensures ProcessAll(MarkObstacle(m), events) == MarkObstacle(ObstacleMarks.ProcessAll(m, events))
  {
    if events != [] {
      ProcessAllMark(m, events[..|events| - 1]);
    }
  }

  /** The one-tick handshake seen through the trait: a mark or platform whose own
      `navigate` output is delivered back to it then publishes nothing more for the same dog. */
  lemma Handshake(o: Obstacle, dogBox: Rect, movingLeft: bool, movingRight: bool)
    ensures ProcessAll(o, o.NavigationEvents(dogBox, movingLeft, movingRight))
              .NavigationEvents(dogBox, movingLeft, movingRight) == []
  {
    var events := o.NavigationEvents(dogBox, movingLeft, movingRight);
    if events != [] {
      assert events[..0] == [];
      assert ProcessAll(o, events) == o.ProcessEvent(events[0]);
      match o
      case MarkObstacle(m) => ObstacleMarks.Handshake(m, m.OnMark(dogBox, movingLeft, movingRight));
      case BarrierObstacle(_) =>
      case PlatformObstacle(p) => Platforms.Handshake(p, p.OnPlatform(dogBox));
    }
  }

  /** An obstacle's `navigate` output never addresses a mark with another id. */
  lemma NavigationAddressesOnlyItself(o: Obstacle, dogBox: Rect, movingLeft: bool, movingRight: bool, id: string)
    requires id != o.Id()
    ensures var events := o.NavigationEvents(dogBox, movingLeft, movingRight);
      forall i :: 0 <= i < |events| ==> !ObstacleMarks.AddressedTo(events[i], id)
  {
  }

  /** `rightmost`: the largest right edge in the list, or 0 for an empty list. */
  function Rightmost(obstacles: seq<Obstacle>): (r: I16)
    ensures obstacles == [] ==> r == 0
    ensures forall i :: 0 <= i < |obstacles| ==> obstacles[i].Right() <= r
    ensures obstacles != [] ==> exists i :: 0 <= i < |obstacles| && obstacles[i].Right() == r
  {
    var rights := seq(|obstacles|, i requires 0 <= i < |obstacles| => obstacles[i].Right());
    var r := MaxOr0(rights);
    assert forall i :: 0 <= i < |obstacles| ==> obstacles[i].Right() == rights[i] <= r;
    r
  }

  /** `max_by(cmp).unwrap_or(0)` on a list of `i16`. */
  function MaxOr0(xs: seq<I16>): (r: I16)
    ensures xs == [] ==> r == 0
    ensures forall i :: 0 <= i < |xs| ==> xs[i] <= r
    ensures xs != [] ==> 0 <= MaxIndex(xs) < |xs| && xs[MaxIndex(xs)] == r
  {
    if xs == [] then 0 else xs[MaxIndex(xs)]
  }

  /** The index of the last largest element (`max_by` keeps the later of two equals). */
  function MaxIndex(xs: seq<I16>): (k: nat)
    requires xs != []
    ensures k < |xs|
    ensures forall i :: 0 <= i < |xs| ==> xs[i] <= xs[k]
  {
    if |xs| == 1 then 0
    else
      var k := MaxIndex(xs[..|xs| - 1]);
      if xs[|xs| - 1] >= xs[k] then |xs| - 1 else k
  }
}
