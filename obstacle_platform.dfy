/** A floating platform (src/game/obstacles/platform.rs): a row of collision boxes the
    runner can land on from above, and a "the dog is on me" flag kept in step with the
    dog through `DogLandedOnPlatform` / `DogExitsPlatform` events. The `&mut self`
    updates are modelled as functions and methods returning the updated platform. */
module Platforms {
  import opened Ints
  import opened Geometry
  import opened Events
  import RedHatBoys
  import Collisions
  import ObstacleMarks

  const MARK_OFFSET: I16 := 80

  /** The sprite cells and the sheet they come from are used only for drawing and are
      not part of the model. */
  datatype Platform = Platform(
    position: Point,
    boundingBoxes: seq<Rect>,
    publisher: EventPublisher,
    hasDog: bool,
    id: string)
  {
    /** Whether the dog's box touches any of the platform's boxes. */
    predicate OnPlatform(dogBox: Rect) {
      exists i :: 0 <= i < |boundingBoxes| && dogBox.Intersects(boundingBoxes[i])
    }

    /** The runner meets the first box its box `boyBox` intersects. Falling (`vy > 0`)
        with its top `y` above the platform's top, it lands on that box's top; any other
        contact is a hit. */
    function Contact(boyBox: Rect, vy: I16, y: I16): (c: Collisions.Contact)
      ensures c == Collisions.NoContact <==> FirstHit(boundingBoxes, boyBox).None?
      ensures c.LandsOn? <==> FirstHit(boundingBoxes, boyBox).Some? && vy > 0 && y < position.y
      ensures c.LandsOn? ==> c.top == boundingBoxes[FirstHit(boundingBoxes, boyBox).value].Top()
    {
      match FirstHit(boundingBoxes, boyBox)
      case None => Collisions.NoContact
      case Some(i) => if vy > 0 && y < position.y then Collisions.LandsOn(boundingBoxes[i].Top()) else Collisions.Hits
    }

    /** A landing is one `land_on` on the runner; a hit knocks it out and publishes
        `BoyHitsObstacle`; without contact nothing changes. */
    method CheckIntersection(boy: RedHatBoys.RedHatBoy)
      modifies boy, publisher.events
      ensures Collisions.Applied(Contact(old(boy.BoundingBox()), old(boy.VelocityY()), old(boy.PositionY())),
        old(boy.stateMachine), boy.stateMachine, old(publisher.events.contents), publisher.events.contents)
    {
      var hit := FirstHit(boundingBoxes, boy.BoundingBox());
      if hit.Some? {
        if boy.VelocityY() > 0 && boy.PositionY() < position.y {
          boy.LandOn(boundingBoxes[hit.value].Top());
        } else {
          boy.KnockOut();
          publisher.Publish(BoyHitsObstacle);
        }
      }
    }

    /** The platform moved by `distance`: its position and every box, each by an `i16`
        addition; nothing else changes. */
    function Shifted(distance: I16): (r: Platform)
      ensures r.position == position.(x := Wrap16(position.x + distance))
      ensures |r.boundingBoxes| == |boundingBoxes|
      ensures forall i :: 0 <= i < |boundingBoxes| ==>
        r.boundingBoxes[i] == boundingBoxes[i].SetX(Wrap16(boundingBoxes[i].X() + distance))
      ensures r.publisher == publisher && r.hasDog == hasDog && r.id == id
    {
      this.(position := position.(x := Wrap16(position.x + distance)),
            boundingBoxes := seq(|boundingBoxes|, i requires 0 <= i < |boundingBoxes| =>
              boundingBoxes[i].SetX(Wrap16(boundingBoxes[i].X() + distance))))
    }

    /** Moves the platform box by box. */
    method MoveHorizontally(distance: I16) returns (r: Platform)
      ensures r == Shifted(distance)
    {
      var boxes := boundingBoxes;
      var i := 0;
      while i < |boxes|
        invariant 0 <= i <= |boxes| == |boundingBoxes|
        invariant forall j :: 0 <= j < i ==> boxes[j] == boundingBoxes[j].SetX(Wrap16(boundingBoxes[j].X() + distance))
        invariant forall j :: i <= j < |boxes| ==> boxes[j] == boundingBoxes[j]
      {
        boxes := boxes[i := boxes[i].SetX(Wrap16(boxes[i].X() + distance))];
        i := i + 1;
      }
      r := this.(position := position.(x := Wrap16(position.x + distance)), boundingBoxes := boxes);
    }

    /** What `navigate` publishes: the dog's arrival (with the platform's top) or its
        departure, and only when it differs from `hasDog`. */
    function NavigationEvents(onPlatform: bool): (r: seq<GameEvent>)
      ensures onPlatform == hasDog <==> r == []
      ensures onPlatform && !hasDog ==> r == [DogLandedOnPlatform(id, position.y)]
      ensures !onPlatform && hasDog ==> r == [DogExitsPlatform]
    {
      if onPlatform && !hasDog then [DogLandedOnPlatform(id, position.y)]
      else if !onPlatform && hasDog then [DogExitsPlatform]
      else []
    }

    /** `navigate` against the dog, whose bounding box is `dogBox`. */
    method Navigate(dogBox: Rect)
      modifies publisher.events
      ensures publisher.events.contents ==
        old(publisher.events.contents) + NavigationEvents(OnPlatform(dogBox))
    {
      var isOnPlatform := OnPlatform(dogBox);
      if isOnPlatform && !hasDog {
        publisher.Publish(DogLandedOnPlatform(id, position.y));
      }
      if !isOnPlatform && hasDog {
        publisher.Publish(DogExitsPlatform);
      }
    }

    /** Any `DogExitsPlatform` clears `hasDog`, whichever platform published it; a
        `DogLandedOnPlatform` sets it only when it carries this platform's id. */
    function ProcessEvent(event: GameEvent): (r: Platform)
      ensures event == DogExitsPlatform ==> r == this.(hasDog := false)
      ensures event.DogLandedOnPlatform? && event.id == id ==> r == this.(hasDog := true)
      ensures event != DogExitsPlatform && !(event.DogLandedOnPlatform? && event.id == id) ==> r == this
    {
      match event
      case DogExitsPlatform => if hasDog then this.(hasDog := false) else this
      case DogLandedOnPlatform(i, _) => if i == id && !hasDog then this.(hasDog := true) else this
      case _ => this
    }

    /** The right edge of the last box (of `Rect::default` for a platform without boxes). */
    function Right(): (r: I16)
      ensures boundingBoxes != [] ==> r == boundingBoxes[|boundingBoxes| - 1].Right()
      ensures boundingBoxes == [] ==> r == DEFAULT.Right()
    {
      if boundingBoxes == [] then DEFAULT.Right() else boundingBoxes[|boundingBoxes| - 1].Right()
    }

    /** The left mark stands MARK_OFFSET before the platform, at its height. */
    function MarkLeft(): (r: ObstacleMarks.ObstacleMark)
      ensures r == ObstacleMarks.New(Point(Wrap16(position.x - MARK_OFFSET), position.y), ObstacleMarks.Left, id, publisher)
      ensures r.id == id + "_lm" && !r.hasDog
    {
      ObstacleMarks.New(Point(Wrap16(position.x - MARK_OFFSET), position.y), ObstacleMarks.Left, id, publisher)
    }

    /** The right mark stands MARK_OFFSET past the platform's right edge, at its height. */
    function MarkRight(): (r: ObstacleMarks.ObstacleMark)
      ensures r == ObstacleMarks.New(Point(Wrap16(Right() + MARK_OFFSET), position.y), ObstacleMarks.Right, id, publisher)
      ensures r.id == id + "_rm" && !r.hasDog
    {
      ObstacleMarks.New(Point(Wrap16(Right() + MARK_OFFSET), position.y), ObstacleMarks.Right, id, publisher)
    }
  }

  /** A template box placed relative to `position` (both coordinates added in `i16`). */
  function Translate(b: Rect, position: Point): (r: Rect)
    ensures r.position == Point(Wrap16(b.X() + position.x), Wrap16(b.Y() + position.y))
    ensures r.width == b.width && r.height == b.height
  {
    NewFromXY(Wrap16(b.X() + position.x), Wrap16(b.Y() + position.y), b.width, b.height)
  }

  /** A new platform has one box per template box, translated to `position`, and has
      not seen the dog. */
  function New(id: string, position: Point, boundingBoxes: seq<Rect>, publisher: EventPublisher): (r: Platform)
    ensures |r.boundingBoxes| == |boundingBoxes|
    ensures forall i :: 0 <= i < |boundingBoxes| ==> r.boundingBoxes[i] == Translate(boundingBoxes[i], position)
    ensures !r.hasDog && r.id == id && r.position == position && r.publisher == publisher
  {
    Platform(position, seq(|boundingBoxes|, i requires 0 <= i < |boundingBoxes| => Translate(boundingBoxes[i], position)),
             publisher, false, id)
  }

  /** The index of the first box `b` intersects, if any (`Iterator::find`). */
  function FirstHit(boxes: seq<Rect>, b: Rect): (r: Option<nat>)
    ensures r.Some? ==> r.value < |boxes| && b.Intersects(boxes[r.value])
    ensures r.Some? ==> forall j :: 0 <= j < r.value ==> !b.Intersects(boxes[j])
    ensures r.None? <==> forall j :: 0 <= j < |boxes| ==> !b.Intersects(boxes[j])
  {
    if boxes == [] then None
    else if b.Intersects(boxes[0]) then Some(0)
    else match FirstHit(boxes[1..], b)
      case None => None
      case Some(k) => Some(k + 1)
  }

  /** The runner meets the platform exactly when the dog-style "any box" test holds for
      its box: `find` and `any` agree. */
  lemma FirstHitIffTouching(p: Platform, b: Rect)
    ensures FirstHit(p.boundingBoxes, b).Some? <==> p.OnPlatform(b)
  {
  }

  /** Moving the platform keeps every box's offset from the platform's position. */
  lemma ShiftKeepsLayout(p: Platform, distance: I16, i: nat)
    requires i < |p.boundingBoxes|
    ensures Wrap16(p.Shifted(distance).boundingBoxes[i].X() - p.Shifted(distance).position.x)
         == Wrap16(p.boundingBoxes[i].X() - p.position.x)
  {
    var q := p.Shifted(distance);
    WrapShiftDiff(p.boundingBoxes[i].X(), p.position.x, distance, q.boundingBoxes[i].X(), q.position.x);
  }

  /** Moving by `d` and back by `-d` restores the platform. */
  lemma ShiftThereAndBack(p: Platform, d: I16)
    ensures p.Shifted(d).Shifted(Wrap16(-(d as int))) == p
  {
    var s := p.Shifted(d);
    var q := s.Shifted(Wrap16(-(d as int)));
    WrapAddInverse(p.position.x, d);
    assert q.position == p.position;
    forall i | 0 <= i < |p.boundingBoxes|
      ensures q.boundingBoxes[i] == p.boundingBoxes[i]
    {
      BoxThereAndBack(p.boundingBoxes[i], s.boundingBoxes[i], q.boundingBoxes[i], d);
    }
    assert q.boundingBoxes == p.boundingBoxes;
  }

  /** One box moved by `d` and then back by `-d` is where it started. */
  lemma BoxThereAndBack(b: Rect, moved: Rect, back: Rect, d: I16)
    requires moved == b.SetX(Wrap16(b.X() + d))
    requires back == moved.SetX(Wrap16(moved.X() + Wrap16(-(d as int))))
    ensures back == b
  {
    WrapAddInverse(b.X(), d);
  }

  /** The events of a batch handed to the platform, first to last. */
  function ProcessAll(p: Platform, events: seq<GameEvent>): Platform {
    if events == [] then p
    else ProcessAll(p, events[..|events| - 1]).ProcessEvent(events[|events| - 1])
  }

  /** The handshake: once what `navigate` published is delivered back, `hasDog` agrees
      with the dog and the same situation publishes nothing more. */
  lemma Handshake(p: Platform, onPlatform: bool)
    ensures ProcessAll(p, p.NavigationEvents(onPlatform)) == p.(hasDog := onPlatform)
    ensures ProcessAll(p, p.NavigationEvents(onPlatform)).NavigationEvents(onPlatform) == []
  {
    var events := p.NavigationEvents(onPlatform);
    if events != [] {
      assert events[..0] == [];
      assert ProcessAll(p, events) == p.ProcessEvent(events[0]);
    }
  }
}
