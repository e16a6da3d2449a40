/** The earlier barrier (src/game/barrier.rs), which carries its own jump marks: one
    `dogOnMark` flag for both marks, kept in step with the dog through its id's
    `DogHitMark` / `DogOffMark` events. Its `&mut self` updates are modelled as
    functions returning the updated barrier. */
module LegacyBarriers {
  import opened Ints
  import opened Geometry
  import opened Events
  import Images
  import RedHatBoys
  import Dogs
  import Collisions

  datatype Barrier = Barrier(
    dogOnMark: bool,
    publisher: EventPublisher,
    id: string,
    image: Images.Image,
    hasMarkLeft: bool,
    hasMarkRight: bool)
  {
    function WithLeftMark(): (r: Barrier)
      ensures r.hasMarkLeft && r == this.(hasMarkLeft := r.hasMarkLeft)
    {
      this.(hasMarkLeft := true)
    }

    function WithRightMark(): (r: Barrier)
      ensures r.hasMarkRight && r == this.(hasMarkRight := r.hasMarkRight)
    {
      this.(hasMarkRight := true)
    }

    /** A one-pixel strip 20 pixels before the stone, as tall as the stone. */
    function MarkLeft(): (r: Rect)
      ensures r.position == Point(Wrap16(image.boundingBox.X() - 20), image.boundingBox.Y())
      ensures r.width == 1 && r.height == image.boundingBox.height
    {
      Geometry.New(Point(Wrap16(image.boundingBox.X() - 20), image.boundingBox.Y()), 1, image.boundingBox.height)
    }

    /** A one-pixel strip 20 pixels past the stone, 50 pixels tall. */
    function MarkRight(): (r: Rect)
      ensures r.position == Point(Wrap16(image.boundingBox.Right() + 20), image.boundingBox.Y())
      ensures r.width == 1 && r.height == 50
    {
      Geometry.New(Point(Wrap16(image.boundingBox.Right() + 20), image.boundingBox.Y()), 1, 50)
    }

    /** Only a dog heading right can be on the left mark, and only if there is one. */
    predicate OnLeftMark(dogBox: Rect, movingRight: bool)
      ensures OnLeftMark(dogBox, movingRight) ==> hasMarkLeft && movingRight
    {
      if !hasMarkLeft || !movingRight then false else dogBox.Intersects(MarkLeft())
    }

    /** Only a dog heading left can be on the right mark, and only if there is one. */
    predicate OnRightMark(dogBox: Rect, movingLeft: bool)
      ensures OnRightMark(dogBox, movingLeft) ==> hasMarkRight && movingLeft
    {
      if !hasMarkRight || !movingLeft then false else dogBox.Intersects(MarkRight())
    }

    /** Any runner touching the stone hits it, whatever its state. */
    function Contact(boyBox: Rect): (c: Collisions.Contact)
      ensures c == Collisions.Hits <==> boyBox.Intersects(image.boundingBox)
      ensures c != Collisions.Hits ==> c == Collisions.NoContact
    {
      if boyBox.Intersects(image.boundingBox) then Collisions.Hits else Collisions.NoContact
    }

    method CheckIntersection(boy: RedHatBoys.RedHatBoy)
      modifies boy, publisher.events
      ensures Collisions.Applied(Contact(old(boy.BoundingBox())),
        old(boy.stateMachine), boy.stateMachine, old(publisher.events.contents), publisher.events.contents)
    {
      if boy.BoundingBox().Intersects(image.boundingBox) {
        boy.KnockOut();
        publisher.Publish(BoyHitsObstacle);
      }
    }

    function MoveHorizontally(distance: I16): (r: Barrier)
      ensures r.image == image.MoveHorizontally(distance)
      ensures r == this.(image := r.image)
    {
      this.(image := image.MoveHorizontally(distance))
    }

    /** What `navigate` publishes: an edge of "on either mark" against `dogOnMark`. */
    function NavigationEvents(onMark: bool): (r: seq<GameEvent>)
      ensures onMark == dogOnMark <==> r == []
      ensures onMark && !dogOnMark ==> r == [DogHitMark(id)]
      ensures !onMark && dogOnMark ==> r == [DogOffMark(id)]
    {
      if onMark && !dogOnMark then [DogHitMark(id)]
      else if !onMark && dogOnMark then [DogOffMark(id)]
      else []
    }

    method Navigate(dog: Dogs.Dog)
      modifies publisher.events
      ensures publisher.events.contents == old(publisher.events.contents) +
        NavigationEvents(OnLeftMark(dog.BoundingBox(), dog.MovingRight()) || OnRightMark(dog.BoundingBox(), dog.MovingLeft()))
    {
      var isOnMark := OnLeftMark(dog.BoundingBox(), dog.MovingRight()) || OnRightMark(dog.BoundingBox(), dog.MovingLeft());
      if isOnMark && !dogOnMark {
        publisher.Publish(DogHitMark(id));
      }
      if !isOnMark && dogOnMark {
        publisher.Publish(DogOffMark(id));
      }
    }

    /** Only this barrier's own `DogHitMark` / `DogOffMark` set or clear `dogOnMark`. */
    function ProcessEvent(event: GameEvent): (r: Barrier)
      ensures event == DogHitMark(id) ==> r == this.(dogOnMark := true)
      ensures event == DogOffMark(id) ==> r == this.(dogOnMark := false)
      ensures event != DogHitMark(id) && event != DogOffMark(id) ==> r == this
    {
      match event
      case DogHitMark(i) => if i == id then this.(dogOnMark := true) else this
      case DogOffMark(i) => if i == id then this.(dogOnMark := false) else this
      case _ => this
    }

    function Right(): (r: I16)
      ensures r == image.boundingBox.Right()
    {
      image.Right()
    }
  }

  /** A new barrier has no marks and has not seen the dog. */
  function New(id: string, image: Images.Image, publisher: EventPublisher): (r: Barrier)
    ensures !r.dogOnMark && !r.hasMarkLeft && !r.hasMarkRight
    ensures r.id == id && r.image == image && r.publisher == publisher
  {
    Barrier(false, publisher, id, image, false, false)
  }

  /** A barrier built without marks never publishes anything for the dog. */
  lemma UnmarkedIsSilent(b: Barrier, dogBox: Rect, movingLeft: bool, movingRight: bool)
    requires !b.hasMarkLeft && !b.hasMarkRight && !b.dogOnMark
    ensures b.NavigationEvents(b.OnLeftMark(dogBox, movingRight) || b.OnRightMark(dogBox, movingLeft)) == []
  {
  }

  /** The events of a batch handed to the barrier, first to last. */
  function ProcessAll(b: Barrier, events: seq<GameEvent>): Barrier {
    if events == [] then b else ProcessAll(b, events[..|events| - 1]).ProcessEvent(events[|events| - 1])
  }

  /** The handshake: once its own `navigate` output is delivered back, `dogOnMark`
      agrees with the dog and the same situation publishes nothing more. */
  lemma Handshake(b: Barrier, onMark: bool)
    ensures ProcessAll(b, b.NavigationEvents(onMark)) == b.(dogOnMark := onMark)
    ensures ProcessAll(b, b.NavigationEvents(onMark)).NavigationEvents(onMark) == []
  {
    var events := b.NavigationEvents(onMark);
    if events != [] {
      assert events[..0] == [];
      assert ProcessAll(b, events) == b.ProcessEvent(events[0]);
    }
  }
}
