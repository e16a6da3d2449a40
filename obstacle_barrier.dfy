/** A stone the runner must jump (src/game/obstacles/barrier.rs). The dog is steered
    round it by two separate marks; the barrier itself ignores the dog and every event. */
module Barriers {
  import opened Ints
  import opened Geometry
  import opened Events
  import Images
  import RedHatBoys
  import Collisions
  import ObstacleMarks

  datatype Barrier = Barrier(publisher: EventPublisher, id: string, image: Images.Image) {

    /** Only a running runner that touches the stone hits it. */
    function Contact(running: bool, boyBox: Rect): (c: Collisions.Contact)
      ensures c == Collisions.Hits <==> running && boyBox.Intersects(image.boundingBox)
      ensures c != Collisions.Hits ==> c == Collisions.NoContact
    {
      if running && boyBox.Intersects(image.boundingBox) then Collisions.Hits else Collisions.NoContact
    }

    /** A hit knocks the runner out and publishes `BoyHitsObstacle`; otherwise neither
        the runner nor the queue changes. */
    method CheckIntersection(boy: RedHatBoys.RedHatBoy)
      modifies boy, publisher.events
      ensures Collisions.Applied(Contact(old(boy.IsRunning()), old(boy.BoundingBox())),
        old(boy.stateMachine), boy.stateMachine, old(publisher.events.contents), publisher.events.contents)
    {
      if boy.IsRunning() && boy.BoundingBox().Intersects(image.boundingBox) {
        boy.KnockOut();
        publisher.Publish(BoyHitsObstacle);
      }
    }

    /** The subscriber name is the obstacle id. */
    function Name(): (r: string)
      ensures r == id
    {
      id
    }

    /** The image scrolls; the id and publisher stay. */
    function MoveHorizontally(distance: I16): (r: Barrier)
      ensures r.image == image.MoveHorizontally(distance)
      ensures r.id == id && r.publisher == publisher
    {
      this.(image := image.MoveHorizontally(distance))
    }

    function Right(): (r: I16)
      ensures r == image.boundingBox.Right()
    {
      image.Right()
    }

    /** The left mark stands 20 pixels before the stone, at the stone's top. */
    function MarkLeft(): (r: ObstacleMarks.ObstacleMark)
      ensures r == ObstacleMarks.New(
        Point(Wrap16(image.boundingBox.X() - 20), image.boundingBox.Y()), ObstacleMarks.Left, id, publisher)
      ensures r.id == id + "_lm" && !r.hasDog
    {
      ObstacleMarks.New(
        Point(Wrap16(image.boundingBox.X() - 20), image.boundingBox.Y()), ObstacleMarks.Left, id, publisher)
    }

    /** The right mark stands 20 pixels past the stone and starts 200 pixels higher, so
        that it also reaches a dog on a nearby platform. */
    function MarkRight(): (r: ObstacleMarks.ObstacleMark)
      ensures r == ObstacleMarks.New(
        Point(Wrap16(image.Right() + 20), Wrap16(image.boundingBox.Y() - 200)), ObstacleMarks.Right, id, publisher)
      ensures r.id == id + "_rm" && !r.hasDog
    {
      ObstacleMarks.New(
        Point(Wrap16(image.Right() + 20), Wrap16(image.boundingBox.Y() - 200)), ObstacleMarks.Right, id, publisher)
    }
  }

  /** Both marks lie outside the stone horizontally, on either side of it. */
  lemma MarksFlankTheStone(b: Barrier)
    requires WellFormed(b.image.boundingBox)
    requires InI16(b.image.boundingBox.X() - 20) && InI16(b.image.Right() + 20)
    ensures b.MarkLeft().Right() <= b.image.boundingBox.Left()
    ensures b.MarkRight().position.x >= b.image.boundingBox.Right()
    ensures b.MarkLeft().id != b.MarkRight().id
  {
    ObstacleMarks.MarkIdsDistinct(b.MarkLeft().position, ObstacleMarks.Left, b.id,
      b.MarkRight().position, ObstacleMarks.Right, b.id, b.publisher);
  }
}
