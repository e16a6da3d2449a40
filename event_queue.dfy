/** The game-event bus (src/game/event_queue.rs): one FIFO queue shared by every
    publisher clone and by the walk that drains it. */
module Events {
  import opened Ints

  /** Events exchanged between obstacles, the dog and the walk. The file declares only
      `DogTooClose` and `DogTooFar`; the other variants are those the obstacles publish
      and match on. */
  datatype GameEvent =
    | DogTooClose
    | DogTooFar
    | BoyHitsObstacle
    | DogHitMark(id: string)
    | DogOffMark(id: string)
    | DogLandedOnPlatform(id: string, platformTop: I16)
    | DogExitsPlatform

  /** The `VecDeque<GameEvent>` behind the shared `RefCell`; head first. */
  class EventQueue {
    var contents: seq<GameEvent>

    constructor ()
      ensures contents == []
    {
      contents := [];
    }

    method PushBack(event: GameEvent)
      modifies this
      ensures contents == old(contents) + [event]
    {
      contents := contents + [event];
    }

    /** Removes and returns the head, or `None` when the queue is empty. */
    method PopFront() returns (r: Option<GameEvent>)
      modifies this
      ensures old(contents) == [] ==> r == None && contents == []
      ensures old(contents) != [] ==> r == Some(old(contents)[0]) && contents == old(contents)[1..]
    {
      if contents == [] {
        r := None;
      } else {
        r := Some(contents[0]);
        contents := contents[1..];
      }
    }
  }

  /** A cloneable handle on the queue: clones hold the same `EventQueue` reference, so
      whatever any clone publishes lands in the one queue in call order. */
  datatype EventPublisher = EventPublisher(events: EventQueue) {

    /** Appends `event` at the tail; everything queued before stays, in order. */
    method Publish(event: GameEvent)
      modifies events
      ensures events.contents == old(events.contents) + [event]
      ensures |events.contents| == |old(events.contents)| + 1
      ensures events.contents[..|old(events.contents)|] == old(events.contents)
    {
      events.PushBack(event);
    }
  }
}
