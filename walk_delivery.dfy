/** What the walk's event bus and obstacle list guarantee over whole batches
    (src/game/walk.rs): who sees which event, in which order, and how the marks and
    the dog settle once their own events come back to them. */
module WalkDelivery {
  import opened Geometry
  import opened Events
  import Dogs
  import DogMachine
  import ObstacleMarks
  import opened Obstacles
  import opened Walks

  /** The dog's machine after handling a batch of events, first to last. */
  function DogProcessAll(d: DogMachine.DogStateMachine, events: seq<GameEvent>): DogMachine.DogStateMachine {
    if events == [] then d else Dogs.DogProcessEvent(DogProcessAll(d, events[..|events| - 1]), events[|events| - 1])
  }

  /** No event of the batch is one the mark called `id` reacts to. */
  predicate NotAddressed(events: seq<GameEvent>, id: string) {
    forall i :: 0 <= i < |events| ==> !ObstacleMarks.AddressedTo(events[i], id)
  }

  /** A cell with no subscriber is left as it is by one delivery round. */
  lemma {:induction false} DeliverUntouched(l: Listeners, subs: seq<Subscriber>, event: GameEvent, c: nat)
    requires c < |l.cells| && ObstacleSubscriber(c) !in subs
    ensures |Deliver(l, subs, event).cells| == |l.cells|
    ensures Deliver(l, subs, event).cells[c] == l.cells[c]
  {
    if subs != [] {
      var init := subs[..|subs| - 1];
      var last := subs[|subs| - 1];
      assert subs == init + [last];
      DeliverUntouched(l, init, event, c);
      var before := Deliver(l, init, event);
      assert last != ObstacleSubscriber(c);
      assert Deliver(l, subs, event) == DeliverTo(before, last, event);
    }
  }

  /** A cell subscribed exactly once handles the event exactly once. */
  lemma {:induction false} DeliverOnce(l: Listeners, subs: seq<Subscriber>, event: GameEvent, c: nat)
    requires c < |l.cells| && multiset(subs)[ObstacleSubscriber(c)] == 1
    ensures |Deliver(l, subs, event).cells| == |l.cells|
    ensures Deliver(l, subs, event).cells[c] == l.cells[c].ProcessEvent(event)
  {
    var init := subs[..|subs| - 1];
    var last := subs[|subs| - 1];
    assert subs == init + [last];
    if last == ObstacleSubscriber(c) {
      assert ObstacleSubscriber(c) !in init by {
        assert multiset(init)[ObstacleSubscriber(c)] == 0;
      }
      DeliverUntouched(l, init, event, c);
    } else {
      DeliverOnce(l, init, event, c);
    }
  }

  /** The dog, subscribed exactly once, handles the event exactly once. */
  lemma {:induction false} DeliverDogOnce(l: Listeners, subs: seq<Subscriber>, event: GameEvent)
    requires multiset(subs)[DogSubscriber] == 1
    ensures Deliver(l, subs, event).dog == Dogs.DogProcessEvent(l.dog, event)
  {
    var init := subs[..|subs| - 1];
    var last := subs[|subs| - 1];
    assert subs == init + [last];
    if last == DogSubscriber {
      assert multiset(init)[DogSubscriber] == 0;
      DogUntouched(l, init, event);
    } else {
      DeliverDogOnce(l, init, event);
    }
  }

  /** Without the dog among the subscribers, a round leaves its machine as it is. */
  lemma {:induction false} DogUntouched(l: Listeners, subs: seq<Subscriber>, event: GameEvent)
    requires multiset(subs)[DogSubscriber] == 0
    ensures Deliver(l, subs, event).dog == l.dog
  {
    if subs != [] {
      var init := subs[..|subs| - 1];
      assert subs == init + [subs[|subs| - 1]];
      DogUntouched(l, init, event);
    }
  }

  /** `process_events` over a batch: a cell subscribed exactly once sees every event of
      the batch once, in queue order, as if handed the batch alone. */
  lemma {:induction false} DeliverAllOnce(l: Listeners, subs: seq<Subscriber>, events: seq<GameEvent>, c: nat)
    requires c < |l.cells| && multiset(subs)[ObstacleSubscriber(c)] == 1
    ensures |DeliverAll(l, subs, events).cells| == |l.cells|
    ensures DeliverAll(l, subs, events).cells[c] == ProcessAll(l.cells[c], events)
  {
    if events != [] {
      var init := events[..|events| - 1];
      DeliverAllOnce(l, subs, init, c);
      DeliverOnce(DeliverAll(l, subs, init), subs, events[|events| - 1], c);
    }
  }

  /** The dog, subscribed exactly once, sees every event of the batch once, in order. */
  lemma {:induction false} DeliverAllDogOnce(l: Listeners, subs: seq<Subscriber>, events: seq<GameEvent>)
    requires multiset(subs)[DogSubscriber] == 1
    ensures DeliverAll(l, subs, events).dog == DogProcessAll(l.dog, events)
  {
    if events != [] {
      var init := events[..|events| - 1];
      DeliverAllDogOnce(l, subs, init);
      DeliverDogOnce(DeliverAll(l, subs, init), subs, events[|events| - 1]);
    }
  }

  /** A cell without a subscriber never learns anything: a whole batch leaves it as it is. */
  lemma {:induction false} DeliverAllUntouched(l: Listeners, subs: seq<Subscriber>, events: seq<GameEvent>, c: nat)
    requires c < |l.cells| && ObstacleSubscriber(c) !in subs
    ensures |DeliverAll(l, subs, events).cells| == |l.cells|
    ensures DeliverAll(l, subs, events).cells[c] == l.cells[c]
  {
    if events != [] {
      var init := events[..|events| - 1];
      DeliverAllUntouched(l, subs, init, c);
      DeliverUntouched(DeliverAll(l, subs, init), subs, events[|events| - 1], c);
    }
  }

  /** `navigate_obstacles` over two lists one after the other publishes the first
      list's events, then the second's. */
  lemma {:induction false} NavigationAppend(cells: seq<Obstacle>, a: seq<nat>, b: seq<nat>,
                                            box: Rect, left: bool, right: bool)
    ensures NavigationEventsOf(cells, a + b, box, left, right)
      == NavigationEventsOf(cells, a, box, left, right) + NavigationEventsOf(cells, b, box, left, right)
  {
    if b == [] {
      assert a + b == a;
    } else {
      assert (a + b)[..|a + b| - 1] == a + b[..|b| - 1];
      NavigationAppend(cells, a, b[..|b| - 1], box, left, right);
    }
  }

  /** Obstacles other than the one in cell `c` publish nothing addressed to its id. */
  lemma {:induction false} NavigationOthers(cells: seq<Obstacle>, live: seq<nat>, c: nat,
                                            box: Rect, left: bool, right: bool)
    requires IdsDistinct(cells) && Indexed(live, |cells|) && c < |cells| && c !in live
    ensures NotAddressed(NavigationEventsOf(cells, live, box, left, right), cells[c].Id())
  {
    if live != [] {
      var init := live[..|live| - 1];
      var d := live[|live| - 1];
      assert d in live;
      assert forall j :: j in init ==> j in live;
      NavigationOthers(cells, init, c, box, left, right);
      assert IdAt(cells, c) != IdAt(cells, d) by {
        if c < d {
          assert IdAt(cells, c) != IdAt(cells, d);
        } else {
          assert IdAt(cells, d) != IdAt(cells, c);
        }
      }
      NavigationAddressesOnlyItself(cells[d], box, left, right, cells[c].Id());
    }
  }

  /** The events of the live list are those published before cell `c`, then `c`'s own,
      then those after it; none of the others is addressed to `c`'s id. */
  lemma {:induction false} NavigationAround(cells: seq<Obstacle>, live: seq<nat>, c: nat,
                                            box: Rect, left: bool, right: bool)
    returns (before: seq<GameEvent>, after: seq<GameEvent>)
    requires IdsDistinct(cells) && Indexed(live, |cells|) && c < |cells| && multiset(live)[c] == 1
    ensures NavigationEventsOf(cells, live, box, left, right)
      == before + cells[c].NavigationEvents(box, left, right) + after
    ensures NotAddressed(before, cells[c].Id()) && NotAddressed(after, cells[c].Id())
  {
    var init: seq<nat> := live[..|live| - 1];
    var d := live[|live| - 1];
    assert live == init + [d];
    assert forall j :: j in init ==> j in live;
    if d == c {
      assert c !in init by {
        assert multiset(init)[c] == 0;
      }
      NavigationOthers(cells, init, c, box, left, right);
      before, after := NavigationEventsOf(cells, init, box, left, right), [];
    } else {
      var tail := cells[d].NavigationEvents(box, left, right);
      assert d in live;
      assert IdAt(cells, c) != IdAt(cells, d) by {
        if c < d {
          assert IdAt(cells, c) != IdAt(cells, d);
        } else {
          assert IdAt(cells, d) != IdAt(cells, c);
        }
      }
      NavigationAddressesOnlyItself(cells[d], box, left, right, cells[c].Id());
      var b, a := NavigationAround(cells, init, c, box, left, right);
      before, after := b, a + tail;
    }
  }

  /** The mark handshake across the whole walk: once the events every live obstacle
      published for a dog are delivered to all subscribers, a live mark with its own
      subscriber agrees with that dog, and navigating again against the same dog
      publishes nothing for it. */
  lemma MarkSettles(cells: seq<Obstacle>, live: seq<nat>, subs: seq<Subscriber>, dog: DogMachine.DogStateMachine,
                    c: nat, box: Rect, left: bool, right: bool)
    requires IdsDistinct(cells) && Indexed(live, |cells|)
    requires c < |cells| && cells[c].MarkObstacle?
    requires multiset(live)[c] == 1 && multiset(subs)[ObstacleSubscriber(c)] == 1
    ensures var delivered := DeliverAll(Listeners(cells, dog), subs, NavigationEventsOf(cells, live, box, left, right));
      |delivered.cells| == |cells| && delivered.cells[c].NavigationEvents(box, left, right) == []
  {
    var events := NavigationEventsOf(cells, live, box, left, right);
    var before, after := NavigationAround(cells, live, c, box, left, right);
    DeliverAllOnce(Listeners(cells, dog), subs, events, c);
    SettlesOn(cells[c], before, after, box, left, right);
  }

  /** One mark, handed its own `navigate` output among events for others, then
      publishes nothing more for the same dog. */
  lemma SettlesOn(o: Obstacle, before: seq<GameEvent>, after: seq<GameEvent>, box: Rect, left: bool, right: bool)
    requires o.MarkObstacle? && NotAddressed(before, o.Id()) && NotAddressed(after, o.Id())
    ensures ProcessAll(o, before + o.NavigationEvents(box, left, right) + after).NavigationEvents(box, left, right) == []
  {
    var m := o.mark;
    var onMark := m.OnMark(box, left, right);
    TakesOwnEvents(m, onMark, before, after);
    assert o.NavigationEvents(box, left, right) == m.NavigationEvents(onMark);
    Quiet(m, box, left, right);
  }

  /** The mark's part of the handshake, with the dog's presence as `onMark`. */
  lemma TakesOwnEvents(m: ObstacleMarks.ObstacleMark, onMark: bool, before: seq<GameEvent>, after: seq<GameEvent>)
    requires NotAddressed(before, m.id) && NotAddressed(after, m.id)
    ensures ProcessAll(MarkObstacle(m), before + m.NavigationEvents(onMark) + after) == MarkObstacle(m.(hasDog := onMark))
  {
    ProcessAllMark(m, before + m.NavigationEvents(onMark) + after);
    ObstacleMarks.SettlesAmongOthers(m, onMark, before, after);
  }

  /** A mark that agrees with the dog publishes nothing for it. */
  lemma Quiet(m: ObstacleMarks.ObstacleMark, box: Rect, left: bool, right: bool)
    ensures MarkObstacle(m.(hasDog := m.OnMark(box, left, right))).NavigationEvents(box, left, right) == []
  {
    var settled := m.(hasDog := m.OnMark(box, left, right));
    assert settled.Mark() == m.Mark() && settled.direction == m.direction;
  }

  /** `retain` over two lists one after the other keeps the survivors of each, in order. */
  lemma {:induction false} SurvivingAppend(cells: seq<Obstacle>, a: seq<nat>, b: seq<nat>)
    ensures Surviving(cells, a + b) == Surviving(cells, a) + Surviving(cells, b)
  {
    if b == [] {
      assert a + b == a;
    } else {
      assert (a + b)[..|a + b| - 1] == a + b[..|b| - 1];
      SurvivingAppend(cells, a, b[..|b| - 1]);
    }
  }

  /** Dropping the surpassed obstacles twice drops nothing more the second time. */
  lemma {:induction false} SurvivingIdempotent(cells: seq<Obstacle>, live: seq<nat>)
    ensures Surviving(cells, Surviving(cells, live)) == Surviving(cells, live)
  {
    if live != [] {
      var init := live[..|live| - 1];
      var c := live[|live| - 1];
      SurvivingIdempotent(cells, init);
      if c < |cells| && cells[c].Right() > 0 {
        SurvivingAppend(cells, Surviving(cells, init), [c]);
        assert [c][..0] == [];
      }
    }
  }
}
