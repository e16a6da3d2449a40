/** Keyboard state (src/engine/input.rs): the set of key codes currently held down,
    updated from a channel of key-down / key-up events. */
module Input {

  /** The browser keyboard event; only its `code` matters to the game. */
  datatype KeyboardEvent = KeyboardEvent(code: string)

  datatype KeyPress = KeyDown(event: KeyboardEvent) | KeyUp(event: KeyboardEvent)

  /** What `try_next` on the unbounded receiver yields. */
  datatype TryNext = Message(press: KeyPress) | Closed | Empty

  class KeyState {
    var pressedKeys: map<string, KeyboardEvent>

    /** No key is pressed initially. */
    constructor ()
      ensures pressedKeys == map[]
      ensures forall code :: !IsPressed(code)
    {
      pressedKeys := map[];
    }

    /** A key is pressed while the map holds an event for it. */
    predicate IsPressed(code: string): (pressed: bool)
      reads this
      ensures pressed <==> code in pressedKeys
    {
      code in pressedKeys
    }

    /** `code` becomes pressed (with `event` stored); every other key keeps its status. */
    method SetPressed(code: string, event: KeyboardEvent)
      modifies this
      ensures pressedKeys == old(pressedKeys)[code := event]
      ensures IsPressed(code)
      ensures forall other :: other != code ==> (IsPressed(other) <==> old(IsPressed(other)))
    {
      pressedKeys := pressedKeys[code := event];
    }

    /** `code` becomes released; every other key keeps its status. */
    method SetReleased(code: string)
      modifies this
      ensures pressedKeys == old(pressedKeys) - {code}
      ensures !IsPressed(code)
      ensures forall other :: other != code ==> (IsPressed(other) <==> old(IsPressed(other)))
    {
      pressedKeys := pressedKeys - {code};
    }
  }

  /** The receiving end of the key-event channel: messages not yet read, and whether
      every sender is gone. */
  class KeyEventReceiver {
    var pending: seq<KeyPress>
    var closed: bool

    constructor (pending: seq<KeyPress>, closed: bool)
      ensures this.pending == pending && this.closed == closed
    {
      this.pending := pending;
      this.closed := closed;
    }

    /** The next message if there is one; otherwise `Closed` or `Empty` (an error). */
    method TryNextMessage() returns (r: TryNext)
      modifies this
      ensures old(pending) != [] ==> r == Message(old(pending)[0]) && pending == old(pending)[1..]
      ensures old(pending) == [] ==> r == (if closed then Closed else Empty) && pending == []
      ensures closed == old(closed)
    {
      if pending != [] {
        r := Message(pending[0]);
        pending := pending[1..];
      } else {
        r := if closed then Closed else Empty;
      }
    }
  }

  /** The effect of one key event on the pressed-key map. */
  function Apply(keys: map<string, KeyboardEvent>, press: KeyPress): map<string, KeyboardEvent> {
    match press
    case KeyDown(e) => keys[e.code := e]
    case KeyUp(e) => keys - {e.code}
  }

  /** The effect of a sequence of key events, applied first to last. */
  function ApplyAll(keys: map<string, KeyboardEvent>, presses: seq<KeyPress>): map<string, KeyboardEvent> {
    if presses == [] then keys
    else Apply(ApplyAll(keys, presses[..|presses| - 1]), presses[|presses| - 1])
  }

  /** Drains the receiver into `state`, applying the events in order, and stops at the
      first `try_next` that yields no message (channel empty or closed). */
  method ProcessInput(state: KeyState, receiver: KeyEventReceiver)
    modifies state, receiver
    ensures receiver.pending == [] && receiver.closed == old(receiver.closed)
    ensures state.pressedKeys == ApplyAll(old(state.pressedKeys), old(receiver.pending))
  {
    ghost var events := receiver.pending;
    ghost var keys := state.pressedKeys;
    ghost var consumed := 0;
    while true
      invariant 0 <= consumed <= |events|
      invariant receiver.pending == events[consumed..]
      invariant receiver.closed == old(receiver.closed)
      invariant state.pressedKeys == ApplyAll(keys, events[..consumed])
      decreases |receiver.pending|
    {
      var next := receiver.TryNextMessage();
      match next {
        case Closed => break;
        case Empty => break;
        case Message(press) =>
          assert press == events[consumed];
          assert events[..consumed + 1][..consumed] == events[..consumed];
          match press {
            case KeyDown(e) => state.SetPressed(e.code, e);
            case KeyUp(e) => state.SetReleased(e.code);
          }
          consumed := consumed + 1;
      }
    }
    assert events[..consumed] == events;
  }

  /** After a batch of events, a key is pressed exactly when the last event carrying its
      code is a key-down. */
  lemma {:induction false} LastEventDecides(keys: map<string, KeyboardEvent>, presses: seq<KeyPress>, i: nat)
    requires i < |presses|
    requires forall j :: i < j < |presses| ==> presses[j].event.code != presses[i].event.code
    ensures presses[i].event.code in ApplyAll(keys, presses) <==> presses[i].KeyDown?
    decreases |presses|
  {
    var init := presses[..|presses| - 1];
    if i < |presses| - 1 {
      assert forall j :: i < j < |init| ==> init[j] == presses[j];
      LastEventDecides(keys, init, i);
    }
  }

  /** A key no event mentions keeps the status it had before the batch. */
  lemma {:induction false} UntouchedKeyKeepsStatus(keys: map<string, KeyboardEvent>, presses: seq<KeyPress>, code: string)
    requires forall j :: 0 <= j < |presses| ==> presses[j].event.code != code
    ensures code in ApplyAll(keys, presses) <==> code in keys
    decreases |presses|
  {
    if presses != [] {
      var init := presses[..|presses| - 1];
      assert forall j :: 0 <= j < |init| ==> init[j] == presses[j];
      UntouchedKeyKeepsStatus(keys, init, code);
    }
  }
}
