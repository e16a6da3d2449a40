# walk-the-dog, modelled in Dafny

This project models the simulation core of *walk-the-dog*, a side-scroller in which a
red-hat boy runs through a course of stones and floating platforms, and a dog runs
alongside. Only the core is modelled. The browser, rendering and asset loading are left out.
Everything the core does is integer arithmetic on `i16`/`u8`, closed enums and fixed
transition rules. Its one random draw (the next segment) is a parameter here.

The model follows the program's own structure, one module per source file:

- **Engine.** `Geometry` is `Rect`/`Point` with the strict `intersects`. `Images` is
  the scrolled `Image`. `Input` is the `KeyState` map and the `process_input` drain
  loop. `Events` is the shared FIFO queue behind every `EventPublisher` clone.
- **Runner.** `BoyContext` holds the physics tick: gravity capped at 20, a wrapping
  frame counter and the floor clamp at 479. The typestates are `BoyIdle`, `BoyRunning`,
  `BoyJumping`, `BoySliding` and `BoyFalling`, with the timed transitions of sliding
  (14 frames) and falling (29 frames). `RedHatBoys` is the wrapper class whose command
  methods each apply one transition, plus its inset bounding box.
- **Dog.** `DogContexts`, the twelve dog typestates, and `DogMachine` with its
  transition table, where any unmatched pair is a no-op. `Dogs` is the wrapper class
  with the `navigate` decision rule.
- **Obstacles.**
  - `ObstacleMarks` are jump marks.
  - `Barriers` are stones; `Platforms` are floating platforms.
  - `Obstacles` is the closed sum behind the `Obstacle` trait.
  - `LegacyBarriers` and `LegacyPlatforms` are the earlier barrier and platform.
  - `Collisions` is what a contact does to the runner.
- **Course.** `Segments` is the segment factory: its counter, its six layouts and
  its obstacle ids. `Walks` is the walk: obstacle registry, event bus, drop,
  generation and reset. `WalkDelivery` holds the delivery and handshake lemmas over it.
- **Run controller.** `ReadyState`, `WalkingState` (the per-tick scroll, background
  wrap and timeline rule), `GameOverState` and the dispatcher `GameStates`.

Obstacles are shared in the source through `Rc<RefCell<..>>`. Here they live in an
arena, `Walk.cells: seq<Obstacle>`, which only grows. The live obstacle list
`Walk.obstacles` is a sequence of cell indices, and a subscriber is either the dog or
the index of its obstacle's cell. So an obstacle that is dropped from the live list but
still subscribed keeps receiving events, as it does in the source.

`i16` arithmetic is two's-complement wrap-around (`Ints.Wrap16`), the behaviour of a
release build.

Functions, constants and event variants the core calls but that are not part of this
model are declared without a definition, and nothing is proved about them. These are:

- the runner's `state_machine.rs` dispatcher and its `Event` enum;
- `RedHatBoy::knocked_out`, `is_running` and `reset`;
- `Dog::moving_left`, `moving_right`, `name` and `process_event`;
- the `DogContext` helpers;
- the dog-state methods the transition table dispatches to, where they are not shown;
- `JUMP_SPEED`, `RUNNING_FRAMES`, `JUMPING_FRAMES`, `DOG_FLOOR` and `game::FLOOR`;
- `Rect::default`.

## Model

| member | source | states |
|---|---|---|
| Ints.WrapCongruent | src/engine/rect.rs:41-43 | an `i16` sum wraps to a value congruent to the exact sum modulo 2^16 |
| Ints.WrapUnique | src/engine/rect.rs:41-43 | any `i16` congruent to the exact sum modulo 2^16 is the wrapped sum, so the wrapped sum is the exact sum whenever that fits in `i16` |
| Text.NatToString | src/game/segments.rs:65-82 | the decimal rendering of a counter is a non-empty string of digits |
| Text.NatToStringRoundTrip | src/game/segments.rs:65-82 | reading the decimal rendering back gives the number rendered |
| Text.NatToStringInjective | src/game/segments.rs:65-82 | different counters render differently, so ids built from them never collide |
| Text.ZeroPad3 | src/game/dog.rs:110-113 | the `{:03}` rendering denotes the number and has exactly three digits below 1000, otherwise as many as the plain rendering |
| Geometry.Rect.X | src/engine/rect.rs:53-55 | the x accessor reads `position.x` |
| Geometry.Rect.Y | src/engine/rect.rs:57-59 | the y accessor reads `position.y` |
| Geometry.Rect.Left | src/engine/rect.rs:37-39 | the left edge is `position.x` |
| Geometry.Rect.Top | src/engine/rect.rs:49-51 | the top edge is `position.y` |
| Geometry.Rect.Right | src/engine/rect.rs:41-43 | the right edge is `x + width` in `i16` |
| Geometry.Rect.Bottom | src/engine/rect.rs:26-28 | the bottom edge is `y + height` in `i16` |
| Geometry.Rect.SetX | src/engine/rect.rs:45-47 | only `position.x` changes, to the given value |
| Geometry.New | src/engine/rect.rs:14-20 | the rectangle has the given position and size |
| Geometry.NewFromXY | src/engine/rect.rs:22-24 | building from coordinates is building from the point they make |
| Geometry.IntersectsIffSharedPixel | src/engine/rect.rs:30-35 | for rectangles of positive size whose edges fit in `i16`, `intersects` holds exactly when they share a pixel |
| Geometry.IntersectsSymmetric | src/engine/rect.rs:30-35 | `intersects` is symmetric |
| Geometry.SharedEdgeDoesNotIntersect | src/engine/rect.rs:30-35 | rectangles that only share an edge do not intersect |
| Geometry.IntersectsItself | src/engine/rect.rs:30-35 | a rectangle of positive size intersects itself |
| Images.Image.MoveHorizontally | src/engine/image.rs:30-32 | the left edge moves by `distance` in `i16`; the other fields stay |
| Images.Image.Right | src/engine/image.rs:34-36 | the image's right is its bounding box's right |
| Images.Image.SetX | src/engine/image.rs:38-41 | the left edge is placed at `x` and nothing else changes |
| Images.New | src/engine/image.rs:13-19 | the box sits at `position`, with the element's size cast to `i16` |
| Images.MoveThereAndBack | src/engine/image.rs:30-32 | scrolling by `d` and then by `-d` restores the image |
| Events.EventQueue.PushBack | src/game/event_queue.rs:14-16 | the event joins the tail of the queue |
| Events.EventQueue.PopFront | src/game/walk.rs:187 | the head leaves the queue and is returned; an empty queue yields nothing |
| Events.EventPublisher.Publish | src/game/event_queue.rs:14-16 | the event is appended at the tail of the shared queue and everything queued before stays, in order |
| Input.KeyState.constructor | src/engine/input.rs:46-50 | no key is pressed initially |
| Input.KeyState.IsPressed | src/engine/input.rs:52-54 | a key is pressed exactly when the map holds an entry for its code |
| Input.KeyState.SetPressed | src/engine/input.rs:56-59 | the code becomes pressed with its event stored; every other key keeps its status |
| Input.KeyState.SetReleased | src/engine/input.rs:61-63 | the code becomes released; every other key keeps its status |
| Input.KeyEventReceiver.TryNextMessage | src/engine/input.rs:68 | the oldest pending message is taken if there is one; otherwise the channel reports closed or empty |
| Input.ProcessInput | src/engine/input.rs:66-77 | the loop drains every pending key event, applying them to the key map first to last |
| Input.LastEventDecides | src/engine/input.rs:66-77 | after a batch, a key is pressed exactly when the last event carrying its code was a key-down |
| Input.UntouchedKeyKeepsStatus | src/engine/input.rs:66-77 | a key that no event in the batch names keeps its status |
| BoyContext.RedHatBoyContext.ResetFrame | src/game/red_hat_boy/context.rs:61-65 | the frame restarts at 0; position and velocity stay |
| BoyContext.RedHatBoyContext.RunRight | src/game/red_hat_boy/context.rs:67-71 | the horizontal velocity grows by RUNNING_SPEED (4) in `i16`; nothing else changes |
| BoyContext.RedHatBoyContext.SetOn | src/game/red_hat_boy/context.rs:73-78 | the runner's top goes PLAYER_HEIGHT (121) above the surface; nothing else changes |
| BoyContext.RedHatBoyContext.SetVerticalVelocity | src/game/red_hat_boy/context.rs:80-84 | only the vertical velocity changes, to `y` |
| BoyContext.RedHatBoyContext.Stop | src/game/red_hat_boy/context.rs:86-91 | both velocities become 0; position and frame stay |
| BoyContext.RedHatBoyContext.Update | src/game/red_hat_boy/context.rs:95-113 | gravity adds 1 below the terminal velocity and never pushes past it; the frame counts up and wraps to 0 at `frame_count`; the runner falls by the new velocity and never ends below the floor |
| BoyContext.FrameCounts | src/game/red_hat_boy/context.rs:100-104 | from frame 0, the counter reads `n` after `n <= frame_count` ticks |
| BoyContext.FrameWraps | src/game/red_hat_boy/context.rs:100-104 | the animation loops: from frame 0 it is back at 0 after `frame_count + 1` ticks |
| BoyContext.VelocityApproachesTerminal | src/game/red_hat_boy/context.rs:96-98 | each tick adds 1 to the vertical velocity until it reaches TERMINAL_VELOCITY (20), where it stays |
| BoyMachine.RedHatBoyStateMachine.Context | src/game/red_hat_boy/states.rs:16-20 | the context is the active state's context |
| BoyIdle.New | src/game/red_hat_boy/states/idle.rs:19-34 | a new runner stands still on the floor at STARTING_POINT (-20), at frame 0 |
| BoyIdle.FrameName | src/game/red_hat_boy/states/idle.rs:36-38 | the idle sprite name is "Idle" |
| BoyIdle.Run | src/game/red_hat_boy/states/idle.rs:40-47 | running starts with the animation restarted and the horizontal speed raised by RUNNING_SPEED; height and vertical speed stay |
| BoyIdle.Update | src/game/red_hat_boy/states/idle.rs:49-53 | the context ticks with IDLE_FRAMES (29), so the frame never exceeds 29 |
| BoyIdle.NewThenRun | src/game/red_hat_boy/states/idle.rs:19-47 | a new runner that starts running is on the floor at (-20, 479), at frame 0, moving right at 4 |
| BoyIdle.IdleStaysOnFloor | src/game/red_hat_boy/states/idle.rs:49-53 | an idle runner on the floor stays on the floor |
| BoyRunning.FrameName | src/game/red_hat_boy/states/running.rs:12-14 | the running sprite name is "Run" |
| BoyRunning.Jump | src/game/red_hat_boy/states/running.rs:16-27 | the jump takes off at JUMP_SPEED (-25) with the animation restarted, keeping horizontal speed and position |
| BoyRunning.KnockOut | src/game/red_hat_boy/states/running.rs:29-36 | the runner starts falling where it stands, at frame 0, with both velocities zero |
| BoyRunning.LandOn | src/game/red_hat_boy/states/running.rs:38-43 | the runner keeps running with its top PLAYER_HEIGHT above the surface; frame and velocity stay |
| BoyRunning.Slide | src/game/red_hat_boy/states/running.rs:45-52 | the slide starts with the animation restarted and nothing else changed |
| BoyRunning.Update | src/game/red_hat_boy/states/running.rs:54-58 | the context ticks with RUNNING_FRAMES (23) |
| BoyRunning.LandOnHeightIsFloor | src/game/red_hat_boy/states/running.rs:38-43 | landing on the canvas bottom (600) puts the runner's top at FLOOR (479) |
| BoyJumping.FrameName | src/game/red_hat_boy/states/jumping.rs:14-16 | the jumping sprite name is "Jump" |
| BoyJumping.KnockOut | src/game/red_hat_boy/states/jumping.rs:18-25 | the runner starts falling where it is, at frame 0, with both velocities zero |
| BoyJumping.LandOn | src/game/red_hat_boy/states/jumping.rs:27-34 | the runner runs on with the animation restarted and its top PLAYER_HEIGHT above the surface |
| BoyJumping.Update | src/game/red_hat_boy/states/jumping.rs:36-44 | after the tick the jump ends exactly when the runner is at the floor, and then it runs on the canvas bottom from frame 0; otherwise it stays in the air with the ticked context |
| BoyJumping.IntoMachine | src/game/red_hat_boy/states/jumping.rs:52-59 | a landing becomes the Running variant and a jump the Jumping variant, each with its state |
| BoyJumping.Airborne | src/game/red_hat_boy/states/jumping.rs:36-44 | a jump from the floor at JUMP_SPEED is in the air for the first 45 ticks, its speed rising by 1 per tick along a parabola |
| BoyJumping.Descending | src/game/red_hat_boy/states/jumping.rs:36-44 | from tick 45 to 49 the runner falls at TERMINAL_VELOCITY, still in the air |
| BoyJumping.LandsOnTick50 | src/game/red_hat_boy/states/jumping.rs:36-44 | the 50th tick lands the runner on the floor at frame 0 |
| BoyJumping.JumpFromFloorLasts50Ticks | src/game/red_hat_boy/states/running.rs:16-27 | a jump taken while running on the floor lasts exactly 50 ticks and ends running where it took off |
| BoySliding.FrameName | src/game/red_hat_boy/states/sliding.rs:11-13 | the sliding sprite name is "Slide" |
| BoySliding.KnockOut | src/game/red_hat_boy/states/sliding.rs:15-22 | the runner starts falling where it is, at frame 0, with both velocities zero |
| BoySliding.LandOn | src/game/red_hat_boy/states/sliding.rs:24-29 | the runner keeps sliding with its top PLAYER_HEIGHT above the surface |
| BoySliding.Update | src/game/red_hat_boy/states/sliding.rs:31-39 | the slide ends exactly when the ticked frame reaches SLIDING_FRAMES (14), and the runner then runs from frame 0 |
| BoySliding.Stand | src/game/red_hat_boy/states/sliding.rs:41-48 | back to running with the animation restarted and nothing else changed |
| BoySliding.IntoMachine | src/game/red_hat_boy/states/sliding.rs:56-63 | a completed slide becomes the Running variant, an ongoing one the Sliding variant |
| BoySliding.StillSliding | src/game/red_hat_boy/states/sliding.rs:31-39 | from frame 0 the slide is still on after `k < 14` ticks, at frame `k` |
| BoySliding.SlideLasts14Ticks | src/game/red_hat_boy/states/sliding.rs:31-39 | a slide started at frame 0 ends after exactly 14 ticks, running at frame 0 |
| BoyFalling.FrameName | src/game/red_hat_boy/states/falling.rs:11-13 | the falling sprite name is "Dead" |
| BoyFalling.Update | src/game/red_hat_boy/states/falling.rs:15-23 | the fall ends in KnockedOut exactly when the ticked frame reaches FALLING_FRAMES (29) |
| BoyFalling.Dead | src/game/red_hat_boy/states/falling.rs:25-32 | knocked out with the context unchanged |
| BoyFalling.IntoMachine | src/game/red_hat_boy/states/falling.rs:40-47 | a completed fall becomes the KnockedOut variant, an ongoing one the Falling variant |
| BoyFalling.StillFalling | src/game/red_hat_boy/states/falling.rs:15-23 | from frame 0 the fall is still on after `k < 29` ticks, at frame `k` |
| BoyFalling.FallLasts29Ticks | src/game/red_hat_boy/states/falling.rs:15-23 | a fall started at frame 0 reaches KnockedOut after exactly 29 ticks and stays there |
| BoyFalling.StaysKnockedOut | src/game/red_hat_boy/states/knocked_out.rs:8-12 | once knocked out, further ticks change nothing |
| RedHatBoys.RedHatBoy.constructor | src/game/red_hat_boy.rs:22-36 | a new runner is Idle, built by the idle state's `new`, on the given sheet and image |
| RedHatBoys.RedHatBoy.BoundingBox | src/game/red_hat_boy.rs:38-50 | the collision box is the drawn box inset by the fixed offsets |
| RedHatBoys.RedHatBoy.Jump | src/game/red_hat_boy.rs:67-69 | the machine takes exactly one Jump transition |
| RedHatBoys.RedHatBoy.KnockOut | src/game/red_hat_boy.rs:71-73 | the machine takes exactly one KnockOut transition |
| RedHatBoys.RedHatBoy.LandOn | src/game/red_hat_boy.rs:75-77 | the machine takes exactly one Land transition at the given height |
| RedHatBoys.RedHatBoy.PositionY | src/game/red_hat_boy.rs:79-81 | the runner's height is its context's `position.y` |
| RedHatBoys.RedHatBoy.RunRight | src/game/red_hat_boy.rs:83-85 | the machine takes exactly one Run transition |
| RedHatBoys.RedHatBoy.Slide | src/game/red_hat_boy.rs:87-89 | the machine takes exactly one Slide transition |
| RedHatBoys.RedHatBoy.Update | src/game/red_hat_boy.rs:91-93 | the machine takes exactly one update |
| RedHatBoys.RedHatBoy.VelocityY | src/game/red_hat_boy.rs:95-97 | the vertical velocity is the context's |
| RedHatBoys.RedHatBoy.WalkingSpeed | src/game/red_hat_boy.rs:99-101 | the walking speed is the context's horizontal velocity |
| RedHatBoys.RedHatBoy.DestinationBox | src/game/red_hat_boy.rs:107-115 | the drawn box is the context position shifted by the sprite's source offset, in `i16`, with the sprite's size |
| RedHatBoys.RedHatBoy.FrameName | src/game/red_hat_boy.rs:117-123 | the sprite name is the state's name and the animation frame's sprite number |
| RedHatBoys.RedHatBoy.CurrentSprite | src/game/red_hat_boy.rs:103-105 | the cell the sheet gives for the state's name and the frame's sprite number; a total lookup in place of the `Option` |
| RedHatBoys.DrawnBox | src/game/red_hat_boy.rs:107-115 | the drawn box of a runner in a given state, as a function of the sheet and the state |
| RedHatBoys.SpriteName | src/game/red_hat_boy.rs:117-123 | the name is the state's name, " (", digits reading `frame / 3 + 1`, then ").png" |
| RedHatBoys.SpriteNameIdentifiesGroup | src/game/red_hat_boy.rs:117-123 | two frames of one state show the same sprite exactly when they are in the same group of three |
| RedHatBoys.Inset | src/game/red_hat_boy.rs:38-50 | the collision box is 18 in from the left, 14 down, 28 narrower and 14 shorter than the drawn box, in `i16` |
| RedHatBoys.InsetBottom | src/game/red_hat_boy.rs:46-47 | the collision box keeps the drawn box's bottom edge |
| RedHatBoys.InsetRight | src/game/red_hat_boy.rs:44-45 | the collision box's right edge is 10 in from the drawn box's right edge |
| DogContexts.DogContext.Update | src/game/dog/context.rs:14-24 | the frame counts up and wraps to 0 at `frame_count`; the dog moves 4 to the right in `i16`; height and velocity stay |
| DogContexts.New | src/game/dog/context.rs:10-12 | the context has the given frame and position |
| DogContexts.UpdatesAdvance | src/game/dog/context.rs:14-24 | without wrap-around, `n` ticks move the dog exactly `4n` to the right and leave its height alone |
| DogMachine.DogStateMachine.Transition | src/game/dog/state_machine.rs:74-149 | every (state, event) pair without a row in the table leaves the machine unchanged |
| DogMachine.DogStateMachine.UpdateMachine | src/game/dog/state_machine.rs:151-153 | `update` is the Update transition |
| DogMachine.FromJumping | src/game/dog/states/jumping.rs:37-44 | a landing becomes Running, an ongoing jump Jumping |
| DogMachine.FromJumpingFlee | src/game/dog/states/jumping_flee.rs:42-49 | a landing becomes Fleeing, an ongoing jump JumpingFlee |
| DogMachine.FromJumpingFleeReturn | src/game/dog/states/jumping_flee_return.rs:39-46 | a landing becomes ReturningToFlee, an ongoing jump JumpingFleeReturn |
| DogMachine.FromJumpingReturn | src/game/dog/states/jumping_return.rs:42-49 | a landing becomes Returning, an ongoing jump JumpingReturn |
| DogMachine.FromJumpingWorried | src/game/dog/states/jumping_worried.rs:42-49 | a landing becomes RunningWorried, an ongoing jump JumpingWorried |
| DogMachine.FromJumpingWorriedReturn | src/game/dog/states/jumping_worried_return.rs:42-49 | a landing becomes ReturningWorried, an ongoing jump JumpingWorriedReturn |
| DogMachine.FromReturning | src/game/dog/states/returning.rs:56-63 | a turn becomes Running, a continued return Returning |
| DogMachine.FromReturningToFlee | src/game/dog/states/returning_to_flee.rs:34-41 | a finished return becomes Fleeing, a continued one ReturningToFlee |
| DogMachine.FromReturningWorried | src/game/dog/states/returning_worried.rs:48-55 | a turn becomes RunningWorried, a continued return ReturningWorried |
| DogMachine.FromRunningWorried | src/game/dog/states/running_worried.rs:55-62 | a turn back becomes ReturningWorried, continued running RunningWorried |
| DogMachine.UpdateIsHandled | src/game/dog/state_machine.rs:79-138 | every state handles Update, and the tick ends in one of that state's permitted successors |
| DogMachine.LandEndsJump | src/game/dog/state_machine.rs:87-111 | Land ends each of the six jumps in its own ground state |
| DogMachine.LandIgnoredOnGround | src/game/dog/state_machine.rs:117-147 | Land outside the jumps and ReturningToFlee is ignored |
| DogMachine.AirborneIgnoresCommands | src/game/dog/state_machine.rs:87-147 | a dog in the air ignores Jump, Flee, Worry and OffPlatform |
| DogMachine.FleeAcceptance | src/game/dog/state_machine.rs:113-147 | Flee is accepted only when returning or running; a returning dog then flees from where it is, with no horizontal speed |
| DogMachine.WorryAcceptance | src/game/dog/state_machine.rs:85-147 | Worry is accepted only when fleeing or returning to flee |
| DogMachine.OffPlatformAcceptance | src/game/dog/state_machine.rs:81-147 | OffPlatform is accepted only when fleeing, running or running worried |
| DogMachine.ReturningJump | src/game/dog/state_machine.rs:114-134 | a returning, returning-worried or running-worried dog jumps at JUMP_SPEED into its jumping state, keeping frame and position |
| DogMachine.StateNamesDistinct | src/game/dog/state_machine.rs:57-72 | two states share a name exactly when they are the same variant |
| DogRunning.New | src/game/dog/states/running.rs:12-23 | the dog starts at frame 0 at x = 10, 27 below `game::FLOOR` |
| DogRunning.Update | src/game/dog/states/running.rs:25-29 | the dog keeps running with a 5-frame animation |
| DogFleeing.Update | src/game/dog/states/fleeing.rs:9-13 | the dog keeps fleeing wherever it is, with the RUNNING_FRAMES animation |
| DogJumping.LandOn | src/game/dog/states/jumping.rs:12-19 | the dog runs on from the surface with the animation restarted |
| DogJumping.Update | src/game/dog/states/jumping.rs:21-29 | the jump ends exactly when the ticked dog is at or below DOG_FLOOR, and it then runs on the canvas bottom |
| DogReturning.Flee | src/game/dog/states/returning.rs:11-19 | the dog flees from where it is with its horizontal speed stopped; nothing else changes |
| DogReturning.Jump | src/game/dog/states/returning.rs:21-29 | the dog takes off at JUMP_SPEED; frame and position stay |
| DogReturning.Update | src/game/dog/states/returning.rs:31-39 | the return ends exactly when the ticked dog is left of x = 300, and the dog then turns and runs ahead |
| DogReturning.RunAway | src/game/dog/states/returning.rs:41-48 | the dog turns round, then restarts its animation |
| DogReturningToFlee.Update | src/game/dog/states/returning_to_flee.rs:8-16 | the return ends exactly when the ticked dog is left of x = 300, and the dog then flees |
| DogReturningToFlee.Flee | src/game/dog/states/returning_to_flee.rs:18-26 | the dog stops moving horizontally, without turning or restarting its animation |
| DogReturningWorried.Jump | src/game/dog/states/returning_worried.rs:13-21 | the worried dog takes off at JUMP_SPEED; frame and position stay |
| DogReturningWorried.Update | src/game/dog/states/returning_worried.rs:23-31 | the return ends exactly when the ticked dog is left of x = 50, and the dog then turns and runs ahead, still worried |
| DogReturningWorried.RunAway | src/game/dog/states/returning_worried.rs:33-40 | the dog turns round, then restarts its animation |
| DogRunningWorried.Jump | src/game/dog/states/running_worried.rs:11-19 | the worried dog takes off at JUMP_SPEED; frame and position stay |
| DogRunningWorried.LandOn | src/game/dog/states/running_worried.rs:21-26 | the dog keeps running, worried, on the surface |
| DogRunningWorried.Update | src/game/dog/states/running_worried.rs:27-35 | the run ends exactly when the ticked dog is right of x = 1000, and the dog then turns back |
| DogRunningWorried.ReturnToBoy | src/game/dog/states/running_worried.rs:37-47 | the dog turns round without restarting its animation |
| DogJumpingFlee.LandOn | src/game/dog/states/jumping_flee.rs:8-15 | the dog flees on the platform with the animation restarted and its floor set to the platform |
| DogJumpingFlee.Update | src/game/dog/states/jumping_flee.rs:17-25 | the jump ends exactly when the ticked dog is falling and at its floor |
| DogJumpingFlee.Land | src/game/dog/states/jumping_flee.rs:27-34 | the dog flees on with the animation restarted; the floor stays |
| DogJumpingFleeReturn.LandOn | src/game/dog/states/jumping_flee_return.rs:14-21 | the dog returns to flee from the surface with the animation restarted |
| DogJumpingFleeReturn.Update | src/game/dog/states/jumping_flee_return.rs:23-31 | the jump ends exactly when the ticked dog is at or below DOG_FLOOR, landing on the canvas bottom |
| DogJumpingReturn.LandOn | src/game/dog/states/jumping_return.rs:8-15 | the dog returns on the platform with the animation restarted and its floor set to the platform |
| DogJumpingReturn.Update | src/game/dog/states/jumping_return.rs:17-25 | the jump ends exactly when the ticked dog is falling and at its floor |
| DogJumpingReturn.Land | src/game/dog/states/jumping_return.rs:27-34 | the dog returns with the animation restarted; the floor stays |
| DogJumpingWorried.LandOn | src/game/dog/states/jumping_worried.rs:8-15 | the worried dog runs on the platform with the animation restarted and its floor set to the platform |
| DogJumpingWorried.Update | src/game/dog/states/jumping_worried.rs:17-25 | the jump ends exactly when the ticked dog is falling and at its floor |
| DogJumpingWorried.Land | src/game/dog/states/jumping_worried.rs:27-34 | the dog runs on with the animation restarted; the floor stays |
| DogJumpingWorriedReturn.LandOn | src/game/dog/states/jumping_worried_return.rs:8-15 | the worried dog returns on the platform with the animation restarted and its floor set to the platform |
| DogJumpingWorriedReturn.Update | src/game/dog/states/jumping_worried_return.rs:17-25 | the jump ends exactly when the ticked dog is falling and at its floor |
| DogJumpingWorriedReturn.Land | src/game/dog/states/jumping_worried_return.rs:27-34 | the dog returns with the animation restarted; the floor stays |
| Dogs.Dog.constructor | src/game/dog.rs:22-28 | a new dog is Running, built by the running state's `new`, on the given sheet and image |
| Dogs.Dog.Flee | src/game/dog.rs:30-32 | the machine takes exactly one Flee transition |
| Dogs.Dog.LandOn | src/game/dog.rs:40-42 | the machine takes exactly one Land transition at the given height |
| Dogs.Dog.Navigate | src/game/dog.rs:44-58 | the machine moves as NavigateResult says from its state and box before the call |
| Dogs.Dog.Reset | src/game/dog.rs:60-62 | the dog is back in the Running state a new dog starts in |
| Dogs.Dog.Worry | src/game/dog.rs:64-66 | the machine takes exactly one Worry transition |
| Dogs.Dog.BoundingBox | src/game/dog.rs:68-71 | the collision box is the drawn box, with no inset |
| Dogs.Dog.Update | src/game/dog.rs:88-90 | the machine takes exactly one Update transition |
| Dogs.Dog.DestinationBox | src/game/dog.rs:100-108 | the drawn box is the context position shifted by the sprite's source offset, in `i16`, with the sprite's size |
| Dogs.Dog.FrameName | src/game/dog.rs:110-113 | the sprite name is the one for the context's animation frame |
| Dogs.Dog.CurrentSprite | src/game/dog.rs:92-98 | the cell the sheet gives for the sprite name of the context's frame; the missing-frame panic is not modelled |
| Dogs.NavigateResult | src/game/dog.rs:44-58 | a jumping dog that is not falling below the surface stays as it is; a grounded dog at DOG_FLOOR jumps; in every case the result is the old state, one Jump or one Land |
| Dogs.NavigateWhileJumping | src/game/dog.rs:45-51 | a jumping dog lands, running, exactly when it falls with its bottom below the surface, and otherwise stays as it is |
| Dogs.SpriteName | src/game/dog.rs:110-113 | the name is "rr_", then exactly three digits reading `frame / 3`, then ".png" |
| Dogs.SpriteNameIdentifiesGroup | src/game/dog.rs:110-113 | two frames show the same sprite exactly when they are in the same group of three |
| ObstacleMarks.ObstacleMark.Mark | src/game/obstacles/obstacle_mark.rs:47-49 | the trigger is at the mark's position, 1 wide, and reaches down to HEIGHT (600) |
| ObstacleMarks.ObstacleMark.NavigationEvents | src/game/obstacles/obstacle_mark.rs:75-85 | nothing is published exactly when "on the mark" agrees with `has_dog`; arriving publishes one DogHitMark, leaving one DogOffMark, both with the mark's id |
| ObstacleMarks.ObstacleMark.Navigate | src/game/obstacles/obstacle_mark.rs:68-86 | the edge events for a dog that is relevant (a Left mark for a dog moving right, a Right mark for one moving left) and intersects the trigger are appended to the queue |
| ObstacleMarks.ObstacleMark.ProcessEvent | src/game/obstacles/obstacle_mark.rs:88-100 | only this mark's own DogHitMark sets and DogOffMark clears `has_dog`; every other event leaves the mark unchanged |
| ObstacleMarks.ObstacleMark.MoveHorizontally | src/game/obstacles/obstacle_mark.rs:64-66 | only `position.x` moves, by the distance in `i16` |
| ObstacleMarks.ObstacleMark.Right | src/game/obstacles/obstacle_mark.rs:102-104 | the right edge is `x + 1`, the trigger's right edge |
| ObstacleMarks.New | src/game/obstacles/obstacle_mark.rs:27-45 | the id is `<obstacle id>_lm` or `_rm` by direction, and a new mark has not seen the dog |
| ObstacleMarks.MarkIdsDistinct | src/game/obstacles/obstacle_mark.rs:33-39 | marks of different obstacles, or on different sides, have different ids |
| ObstacleMarks.Handshake | src/game/obstacles/obstacle_mark.rs:68-100 | once what `navigate` published is delivered back, `has_dog` agrees with the dog, so the next tick in the same situation publishes nothing |
| ObstacleMarks.RunFollowsDog | src/game/obstacles/obstacle_mark.rs:68-100 | over a run of ticks the mark changes only `has_dog`, which ends equal to the dog's latest presence |
| ObstacleMarks.PublishesEdges | src/game/obstacles/obstacle_mark.rs:68-100 | over a run the mark publishes exactly one DogHitMark per arrival and one DogOffMark per departure of the dog |
| ObstacleMarks.OneHitPerVisit | src/game/obstacles/obstacle_mark.rs:75-79 | a dog staying on a fresh mark for `n > 0` ticks is announced exactly once |
| ObstacleMarks.StayingEdges | src/game/obstacles/obstacle_mark.rs:75-85 | a signal that rises once and stays up has exactly one rising edge |
| ObstacleMarks.ProcessAllAppend | src/game/obstacles/obstacle_mark.rs:88-100 | handing over two batches in turn is handing over their concatenation |
| ObstacleMarks.IgnoresOthers | src/game/obstacles/obstacle_mark.rs:98 | events for other marks, and other kinds of event, leave the mark as it is |
| ObstacleMarks.SettlesAmongOthers | src/game/obstacles/obstacle_mark.rs:68-100 | delivered inside a shared queue among events for others, the mark's own output still makes `has_dog` agree with the dog |
| Barriers.Barrier.Contact | src/game/obstacles/barrier.rs:31-36 | the stone is hit exactly when the runner is running and its box intersects the stone's image box; otherwise there is no contact |
| Barriers.Barrier.CheckIntersection | src/game/obstacles/barrier.rs:31-36 | a hit knocks the runner out and appends one BoyHitsObstacle to the queue; without a hit neither the runner nor the queue changes |
| Barriers.Barrier.Name | src/game/obstacles/barrier.rs:42-44 | the subscriber name is the barrier's id |
| Barriers.Barrier.MoveHorizontally | src/game/obstacles/barrier.rs:46-48 | the image moves by the distance; id and publisher are kept |
| Barriers.Barrier.Right | src/game/obstacles/barrier.rs:52-54 | the right edge is the image box's right edge |
| Barriers.Barrier.MarkLeft | src/game/obstacles/barrier.rs:58-68 | the left mark sits 20 pixels left of the stone at its top, points Left, is named `<id>_lm` and has not seen the dog |
| Barriers.Barrier.MarkRight | src/game/obstacles/barrier.rs:70-82 | the right mark sits 20 pixels past the stone's right edge and 200 pixels higher, points Right, is named `<id>_rm` |
| Barriers.MarksFlankTheStone | src/game/obstacles/barrier.rs:58-82 | without overflow, the left mark lies wholly left of the stone, the right mark right of it, and their ids differ |
| Platforms.Platform.Contact | src/game/obstacles/platform.rs:90-102 | no contact iff no box is hit; a landing iff a box is hit while the runner falls (`velocity_y > 0`) from above the platform's top, and then on the first hit box's top; every other contact is a hit |
| Platforms.Platform.CheckIntersection | src/game/obstacles/platform.rs:90-102 | a landing applies `land_on`; a hit knocks out and appends one BoyHitsObstacle; no contact changes nothing |
| Platforms.Platform.Shifted | src/game/obstacles/platform.rs:133-138 | position and every box move by the distance in `i16`, the number of boxes and all other fields are kept |
| Platforms.Platform.MoveHorizontally | src/game/obstacles/platform.rs:133-138 | moving the platform is the box-by-box shift |
| Platforms.Platform.NavigationEvents | src/game/obstacles/platform.rs:142-156 | nothing is published iff "on the platform" equals `has_dog`; an arrival publishes DogLandedOnPlatform with the id and the platform's top, a departure DogExitsPlatform |
| Platforms.Platform.Navigate | src/game/obstacles/platform.rs:142-156 | the queue grows by exactly the navigation events for the dog's box |
| Platforms.Platform.ProcessEvent | src/game/obstacles/platform.rs:158-170 | any DogExitsPlatform clears `has_dog`; a DogLandedOnPlatform with this id sets it; everything else leaves the platform unchanged |
| Platforms.Platform.Right | src/game/obstacles/platform.rs:172-177 | the right edge of the last box, or of `Rect::default` when there is none |
| Platforms.Platform.MarkLeft | src/game/obstacles/platform.rs:181-191 | the left mark stands MARK_OFFSET (80) left of the platform at its height, points Left |
| Platforms.Platform.MarkRight | src/game/obstacles/platform.rs:193-203 | the right mark stands MARK_OFFSET past the platform's right edge at its height, points Right |
| Platforms.Translate | src/game/obstacles/platform.rs:47-50 | a template box is offset by the platform's position in `i16`, its size kept |
| Platforms.New | src/game/obstacles/platform.rs:35-61 | one translated box per template box, in order; `has_dog` starts false; id, position and publisher as given |
| Platforms.FirstHit | src/game/obstacles/platform.rs:91-95 | the result is the least index of an intersected box, and none exactly when no box is intersected |
| Platforms.FirstHitIffTouching | src/game/obstacles/platform.rs:67-71 | the `find` of check_intersection succeeds exactly when the `any` of on_platform holds |
| Platforms.ShiftKeepsLayout | src/game/obstacles/platform.rs:133-138 | a move keeps every box's offset from the platform's position |
| Platforms.ShiftThereAndBack | src/game/obstacles/platform.rs:133-138 | moving by d and then by -d restores the platform |
| Platforms.Handshake | src/game/obstacles/platform.rs:142-170 | delivering what navigate published makes `has_dog` agree with the dog, after which the same situation publishes nothing |
| Obstacles.Obstacle.Contact | src/game/obstacles.rs:9-15 | the contact the obstacle behind the trait makes: a mark never touches the runner, a barrier never lets it land |
| Obstacles.Obstacle.CheckIntersection | src/game/obstacles.rs:10 | dispatches to the variant's check_intersection: the runner gets the contact's transition and the queue gets BoyHitsObstacle exactly on a hit |
| Obstacles.Obstacle.Shifted | src/game/obstacles.rs:12 | each variant moves by its own move_horizontally; id and publisher are kept |
| Obstacles.Obstacle.MoveHorizontally | src/game/obstacles.rs:12 | moving through the trait is the variant's shift |
| Obstacles.Obstacle.NavigationEvents | src/game/obstacles.rs:13 | a barrier publishes nothing; any obstacle publishes at most one event per navigate |
| Obstacles.Obstacle.Navigate | src/game/obstacles.rs:13 | the queue grows by exactly the variant's navigation events |
| Obstacles.Obstacle.ProcessEvent | src/game/obstacles.rs:9 | a barrier ignores every event; no event changes an obstacle's id, publisher or right edge |
| Obstacles.ProcessAllMark | src/game/obstacles.rs:9 | a batch handed to a mark through the trait is the same batch handed to the mark |
| Obstacles.Handshake | src/game/obstacles.rs:9-15 | once an obstacle's own navigate output is delivered back to it, the same dog makes it publish nothing more |
| Obstacles.NavigationAddressesOnlyItself | src/game/obstacles.rs:13 | nothing an obstacle publishes addresses a mark with another id |
| Obstacles.Rightmost | src/game/walk.rs:195-201 | the largest right edge in the list (attained by some obstacle), or 0 for an empty list |
| Obstacles.MaxOr0 | src/game/walk.rs:199-200 | `max_by(cmp).unwrap_or(0)`: 0 for an empty list, otherwise an element of the list that no element exceeds |
| Obstacles.MaxIndex | src/game/walk.rs:199 | `max_by` picks a position whose element no element of the list exceeds |
| LegacyBarriers.Barrier.WithLeftMark | src/game/barrier.rs:34-38 | the barrier gains its left mark and nothing else changes |
| LegacyBarriers.Barrier.WithRightMark | src/game/barrier.rs:40-44 | the barrier gains its right mark and nothing else changes |
| LegacyBarriers.Barrier.MarkLeft | src/game/barrier.rs:56-65 | a one-pixel strip 20 pixels left of the stone, as tall as the stone |
| LegacyBarriers.Barrier.MarkRight | src/game/barrier.rs:67-76 | a one-pixel strip 20 pixels past the stone's right edge, 50 pixels tall |
| LegacyBarriers.Barrier.OnLeftMark | src/game/barrier.rs:78-84 | the dog can be on the left mark only when the barrier has one and the dog heads right |
| LegacyBarriers.Barrier.OnRightMark | src/game/barrier.rs:86-92 | the dog can be on the right mark only when the barrier has one and the dog heads left |
| LegacyBarriers.Barrier.Contact | src/game/barrier.rs:96-101 | a hit exactly when the boxes intersect, whatever the runner's state; otherwise no contact |
| LegacyBarriers.Barrier.CheckIntersection | src/game/barrier.rs:96-101 | a hit knocks out and appends BoyHitsObstacle; otherwise nothing changes |
| LegacyBarriers.Barrier.MoveHorizontally | src/game/barrier.rs:108-110 | only the image moves, by the distance |
| LegacyBarriers.Barrier.NavigationEvents | src/game/barrier.rs:112-124 | nothing iff "on a mark" equals `dog_on_mark`; arriving publishes DogHitMark, leaving DogOffMark, with the barrier's id |
| LegacyBarriers.Barrier.Navigate | src/game/barrier.rs:112-124 | the queue grows by the navigation events for "on the left mark or on the right mark" |
| LegacyBarriers.Barrier.ProcessEvent | src/game/barrier.rs:126-138 | only this barrier's own DogHitMark sets and DogOffMark clears `dog_on_mark`; any other event changes nothing |
| LegacyBarriers.Barrier.Right | src/game/barrier.rs:140-142 | the image box's right edge |
| LegacyBarriers.New | src/game/barrier.rs:23-32 | a new barrier has no marks and has not seen the dog |
| LegacyBarriers.UnmarkedIsSilent | src/game/barrier.rs:78-124 | a barrier without marks, built by new, publishes nothing whatever the dog does |
| LegacyBarriers.Handshake | src/game/barrier.rs:112-138 | delivering navigate's output back makes `dog_on_mark` agree with the dog, after which it publishes nothing |
| LegacyPlatforms.Platform.DestinationBox | src/game/platform.rs:45-53 | the drawn box is at the position, three "13.png" cells wide (width in `i16`) and one tall |
| LegacyPlatforms.Platform.BoundingBoxes | src/game/platform.rs:24-43 | the collision boxes are the split of the drawn box |
| LegacyPlatforms.Platform.Contact | src/game/platform.rs:57-69 | as for the newer platform: no contact iff no box is hit, a landing on the first hit box's top iff falling from above, a hit otherwise |
| LegacyPlatforms.Platform.CheckIntersection | src/game/platform.rs:57-69 | the runner gets the contact's transition; this platform publishes nothing |
| LegacyPlatforms.Platform.MoveHorizontally | src/game/platform.rs:93-95 | only `position.x` moves, by the distance in `i16` |
| LegacyPlatforms.SplitBoxes | src/game/platform.rs:24-43 | three boxes: a low one X_OFFSET (60) wide at the left, a full-height middle one, a low one X_OFFSET wide at the right; END_HEIGHT is 54 |
| LegacyPlatforms.BoxesTile | src/game/platform.rs:24-43 | the three boxes tile the drawn box: each ends where the next begins and the last ends at the drawn box's right edge |
| LegacyPlatforms.BoxesFollowPosition | src/game/platform.rs:24-95 | moving the platform moves each collision box's left edge by the distance and keeps its top and width |
| Segments.LayoutWellFormed | src/game/segments.rs:84-161 | every obstacle of a segment is named with an empty, "_lm" or "_rm" suffix, and no kind-and-suffix pair repeats within a segment |
| Segments.FloatingPlatform | src/game/segments.rs:65-74 | the platform is named "p" and the counter, stands at the given position, publishes on the factory's publisher, has three boxes and has not seen the dog |
| Segments.Stone | src/game/segments.rs:76-82 | the stone is named "b" and the counter and its image stands at the given point |
| Segments.PlatformAndStone | src/game/segments.rs:84-100 | segment 0: left mark, high platform 200 past the offset, stone on the ground 350 past it, right mark, in that order, the marks being the platform's own |
| Segments.PlatformHigh | src/game/segments.rs:102-109 | segment 1: one high platform 200 past the offset |
| Segments.PlatformLow | src/game/segments.rs:111-118 | segment 2: one low platform 200 past the offset |
| Segments.StoneSegment | src/game/segments.rs:120-131 | segment 3: a ground stone 150 past the offset between its own left and right marks |
| Segments.StoneAndPlatform | src/game/segments.rs:133-151 | segment 4: a ground stone 130 past the offset between its marks, then a low platform FIRST_PLATFORM (240) past the offset and that platform's right mark |
| Segments.StoneOnPlatform | src/game/segments.rs:153-161 | segment 5: a stone at STONE_ON_PLATFORM 390 past the offset, then a high platform 200 past it |
| Segments.Segment | src/game/segments.rs:166-175 | segments 0..5 are built as listed, with the ids their layout names; any other number gives the empty segment |
| Segments.SegmentFactory.constructor | src/game/segments.rs:31-42 | a new factory starts its counter at 0 |
| Segments.SegmentFactory.Select | src/game/segments.rs:163-176 | the counter goes up by one before the segment is built with the new counter |
| Segments.SegmentFactory.First | src/game/segments.rs:44-52 | with REPEAT negative the opening segment is segment 4 at offset 0, five obstacles |
| Segments.SegmentFactory.Random | src/game/segments.rs:54-63 | a draw from 0..6 picks the segment at the given offset, which is never empty |
| Segments.KeyInjective | src/game/segments.rs:67-78 | an id determines its kind letter, counter and suffix |
| Segments.DigitsThenSuffix | src/game/segments.rs:67-78 | a digit run followed by a suffix splits in one way only |
| Segments.DigitRun | src/game/segments.rs:67 | the count of leading digits is within the string, and the prefix it marks is all digits |
| Segments.DigitRunOf | src/game/segments.rs:67 | the digit run of a counter followed by a suffix is exactly the counter's digits |
| Segments.SegmentIdsDistinct | src/game/segments.rs:84-175 | the obstacles of one segment have pairwise different ids |
| Segments.SegmentsDisjoint | src/game/segments.rs:163-175 | segments built under different counters share no id |
| Segments.CounterOfKey | src/game/segments.rs:67-78 | the counter read back from an id is the one it was built with |
| Segments.SegmentCounters | src/game/segments.rs:163-175 | every obstacle of a segment carries that segment's counter |
| Walks.DeliverTo | src/game/walk.rs:203-223 | handing an event to one subscriber (the dog, or an obstacle through its cell) never changes any obstacle's id or publisher |
| Walks.Deliver | src/game/walk.rs:188-190 | handing one event to every subscriber keeps every obstacle's id and publisher |
| Walks.DeliverAll | src/game/walk.rs:186-192 | handing a batch of events to every subscriber keeps every obstacle's id and publisher |
| Walks.Surviving | src/game/walk.rs:130-131 | an index survives exactly when it was live and its obstacle's right edge is past 0; the list never grows |
| Walks.KeptSubscribers | src/game/walk.rs:132-133 | a subscriber is kept exactly when it was subscribed and its name is not a dropped id |
| Walks.SubscribersFrom | src/game/walk.rs:53-58 | one obstacle subscriber per new obstacle, in order |
| Walks.Range | src/game/walk.rs:157 | the new obstacles join the live list as consecutive cells in order |
| Walks.Walk.constructor | src/game/walk.rs:33-83 | the factory's opening segment with counter 1, all live; the dog subscribed first and then every opening obstacle in order; the timeline at their right end; two background tiles side by side; the walk is well shaped and every live obstacle subscribed once |
| Walks.Walk.ResetAsWritten | src/game/walk.rs:85-108 | the factory always moves on; the program panics exactly when the dog still has a subscriber; otherwise the runner's machine takes its reset value, the dog runs afresh from its starting point, the new obstacles replace the old, and no new obstacle has a subscriber |
| Walks.Walk.RebuildAsWritten | src/game/walk.rs:96-107 | the walk reset returns: runner reset, dog running anew, the opening obstacles live, the timeline at their right end, and none of them subscribed |
| Walks.Walk.Reset | src/game/walk.rs:85-108 | corrected reset: as written, but with the dog taken back and the subscribers rebuilt as new builds them, so every live obstacle is subscribed once |
| Walks.Walk.Rebuild | src/game/walk.rs:96-107 | the walk the corrected reset returns: the dog subscribed first, then one subscriber per new obstacle |
| Walks.Walk.DropSurpassedObstacles | src/game/walk.rs:123-141 | the live list keeps, in order, the obstacles whose right edge is past 0; subscribers named after a dropped obstacle go; the walk keeps its shape and every survivor its one subscriber |
| Walks.Walk.GenerateNextSegment | src/game/walk.rs:143-164 | a segment drawn at OBSTACLE_BUFFER (20) past the timeline in `i16`, built with the next counter, is appended to the live list and subscribed after the old subscribers; the timeline moves to its right end; the shape is kept |
| Walks.Walk.AppendObstacles | src/game/walk.rs:149-157 | the new obstacles are subscribed and appended after the old ones, keeping the shape |
| Walks.Walk.Velocity | src/game/walk.rs:176-178 | the scroll speed is the negated walking speed, with `i16` negation leaving -32768 unchanged |
| Walks.Walk.KnockedOut | src/game/walk.rs:166-168 | the walk is knocked out exactly when its runner's state machine is |
| Walks.Walk.Update | src/game/walk.rs:170-174 | queued events are delivered, then the dog takes its update, then the queue holds exactly what the live obstacles publish while navigating against the moved dog |
| Walks.Walk.NavigateObstacles | src/game/walk.rs:180-184 | the queue grows by what each live obstacle's navigate publishes, in list order |
| Walks.Walk.ProcessEvents | src/game/walk.rs:186-192 | the events queued on entry are each handed to every subscriber in list order, and the queue ends empty |
| Walks.Walk.Broadcast | src/game/walk.rs:188-190 | one event is handed to every subscriber in list order |
| Walks.NavigateEach | src/game/walk.rs:181-183 | the loop appends each live obstacle's navigation events in list order |
| Walks.CollectDropped | src/game/walk.rs:124-129 | the loop collects exactly the ids of live obstacles whose right edge is at or before 0 |
| Walks.Retain | src/game/walk.rs:130-131 | the loop keeps exactly the surviving live obstacles, in order |
| Walks.RetainSubscribers | src/game/walk.rs:132-133 | the loop keeps exactly the subscribers whose name was not dropped, in order |
| Walks.AppendSubscribers | src/game/walk.rs:149-154 | the loop appends one subscriber per new obstacle, in order |
| Walks.Opening | src/game/walk.rs:42-82 | what new builds has the walk's shape and subscribes each opening obstacle once |
| Walks.ReplaceKeepingSubscribers | src/game/walk.rs:96-107 | the as-written reset keeps the shape, but none of the new live obstacles has a subscriber |
| Walks.Recount | src/game/segments.rs:164 | a factory counter that moves on keeps the walk's shape |
| Walks.Replace | src/game/walk.rs:85-108 | the corrected reset keeps the shape and subscribes every new obstacle once |
| Walks.Extend | src/game/walk.rs:143-164 | generating a segment keeps the shape and keeps every live obstacle subscribed once |
| Walks.Drop | src/game/walk.rs:123-141 | dropping keeps the shape and every survivor subscribed once |
| Walks.Delivered | src/game/walk.rs:186-192 | delivering events keeps the walk's shape |
| Walks.FreshCells | src/game/segments.rs:163-175 | a lone segment publishes on one queue, carries its counter on every id and repeats no id |
| Walks.OpeningTiled | src/game/walk.rs:63-72 | the second opening background starts where the first ends |
| Walks.AppendSegment | src/game/walk.rs:143-157 | appending a segment built with the next counter keeps every id unique across all obstacles, old and new |
| Walks.RangeIndexed | src/game/walk.rs:78 | a fresh range names only cells that exist |
| Walks.IndexedAppend | src/game/walk.rs:157 | appending new indices keeps every live index naming a cell |
| Walks.FreshSubscriptions | src/game/walk.rs:47-58 | the subscribers new builds subscribe each new obstacle exactly once |
| Walks.ExtendSubscriptions | src/game/walk.rs:149-157 | subscribing a new segment keeps older obstacles subscribed once and subscribes each new one once |
| Walks.DropKeepsSubscriptions | src/game/walk.rs:123-133 | after a drop the survivors stay in order, the kept subscribers name cells, and each survivor keeps its one subscriber |
| Walks.SubscribersCount | src/game/walk.rs:149-154 | the cells from the base on are subscribed once each, no other cell and not the dog |
| Walks.SurvivorNotDropped | src/game/walk.rs:124-133 | a surviving obstacle's id is not among the dropped ones, because ids are unique |
| Walks.KeptCount | src/game/walk.rs:132-133 | filtering by name keeps every copy of a subscriber whose name is not dropped |
| Walks.NewThenResetPanics | src/game/walk.rs:48-94 | a walk straight from new, reset as written, panics |
| WalkDelivery.DeliverUntouched | src/game/walk.rs:186-192 | an obstacle with no subscriber is left as it is by one delivery round |
| WalkDelivery.DeliverOnce | src/game/walk.rs:186-223 | an obstacle subscribed exactly once handles each event exactly once |
| WalkDelivery.DeliverDogOnce | src/game/walk.rs:186-212 | the dog, subscribed exactly once, handles each event exactly once |
| WalkDelivery.DogUntouched | src/game/walk.rs:186-192 | without a dog subscriber the dog never sees an event |
| WalkDelivery.DeliverAllOnce | src/game/walk.rs:186-192 | an obstacle subscribed once sees the whole batch once, in queue order, as if handed it alone |
| WalkDelivery.DeliverAllDogOnce | src/game/walk.rs:186-192 | the dog, subscribed once, sees the whole batch once, in queue order |
| WalkDelivery.DeliverAllUntouched | src/game/walk.rs:186-192 | an obstacle without a subscriber is never updated, whatever the batch |
| WalkDelivery.NavigationAppend | src/game/walk.rs:180-184 | navigating two lists one after the other publishes the first list's events and then the second's |
| WalkDelivery.NavigationOthers | src/game/walk.rs:180-184 | with unique ids, obstacles other than a given one publish nothing addressed to it |
| WalkDelivery.NavigationAround | src/game/walk.rs:180-184 | a live obstacle's own events sit between events none of which is addressed to it |
| WalkDelivery.MarkSettles | src/game/walk.rs:170-192 | once what every live obstacle published for a dog is delivered to all subscribers, a live, once-subscribed mark agrees with the dog and publishes nothing more for it |
| WalkDelivery.SettlesOn | src/game/obstacles/obstacle_mark.rs:68-100 | a mark handed its own navigate output among events for others then publishes nothing for the same dog |
| WalkDelivery.TakesOwnEvents | src/game/obstacles/obstacle_mark.rs:88-100 | among events for others, a mark's own events leave it agreeing with the dog |
| WalkDelivery.Quiet | src/game/obstacles/obstacle_mark.rs:68-86 | a mark that agrees with the dog publishes nothing |
| WalkDelivery.SurvivingAppend | src/game/walk.rs:130-131 | retaining over two lists one after the other keeps each list's survivors, in order |
| WalkDelivery.SurvivingIdempotent | src/game/walk.rs:130-131 | dropping surpassed obstacles a second time drops nothing more |
| WalkingState.ScrollAll | src/game/game_states/walking.rs:32-35 | the live obstacles, in list order, each move and check the runner; obstacles keep their ids and publishers and the queue only gains BoyHitsObstacle events after what it held |
| WalkingState.Moved | src/game/game_states/walking.rs:30-35 | an index stays live exactly when it was live and its obstacle's right edge is past 0; ids and publishers are kept; the queue only gains hit events; timeline, counter and subscribers are untouched |
| WalkingState.Update | src/game/game_states/walking.rs:9-44 | the runner takes Space (jump), then ArrowDown (slide), then its update; the scene then scrolls at the negated walking speed: backgrounds, obstacles and timeline, a new segment drawn by `choice` when the timeline was below TIMELINE_MINIMUM (1000); the walk keeps its shape and subscriptions |
| WalkingState.Steer | src/game/game_states/walking.rs:10-17 | the runner's machine is jumped if Space, slid if ArrowDown, then updated |
| WalkingState.Scroll | src/game/game_states/walking.rs:18-41 | everything in a tick after the runner's, from the old state at the given speed |
| WalkingState.Advance | src/game/game_states/walking.rs:30-41 | the obstacles and timeline become the moved-then-extended track |
| WalkingState.Move | src/game/game_states/walking.rs:30-35 | the live list keeps the survivors, each of which moves and checks the runner in order |
| WalkingState.MovedFrom | src/game/game_states/walking.rs:30-35 | the moved track is the scrolled scene over the survivors |
| WalkingState.ScrollBackgrounds | src/game/game_states/walking.rs:20-28 | both tiles move by the speed; a tile past the left edge is put where the other ends, the first tile first |
| WalkingState.RetainObstacles | src/game/game_states/walking.rs:30 | the live list keeps the survivors and the subscribers stay as they are |
| WalkingState.ScrollObstacles | src/game/game_states/walking.rs:32-35 | each live obstacle moves and then checks the runner, in list order |
| WalkingState.ScrollEach | src/game/game_states/walking.rs:32-35 | the loop computes the scroll of the live obstacles, in list order |
| WalkingState.AdvanceTimeline | src/game/game_states/walking.rs:37-41 | below TIMELINE_MINIMUM a segment is generated, otherwise the timeline moves by the speed in `i16` |
| WalkingState.ScrollAllShifts | src/game/game_states/walking.rs:32-35 | with no repeats in the live list, every listed obstacle moves exactly once and every other cell stays as it was |
| WalkingState.SurvivingDistinct | src/game/game_states/walking.rs:30 | retain keeps the live list free of repeats |
| WalkingState.TickShiftsSurvivors | src/game/game_states/walking.rs:30-35 | a tick moves each surviving obstacle by the speed exactly once and leaves dropped obstacles where they were |
| WalkingState.ExtendedDistinct | src/game/game_states/walking.rs:37-41 | extending keeps the live list free of repeats and naming cells |
| WalkingState.AdvancedDistinct | src/game/game_states/walking.rs:30-41 | a whole tick keeps the live list free of repeats and naming cells |
| WalkingState.AdvancedTimeline | src/game/game_states/walking.rs:37-41 | the factory counter moves on exactly when the timeline was below the minimum; then the course grows by the new live segment and the timeline is its right end; otherwise the course keeps its length and the timeline moves by the speed |
| WalkingState.ScrollKeepsTiling | src/game/game_states/walking.rs:20-28 | scrolling keeps the two backgrounds side by side, whatever the speed |
| WalkingState.MovedTogether | src/game/game_states/walking.rs:21-22 | two adjacent tiles moved by the same distance stay adjacent |
| WalkingState.RightEdge | src/engine/image.rs:34-36 | an image's right edge is its left edge plus its width in `i16` |
| WalkingState.ShiftsCommute | src/game/game_states/walking.rs:21-27 | moving then adding the width equals adding the width then moving, in `i16` |
| WalkingState.Retiled | src/game/game_states/walking.rs:20-28 | new tiles side by side keep the walk's shape |
| WalkingState.Narrowed | src/game/game_states/walking.rs:30 | narrowing the live list to the survivors keeps the shape and each survivor's one subscriber |
| ReadyState.Update | src/game/game_states/ready.rs:14-23 | the runner and the dog each take their update; ArrowRight, and only it, completes with the runner told to run right; nothing else in the walk changes |
| ReadyState.StartRunning | src/game/game_states/ready.rs:25-36 | one run_right on the runner, and the walk moves on to Walking |
| GameOverState.Update | src/game/game_states/game_over.rs:16-22 | without the new-game signal nothing changes; with it the walk restarts (corrected reset) and the state completes; the walk stays well shaped |
| GameOverState.NewGame | src/game/game_states/game_over.rs:24-31 | the walk restarts: only the opening segment is live, the dog and each of its obstacles are subscribed, the runner is reset and the dog runs again |
| GameStates.NextPhase | src/game/game_states.rs:26-32 | only Ready with ArrowRight and GameOver with the signal change state; GameOver is entered from nowhere but itself |
| GameStates.GameOverUnreachable | src/game/game_states.rs:26-32 | no run of ticks from Ready or Walking ever reaches GameOver |
| GameStates.WalkingForever | src/game/game_states/walking.rs:9-44 | once Walking, every later tick is Walking |
| GameStates.Update | src/game/game_states.rs:26-32 | GameOver ignores the keys, Ready and Walking take them; the resulting state is the one NextPhase gives, over the same walk, which stays well shaped, subscribed once per live obstacle and free of repeats |
| GameStates.WalkOn | src/game/game_states/walking.rs:9-44 | a Walking tick keeps the walk playable |
| GameStates.RangeDistinct | src/game/walk.rs:78 | consecutive cell indices are pairwise different |
| GameStates.FromReady | src/game/game_states/ready.rs:44-51 | a completed Ready state becomes Walking, a continuing one stays Ready, over the same walk |
| GameStates.FromGameOver | src/game/game_states/game_over.rs:39-46 | a completed GameOver state becomes Ready, a continuing one stays GameOver, over the same walk |

## Left out

- Rendering is not modelled: every `draw`, `Dog::info`, `Platform::hit_info` and the frame-rate display. They only draw or format strings.
- The browser and audio plumbing is not modelled: src/browser.rs, src/engine.rs with its `f64` game loop, src/engine/renderer.rs, src/engine/audio.rs, the `play_*_sfx` sounds and the `log!`/`error!` macros. The sound methods are modelled as returning the context unchanged.
- Asset loading in src/game.rs and the JSON decoding of src/engine/sheet.rs and src/engine/sprite_sheet.rs are not modelled. A sprite sheet is a total map from frame name to cell, so a missing frame (the `expect("13.png does not exist")` panic, or a `sheet.cell` lookup that `filter_map` drops) never happens in the model.
- `input::prepare_input` (browser closures and the channel they feed) is not modelled. The channel is a class holding the pending key events and a closed flag, and `process_input` drains it.
- `Walks.Walk.Reset`: `Rc`/`RefCell` sharing is modelled by an arena of cells and index lists, so the runtime `Rc::try_unwrap` check becomes a test on the subscriber list. The as-written reset reports the panic as an output instead of aborting.
- `Walks.Walk.ProcessEvents`: a subscriber's `process_event` cannot publish in the model. In the source the queue stays mutably borrowed while events are delivered (src/game/walk.rs:187), so publishing there would fail at runtime. No shown handler publishes.
- `Segments.SegmentFactory.Random`: the random draw `gen_range(0..6)` is the parameter `choice`, required to be in 0..6, with REPEAT fixed at -1 as in the source.
- `Segments.SegmentFactory.Select`: the factory counter is an unbounded `nat`. The source's `i32` would overflow only after 2^31 segments.
- `GameOverState.Update`: the new-game channel and `browser::hide_ui` are a boolean input `newGame`. The walk is restarted with the corrected reset, because the reset as written panics (see Findings).
- The `i16` overflow panic of a debug build is not modelled. Every `i16` addition, subtraction and negation wraps as in a release build, and `as i16` casts truncate in the same way.
- `RedHatBoys.RedHatBoy.Reset`, `Dogs.Dog.ProcessEvent`, `Dog::name` and the runner's transition dispatcher are not part of this model beyond their declarations. Their contracts only say that the machine is replaced by the declared function's value.
- `GameEvent`: src/game/event_queue.rs lists only `DogTooClose` and `DogTooFar`. The other variants are the ones the obstacles publish and match on: `BoyHitsObstacle`, `DogHitMark`, `DogOffMark`, `DogLandedOnPlatform` and `DogExitsPlatform`.
- `WalkTheDogState<Ready>::new` is the `Ready` constructor of the machine's datatype. It only wraps the walk.
- src/game/obstacle.rs, src/game/obstacles.rs, src/game/dog/states.rs, src/game/red_hat_boy/states.rs and src/game/red_hat_boy_states.rs declare traits and wrappers only. They are folded into the closed `Obstacle` datatype and the state datatypes.

## Findings

| source | as written | input that shows it | evidently intended | confidence | as-written member | corrected member |
|---|---|---|---|---|---|---|
| src/game/walk.rs:85-108 | `reset` takes the dog back with `Rc::try_unwrap`, but the `DogSubscriber` that `new` registers (walk.rs:48-52) still holds a clone of the dog, so the unwrap always fails and the program panics. Even without the panic, the old subscriber list is kept, so the new obstacles get no subscriber and never hear their own events. | any walk built by `Walk::new`, then `Walk::reset` on it (the new-game path from GameOver) | reset reclaims the dog and rebuilds the subscribers as `new` does: the dog first, then one per new obstacle | not executed | Walks.Walk.ResetAsWritten, Walks.NewThenResetPanics | Walks.Walk.Reset |
