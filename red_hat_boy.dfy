/** The runner as the game holds it (src/game/red_hat_boy.rs): a sprite sheet and the
    current state of the runner's machine, which every command replaces by one
    transition. */
module RedHatBoys {
  import opened Ints
  import opened Text
  import opened Geometry
  import opened Sheets
  import Images
  import BoyIdle
  import M = BoyMachine

  const X_OFFSET: I16 := 18
  const Y_OFFSET: I16 := 14
  const WIDTH_OFFSET: I16 := 28

  class RedHatBoy {
    const image: Images.HtmlImage
    const spriteSheet: Sheet
    var stateMachine: M.RedHatBoyStateMachine

    /** A new runner is idle. */
    constructor (spriteSheet: Sheet, image: Images.HtmlImage)
      ensures stateMachine == M.Idle(BoyIdle.New())
      ensures this.spriteSheet == spriteSheet && this.image == image
    {
      this.image := image;
      this.spriteSheet := spriteSheet;
      stateMachine := M.Idle(BoyIdle.New());
    }

    /** The collision box: the drawn box trimmed of the sprite's transparent margins. */
    function BoundingBox(): (r: Rect)
      reads this
      ensures r == Inset(DestinationBox())
      ensures r == CollisionBox(spriteSheet, stateMachine)
    {
      Inset(DestinationBox())
    }

    method Jump()
      modifies this
      ensures stateMachine == M.Transition(old(stateMachine), M.Jump)
    {
      stateMachine := M.Transition(stateMachine, M.Jump);
    }

    method KnockOut()
      modifies this
      ensures stateMachine == M.Transition(old(stateMachine), M.KnockOut)
    {
      stateMachine := M.Transition(stateMachine, M.KnockOut);
    }

    method LandOn(position: I16)
      modifies this
      ensures stateMachine == M.Transition(old(stateMachine), M.Land(position))
    {
      stateMachine := M.Transition(stateMachine, M.Land(position));
    }

    function PositionY(): (y: I16)
      reads this
      ensures y == stateMachine.Context().position.y
    {
      stateMachine.Context().position.y
    }

    method RunRight()
      modifies this
      ensures stateMachine == M.Transition(old(stateMachine), M.Run)
    {
      stateMachine := M.Transition(stateMachine, M.Run);
    }

    method Slide()
      modifies this
      ensures stateMachine == M.Transition(old(stateMachine), M.Slide)
    {
      stateMachine := M.Transition(stateMachine, M.Slide);
    }

    method Update()
      modifies this
      ensures stateMachine == M.UpdateMachine(old(stateMachine))
    {
      stateMachine := M.UpdateMachine(stateMachine);
    }

    function VelocityY(): (vy: I16)
      reads this
      ensures vy == stateMachine.Context().velocity.y
    {
      stateMachine.Context().velocity.y
    }

    function WalkingSpeed(): (vx: I16)
      reads this
      ensures vx == stateMachine.Context().velocity.x
    {
      stateMachine.Context().velocity.x
    }

    function KnockedOut(): bool
      reads this
    {
      M.IsKnockedOut(stateMachine)
    }

    function IsRunning(): bool
      reads this
    {
      M.IsRunning(stateMachine)
    }

    /** `RedHatBoy::reset`, not shown: the machine is replaced by its reset value. */
    method Reset()
      modifies this
      ensures stateMachine == M.ResetMachine(old(stateMachine))
    {
      stateMachine := M.ResetMachine(stateMachine);
    }

    /** The sheet's cell for the current state's name and frame group. */
    function CurrentSprite(): (cell: Cell)
      reads this
      ensures cell == spriteSheet(SpriteName(M.MachineFrameName(stateMachine), stateMachine.Context().frame))
    {
      spriteSheet(FrameName())
    }

    /** Where the current sprite is drawn: the context position shifted by the sprite's
        source offset, with the sprite's size. */
    function DestinationBox(): (r: Rect)
      reads this
      ensures r.Left() == Wrap16(stateMachine.Context().position.x + CurrentSprite().spriteSourceSize.x)
      ensures r.Top() == Wrap16(stateMachine.Context().position.y + CurrentSprite().spriteSourceSize.y)
      ensures r.width == CurrentSprite().frame.w && r.height == CurrentSprite().frame.h
    {
      DrawnBox(spriteSheet, stateMachine)
    }

    /** "<state name> (<n>).png", where the sprite number n advances every third frame. */
    function FrameName(): (name: string)
      reads this
      ensures name == SpriteName(M.MachineFrameName(stateMachine), stateMachine.Context().frame)
    {
      SpriteName(M.MachineFrameName(stateMachine), stateMachine.Context().frame)
    }
  }

  /** Where a runner in state `sm` is drawn from `sheet`: the context position shifted by
      the current sprite's source offset, with the sprite's size. */
  function DrawnBox(sheet: Sheet, sm: M.RedHatBoyStateMachine): (r: Rect)
    ensures r.Left() == Wrap16(sm.Context().position.x + sheet(SpriteName(M.MachineFrameName(sm), sm.Context().frame)).spriteSourceSize.x)
    ensures r.Top() == Wrap16(sm.Context().position.y + sheet(SpriteName(M.MachineFrameName(sm), sm.Context().frame)).spriteSourceSize.y)
  {
    var sprite := sheet(SpriteName(M.MachineFrameName(sm), sm.Context().frame));
    NewFromXY(
      Wrap16(sm.Context().position.x + sprite.spriteSourceSize.x),
      Wrap16(sm.Context().position.y + sprite.spriteSourceSize.y),
      sprite.frame.w, sprite.frame.h)
  }

  /** The collision box of a runner in state `sm`, for reasoning about several states of
      the same runner in a row. */
  function CollisionBox(sheet: Sheet, sm: M.RedHatBoyStateMachine): Rect {
    Inset(DrawnBox(sheet, sm))
  }

  /** The sprite of animation `frame` in the animation called `stateName`; each sprite is
      shown for three frames and they are numbered from 1. */
  function SpriteName(stateName: string, frame: U8): (name: string)
    ensures |name| > |stateName| + 2 + 5
    ensures name[..|stateName|] == stateName && name[|stateName|..|stateName| + 2] == " ("
    ensures name[|name| - 5..] == ").png"
    ensures AllDigits(name[|stateName| + 2..|name| - 5])
    ensures DigitsValue(name[|stateName| + 2..|name| - 5]) == frame / 3 + 1
  {
    NatToStringRoundTrip(frame / 3 + 1);
    stateName + " (" + NatToString(frame / 3 + 1) + ").png"
  }

  /** Frames three apart or more, in the same state, show different sprites; frames in the
      same group of three show the same sprite. */
  lemma SpriteNameIdentifiesGroup(stateName: string, f1: U8, f2: U8)
    ensures SpriteName(stateName, f1) == SpriteName(stateName, f2) <==> f1 / 3 == f2 / 3
  {
  }

  /** The runner's collision box: 18 in from the left, 14 down from the top, 28 narrower
      and 14 shorter than the drawn box (all `i16` arithmetic). */
  function Inset(d: Rect): (r: Rect)
    ensures r.Left() == Wrap16(d.Left() + X_OFFSET) && r.Top() == Wrap16(d.Top() + Y_OFFSET)
    ensures r.width == Wrap16(d.width - WIDTH_OFFSET) && r.height == Wrap16(d.height - Y_OFFSET)
  {
    var b := d.SetX(Wrap16(d.X() + X_OFFSET));
    var b := b.(width := Wrap16(b.width - WIDTH_OFFSET));
    var b := b.(position := b.position.(y := Wrap16(b.position.y + Y_OFFSET)));
    b.(height := Wrap16(b.height - Y_OFFSET))
  }

  /** The collision box shares the drawn box's bottom edge ... */
  lemma InsetBottom(d: Rect)
    ensures Inset(d).Bottom() == d.Bottom()
  {
    WrapAddBoth(d.Top() + Y_OFFSET, d.height - Y_OFFSET);
  }

  /** ... and its right edge is 10 in from the drawn box's right edge. */
  lemma InsetRight(d: Rect)
    ensures Inset(d).Right() == Wrap16(d.Right() - 10)
  {
    WrapInsetEnd(d.Left(), d.width, X_OFFSET, WIDTH_OFFSET, 10, Inset(d).Right(), d.Right());
  }
}
