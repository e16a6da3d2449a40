/** The earlier platform (src/game/platform.rs): one sprite three cells wide whose
    collision boxes are recomputed from its position, so moving it moves only the
    position. It publishes nothing. */
module LegacyPlatforms {
  import opened Ints
  import opened Geometry
  import opened Sheets
  import Images
  import RedHatBoys
  import Collisions
  import Platforms

  const X_OFFSET: I16 := 60
  const END_HEIGHT: I16 := 54

  datatype Platform = Platform(image: Images.HtmlImage, position: Point, sheet: Sheet) {

    /** Where the platform is drawn: at `position`, three "13.png" cells wide and one tall. */
    function DestinationBox(): (r: Rect)
      ensures r.position == position
      ensures r.width == Wrap16(sheet("13.png").frame.w * 3) && r.height == sheet("13.png").frame.h
    {
      var platform := sheet("13.png");
      Geometry.New(position, Wrap16(platform.frame.w * 3), platform.frame.h)
    }

    function BoundingBoxes(): (r: seq<Rect>)
      ensures r == SplitBoxes(DestinationBox())
    {
      SplitBoxes(DestinationBox())
    }

    /** As for the newer platform, but a hit publishes nothing. */
    function Contact(boyBox: Rect, vy: I16, y: I16): (c: Collisions.Contact)
      ensures c == Collisions.NoContact <==> Platforms.FirstHit(BoundingBoxes(), boyBox).None?
      ensures c.LandsOn? <==> Platforms.FirstHit(BoundingBoxes(), boyBox).Some? && vy > 0 && y < position.y
      ensures c.LandsOn? ==> c.top == BoundingBoxes()[Platforms.FirstHit(BoundingBoxes(), boyBox).value].Top()
    {
      var boxes := BoundingBoxes();
      match Platforms.FirstHit(boxes, boyBox)
      case None => Collisions.NoContact
      case Some(i) => if vy > 0 && y < position.y then Collisions.LandsOn(boxes[i].Top()) else Collisions.Hits
    }

    method CheckIntersection(boy: RedHatBoys.RedHatBoy)
      modifies boy
      ensures boy.stateMachine ==
        Collisions.After(Contact(old(boy.BoundingBox()), old(boy.VelocityY()), old(boy.PositionY())), old(boy.stateMachine))
    {
      var boxes := BoundingBoxes();
      var hit := Platforms.FirstHit(boxes, boy.BoundingBox());
      if hit.Some? {
        if boy.VelocityY() > 0 && boy.PositionY() < position.y {
          boy.LandOn(boxes[hit.value].Top());
        } else {
          boy.KnockOut();
        }
      }
    }

    function MoveHorizontally(distance: I16): (r: Platform)
      ensures r == this.(position := position.(x := Wrap16(position.x + distance)))
    {
      this.(position := position.(x := Wrap16(position.x + distance)))
    }
  }

  /** The collision boxes of a drawn box `d`: two low end boxes X_OFFSET wide and a
      full-height middle box between them. */
  function SplitBoxes(d: Rect): (r: seq<Rect>)
    ensures |r| == 3
    ensures r[0] == Geometry.New(d.position, X_OFFSET, END_HEIGHT)
    ensures r[1] == NewFromXY(Wrap16(d.X() + X_OFFSET), d.Y(), Wrap16(d.width - X_OFFSET * 2), d.height)
    ensures r[2] == NewFromXY(Wrap16(d.Right() - X_OFFSET), d.Y(), X_OFFSET, END_HEIGHT)
  {
    [FirstBox(d), MiddleBox(d), LastBox(d)]
  }

  function FirstBox(d: Rect): Rect {
    Geometry.New(d.position, X_OFFSET, END_HEIGHT)
  }

  function MiddleBox(d: Rect): Rect {
    NewFromXY(Wrap16(d.X() + X_OFFSET), d.Y(), Wrap16(d.width - X_OFFSET * 2), d.height)
  }

  function LastBox(d: Rect): Rect {
    NewFromXY(Wrap16(d.Right() - X_OFFSET), d.Y(), X_OFFSET, END_HEIGHT)
  }

  /** The three boxes tile the drawn box: each ends where the next begins, and the last
      ends where the drawn box does. */
  lemma BoxesTile(d: Rect)
    ensures SplitBoxes(d)[0].Right() == SplitBoxes(d)[1].Left()
    ensures SplitBoxes(d)[1].Right() == SplitBoxes(d)[2].Left()
    ensures SplitBoxes(d)[2].Right() == d.Right()
  {
    assert SplitBoxes(d) == [FirstBox(d), MiddleBox(d), LastBox(d)];
    MiddleMeetsLast(d);
    LastEndsAtRight(d);
  }

  lemma MiddleMeetsLast(d: Rect)
    ensures MiddleBox(d).Right() == LastBox(d).Left()
  {
    WrapInnerSpan(d.X(), d.width, X_OFFSET, MiddleBox(d).Right(), LastBox(d).Left());
  }

  lemma LastEndsAtRight(d: Rect)
    ensures LastBox(d).Right() == d.Right()
  {
    WrapBackAndForth(d.X() + d.width, X_OFFSET, LastBox(d).Right(), d.Right());
  }

  /** The boxes follow the platform: moving it by `dist` moves each box's left edge by
      `dist` and leaves its top and width alone. */
  lemma BoxesFollowPosition(p: Platform, dist: I16, i: nat)
    requires i < 3
    ensures p.MoveHorizontally(dist).BoundingBoxes()[i].Left() == Wrap16(p.BoundingBoxes()[i].Left() + dist)
    ensures p.MoveHorizontally(dist).BoundingBoxes()[i].Top() == p.BoundingBoxes()[i].Top()
    ensures p.MoveHorizontally(dist).BoundingBoxes()[i].width == p.BoundingBoxes()[i].width
  {
    var d := p.DestinationBox();
    assert p.MoveHorizontally(dist).DestinationBox() == d.SetX(Wrap16(d.X() + dist));
    if i == 1 {
      MiddleFollows(d, dist);
    } else if i == 2 {
      LastFollows(d, dist);
    }
  }

  lemma MiddleFollows(d: Rect, dist: I16)
    ensures MiddleBox(d.SetX(Wrap16(d.X() + dist))).Left() == Wrap16(MiddleBox(d).Left() + dist)
  {
    var e := d.SetX(Wrap16(d.X() + dist));
    ShiftCommutes(d.X(), X_OFFSET, dist, MiddleBox(e).Left(), MiddleBox(d).Left());
  }

  lemma LastFollows(d: Rect, dist: I16)
    ensures LastBox(d.SetX(Wrap16(d.X() + dist))).Left() == Wrap16(LastBox(d).Left() + dist)
  {
    var e := d.SetX(Wrap16(d.X() + dist));
    LastShift(d.X(), d.width, dist, X_OFFSET, LastBox(e).Left(), LastBox(d).Left());
  }

  /** The left edge `x + w - o` of the last box follows a move of `x` by `dist`. */
  lemma LastShift(x: int, w: int, dist: int, o: int, moved: int, before: int)
    requires moved == Wrap16(Wrap16(Wrap16(x + dist) + w) - o)
    requires before == Wrap16(Wrap16(x + w) - o)
    ensures moved == Wrap16(before + dist)
  {
    WrapAddCommute(x, dist, w);
    WrapAddCommute(Wrap16(x + w), dist, -o);
  }

  /** Adding `dist` before or after adding `a` gives the same `i16`. */
  lemma ShiftCommutes(x: int, a: int, dist: int, moved: int, before: int)
    requires moved == Wrap16(Wrap16(x + dist) + a)
    requires before == Wrap16(x + a)
    ensures moved == Wrap16(before + dist)
  {
    WrapAddCommute(x, dist, a);
  }
}
