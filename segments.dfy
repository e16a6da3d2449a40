/** The segment factory (src/game/segments.rs): a catalogue of six fixed obstacle
    layouts placed at a horizontal offset, and an id counter bumped once per segment so
    that every segment's obstacles get fresh ids ("p<n>" for a platform, "b<n>" for a
    stone, "_lm" / "_rm" appended for their marks). The sprite sheet is used only to draw
    platforms and is not part of the model. */
module Segments {
  import opened Ints
  import opened Geometry
  import opened Events
  import Text
  import Images
  import ObstacleMarks
  import Barriers
  import Platforms
  import opened Obstacles

  const FIRST_PLATFORM: I16 := 240
  const HIGH_PLATFORM: I16 := 375
  const LOW_PLATFORM: I16 := 420

  const STONE_ON_GROUND: I16 := 546
  const STONE_ON_PLATFORM: I16 := 322

  const STONE_AND_PLATFORM_SEGMENT_ID: int := 4

  /** -1 means random segments; a value in 0..5 would repeat that segment forever. */
  const REPEAT: int := -1

  /** The floating platform's collision boxes, relative to its position. */
  const FLOATING_PLATFORM_BOUNDING_BOXES: seq<Rect> := [
    NewFromXY(0, 0, 60, 54),
    NewFromXY(60, 0, 384 - 60 * 2, 93),
    NewFromXY(384 - 60, 0, 60, 54)
  ]

  /** An obstacle id: a kind letter, the factory counter in decimal, and a suffix that
      is empty for the obstacle itself and "_lm" / "_rm" for its marks. */
  function Key(tag: char, n: nat, suffix: string): string {
    [tag] + Text.NatToString(n) + suffix
  }

  /** A mark's id is its obstacle's id with the mark's suffix appended. */
  lemma MarkKeys(tag: char, n: nat)
    ensures Key(tag, n, "") + "_lm" == Key(tag, n, "_lm")
    ensures Key(tag, n, "") + "_rm" == Key(tag, n, "_rm")
  {
    var k := [tag] + Text.NatToString(n);
    assert Key(tag, n, "") == k;
  }

  predicate IsSuffix(s: string) { s == "" || s == "_lm" || s == "_rm" }

  /** The kind letter and suffix of each obstacle of a segment, in the order the
      segment lists them ('p' a platform, 'b' a stone). */
  function Layout(segment: int): seq<(char, string)> {
    match segment
    case 0 => [('p', "_lm"), ('p', ""), ('b', ""), ('p', "_rm")]
    case 1 => [('p', "")]
    case 2 => [('p', "")]
    case 3 => [('b', "_lm"), ('b', ""), ('b', "_rm")]
    case 4 => [('b', "_lm"), ('b', ""), ('b', "_rm"), ('p', ""), ('p', "_rm")]
    case 5 => [('b', ""), ('p', "")]
    case _ => []
  }

  /** Every layout entry ends in a suffix, and no entry repeats within a layout. */
  lemma LayoutWellFormed(segment: int)
    ensures forall i :: 0 <= i < |Layout(segment)| ==> IsSuffix(Layout(segment)[i].1)
    ensures forall i, j :: 0 <= i < j < |Layout(segment)| ==> Layout(segment)[i] != Layout(segment)[j]
  {
  }

  /** What the segment's obstacles have in common: `|Layout|` of them, each with the id
      its layout entry names, each publishing on the factory's publisher, and none
      having seen the dog yet. */
  predicate Built(r: seq<Obstacle>, segment: int, n: nat, publisher: EventPublisher) {
    && |r| == |Layout(segment)|
    && (forall i :: 0 <= i < |r| ==> r[i].Id() == Key(Layout(segment)[i].0, n, Layout(segment)[i].1))
    && (forall i :: 0 <= i < |r| ==> r[i].Publisher() == publisher)
    && (forall i :: 0 <= i < |r| ==> !Seen(r[i]))
  }

  /** Whether a mark or platform believes the dog is on it. */
  predicate Seen(o: Obstacle) {
    match o
    case MarkObstacle(m) => m.hasDog
    case BarrierObstacle(_) => false
    case PlatformObstacle(p) => p.hasDog
  }

  /** `create_floating_platform`: id "p<n>", the template boxes moved to `position`. */
  function FloatingPlatform(n: nat, position: Point, publisher: EventPublisher): (r: Platforms.Platform)
    ensures r.id == Key('p', n, "") && r.position == position && r.publisher == publisher && !r.hasDog
    ensures |r.boundingBoxes| == 3
    ensures r.MarkLeft().id == Key('p', n, "_lm") && r.MarkRight().id == Key('p', n, "_rm")
  {
    MarkKeys('p', n);
    Platforms.New("p" + Text.NatToString(n), position, FLOATING_PLATFORM_BOUNDING_BOXES, publisher)
  }

  /** `create_stone`: id "b<n>", the stone image at `(x, y)`. */
  function Stone(n: nat, x: I16, y: I16, image: Images.HtmlImage, publisher: EventPublisher): (r: Barriers.Barrier)
    ensures r.id == Key('b', n, "") && r.publisher == publisher
    ensures r.image.boundingBox.position == Point(x, y)
    ensures r.MarkLeft().id == Key('b', n, "_lm") && r.MarkRight().id == Key('b', n, "_rm")
  {
    MarkKeys('b', n);
    Barriers.Barrier(publisher, "b" + Text.NatToString(n), Images.New(image, Point(x, y)))
  }

  /** Segment 0: a high platform 200 past the offset with its two marks around it, and
      a stone on the ground 350 past the offset. */
  function PlatformAndStone(n: nat, offset: I16, image: Images.HtmlImage, publisher: EventPublisher): (r: seq<Obstacle>)
    ensures Built(r, 0, n, publisher)
    ensures r[1].PlatformObstacle? && r[1].platform.position == Point(Wrap16(offset + 200), HIGH_PLATFORM)
    ensures r[0] == MarkObstacle(r[1].platform.MarkLeft()) && r[3] == MarkObstacle(r[1].platform.MarkRight())
    ensures r[2].BarrierObstacle? && r[2].barrier.image.boundingBox.position == Point(Wrap16(offset + 350), STONE_ON_GROUND)
  {
    var platform := FloatingPlatform(n, Point(Wrap16(offset + 200), HIGH_PLATFORM), publisher);
    var stone := Stone(n, Wrap16(offset + 350), STONE_ON_GROUND, image, publisher);
    [MarkObstacle(platform.MarkLeft()), PlatformObstacle(platform), BarrierObstacle(stone), MarkObstacle(platform.MarkRight())]
  }

  /** Segment 1: one high platform 200 past the offset, without marks. */
  function PlatformHigh(n: nat, offset: I16, publisher: EventPublisher): (r: seq<Obstacle>)
    ensures Built(r, 1, n, publisher)
    ensures r[0].PlatformObstacle? && r[0].platform.position == Point(Wrap16(offset + 200), HIGH_PLATFORM)
  {
    [PlatformObstacle(FloatingPlatform(n, Point(Wrap16(offset + 200), HIGH_PLATFORM), publisher))]
  }

  /** Segment 2: one low platform 200 past the offset, without marks. */
  function PlatformLow(n: nat, offset: I16, publisher: EventPublisher): (r: seq<Obstacle>)
    ensures Built(r, 2, n, publisher)
    ensures r[0].PlatformObstacle? && r[0].platform.position == Point(Wrap16(offset + 200), LOW_PLATFORM)
  {
    [PlatformObstacle(FloatingPlatform(n, Point(Wrap16(offset + 200), LOW_PLATFORM), publisher))]
  }

  /** Segment 3: a stone on the ground 150 past the offset, between its two marks. */
  function StoneSegment(n: nat, offset: I16, image: Images.HtmlImage, publisher: EventPublisher): (r: seq<Obstacle>)
    ensures Built(r, 3, n, publisher)
    ensures r[1].BarrierObstacle? && r[1].barrier.image.boundingBox.position == Point(Wrap16(offset + 150), STONE_ON_GROUND)
    ensures r[0] == MarkObstacle(r[1].barrier.MarkLeft()) && r[2] == MarkObstacle(r[1].barrier.MarkRight())
  {
    var stone := Stone(n, Wrap16(offset + 150), STONE_ON_GROUND, image, publisher);
    [MarkObstacle(stone.MarkLeft()), BarrierObstacle(stone), MarkObstacle(stone.MarkRight())]
  }

  /** Segment 4: a stone 130 past the offset between its marks, then a low platform
      FIRST_PLATFORM past the offset followed by its right mark only. */
  function StoneAndPlatform(n: nat, offset: I16, image: Images.HtmlImage, publisher: EventPublisher): (r: seq<Obstacle>)
    ensures Built(r, 4, n, publisher)
    ensures r[1].BarrierObstacle? && r[1].barrier.image.boundingBox.position == Point(Wrap16(offset + 130), STONE_ON_GROUND)
    ensures r[0] == MarkObstacle(r[1].barrier.MarkLeft()) && r[2] == MarkObstacle(r[1].barrier.MarkRight())
    ensures r[3].PlatformObstacle? && r[3].platform.position == Point(Wrap16(offset + FIRST_PLATFORM), LOW_PLATFORM)
    ensures r[4] == MarkObstacle(r[3].platform.MarkRight())
  {
    var stone := Stone(n, Wrap16(offset + 130), STONE_ON_GROUND, image, publisher);
    var platform := FloatingPlatform(n, Point(Wrap16(offset + FIRST_PLATFORM), LOW_PLATFORM), publisher);
    [ MarkObstacle(stone.MarkLeft()), BarrierObstacle(stone), MarkObstacle(stone.MarkRight()),
      PlatformObstacle(platform), MarkObstacle(platform.MarkRight()) ]
  }

  /** Segment 5: a stone standing on a high platform, without marks. */
  function StoneOnPlatform(n: nat, offset: I16, image: Images.HtmlImage, publisher: EventPublisher): (r: seq<Obstacle>)
    ensures Built(r, 5, n, publisher)
    ensures r[0].BarrierObstacle? && r[0].barrier.image.boundingBox.position == Point(Wrap16(offset + 390), STONE_ON_PLATFORM)
    ensures r[1].PlatformObstacle? && r[1].platform.position == Point(Wrap16(offset + 200), HIGH_PLATFORM)
  {
    var stone := Stone(n, Wrap16(offset + 390), STONE_ON_PLATFORM, image, publisher);
    var platform := FloatingPlatform(n, Point(Wrap16(offset + 200), HIGH_PLATFORM), publisher);
    [BarrierObstacle(stone), PlatformObstacle(platform)]
  }

  /** The `match` of `select`: 0..5 pick a builder, anything else is an empty segment. */
  function Segment(segment: int, n: nat, offset: I16, image: Images.HtmlImage, publisher: EventPublisher): (r: seq<Obstacle>)
    ensures Built(r, segment, n, publisher)
    ensures r == [] <==> !(0 <= segment < 6)
  {
    match segment
    case 0 => PlatformAndStone(n, offset, image, publisher)
    case 1 => PlatformHigh(n, offset, publisher)
    case 2 => PlatformLow(n, offset, publisher)
    case 3 => StoneSegment(n, offset, image, publisher)
    case 4 => StoneAndPlatform(n, offset, image, publisher)
    case 5 => StoneOnPlatform(n, offset, image, publisher)
    case _ => []
  }

  class SegmentFactory {
    /** The id counter (`i32` in the source; see the README for its overflow). */
    var id: nat
    const publisher: EventPublisher
    const stoneImage: Images.HtmlImage

    /** A new factory has counted no segment yet. */
    constructor (stoneImage: Images.HtmlImage, publisher: EventPublisher)
      ensures id == 0 && this.stoneImage == stoneImage && this.publisher == publisher
    {
      id := 0;
      this.stoneImage := stoneImage;
      this.publisher := publisher;
    }

    /** Bumps the counter once, then builds the chosen segment with the new counter. */
    method Select(segment: int, offset: I16) returns (r: seq<Obstacle>)
      modifies this
      ensures id == old(id) + 1
      ensures r == Segment(segment, id, offset, stoneImage, publisher)
    {
      id := id + 1;
      r := Segment(segment, id, offset, stoneImage, publisher);
    }

    /** The opening segment at offset 0: the stone-and-platform layout, since REPEAT is
        negative. */
    method First() returns (r: seq<Obstacle>)
      modifies this
      ensures id == old(id) + 1
      ensures r == Segment(STONE_AND_PLATFORM_SEGMENT_ID, id, 0, stoneImage, publisher)
      ensures |r| == 5
    {
      var segment := if REPEAT >= 0 then REPEAT else STONE_AND_PLATFORM_SEGMENT_ID;
      r := Select(segment, 0);
    }

    /** A segment at `offsetX`; `choice` stands for the random draw from 0..6, used
        because REPEAT is negative. */
    method Random(offsetX: I16, choice: int) returns (r: seq<Obstacle>)
      requires 0 <= choice < 6
      modifies this
      ensures id == old(id) + 1
      ensures r == Segment(choice, id, offsetX, stoneImage, publisher)
      ensures r != []
    {
      var segment := if REPEAT >= 0 then REPEAT else choice;
      r := Select(segment, offsetX);
    }
  }

  /** Ids split back into kind letter, counter and suffix: no two different triples
      give the same id, because the counter is all digits and a suffix starts with '_'. */
  lemma KeyInjective(t1: char, n1: nat, s1: string, t2: char, n2: nat, s2: string)
    requires IsSuffix(s1) && IsSuffix(s2)
    requires Key(t1, n1, s1) == Key(t2, n2, s2)
    ensures t1 == t2 && n1 == n2 && s1 == s2
  {
    var k1 := Key(t1, n1, s1);
    var k2 := Key(t2, n2, s2);
    var d1 := Text.NatToString(n1);
    var d2 := Text.NatToString(n2);
    assert k1[0] == t1 && k2[0] == t2;
    assert k1[1..] == d1 + s1 && k2[1..] == d2 + s2;
    DigitsThenSuffix(d1, s1, d2, s2);
    Text.NatToStringInjective(n1, n2);
  }

  /** A run of digits followed by a suffix splits one way only. */
  lemma DigitsThenSuffix(d1: string, s1: string, d2: string, s2: string)
    requires Text.AllDigits(d1) && Text.AllDigits(d2) && IsSuffix(s1) && IsSuffix(s2)
    requires d1 + s1 == d2 + s2
    ensures d1 == d2 && s1 == s2
  {
    DigitRunOf(d1, s1);
    DigitRunOf(d2, s2);
    assert d1 == (d1 + s1)[..|d1|] && d2 == (d2 + s2)[..|d2|];
    assert s1 == (d1 + s1)[|d1|..] && s2 == (d2 + s2)[|d2|..];
  }

  /** The number of leading digits of a string. */
  function DigitRun(x: string): (r: nat)
    ensures r <= |x|
    ensures Text.AllDigits(x[..r])
  {
    if x == [] || !Text.IsDigit(x[0]) then 0 else 1 + DigitRun(x[1..])
  }

  /** A suffix does not start with a digit, so the digit run of `d + s` is `d`. */
  lemma {:induction false} DigitRunOf(d: string, s: string)
    requires Text.AllDigits(d) && IsSuffix(s)
    ensures DigitRun(d + s) == |d|
  {
    if d == [] {
      assert d + s == s;
    } else {
      assert (d + s)[1..] == d[1..] + s;
      DigitRunOf(d[1..], s);
    }
  }

  /** Within one segment the obstacles have pairwise different ids, so each is
      subscribed and dropped under a name of its own. */
  lemma SegmentIdsDistinct(segment: int, n: nat, offset: I16, image: Images.HtmlImage, publisher: EventPublisher)
    ensures var r := Segment(segment, n, offset, image, publisher);
      forall i, j :: 0 <= i < j < |r| ==> r[i].Id() != r[j].Id()
  {
    var r := Segment(segment, n, offset, image, publisher);
    var layout := Layout(segment);
    LayoutWellFormed(segment);
    forall i, j | 0 <= i < j < |r|
      ensures r[i].Id() != r[j].Id()
    {
      assert layout[i] != layout[j];
      if r[i].Id() == r[j].Id() {
        KeyInjective(layout[i].0, n, layout[i].1, layout[j].0, n, layout[j].1);
      }
    }
  }

  /** Segments built under different counter values share no id, so obstacles of a
      later segment never take the name of an earlier one. */
  lemma SegmentsDisjoint(s1: int, n1: nat, o1: I16, s2: int, n2: nat, o2: I16,
                         image: Images.HtmlImage, publisher: EventPublisher)
    requires n1 != n2
    ensures var a := Segment(s1, n1, o1, image, publisher);
      var b := Segment(s2, n2, o2, image, publisher);
      forall i, j :: 0 <= i < |a| && 0 <= j < |b| ==> a[i].Id() != b[j].Id()
  {
    var a := Segment(s1, n1, o1, image, publisher);
    var b := Segment(s2, n2, o2, image, publisher);
    forall i, j | 0 <= i < |a| && 0 <= j < |b|
      ensures a[i].Id() != b[j].Id()
    {
      LayoutWellFormed(s1);
      LayoutWellFormed(s2);
      var l1 := Layout(s1)[i];
      var l2 := Layout(s2)[j];
      if a[i].Id() == b[j].Id() {
        KeyInjective(l1.0, n1, l1.1, l2.0, n2, l2.1);
      }
    }
  }

  /** The counter value an obstacle id carries: the digits after its kind letter. */
  function CounterOf(id: string): nat {
    if id == [] then 0 else Text.DigitsValue(id[1..][..DigitRun(id[1..])])
  }

  /** Reading the counter back out of an id gives the counter it was built with. */
  lemma CounterOfKey(tag: char, n: nat, suffix: string)
    requires IsSuffix(suffix)
    ensures CounterOf(Key(tag, n, suffix)) == n
  {
    var d := Text.NatToString(n);
    var k := Key(tag, n, suffix);
    assert k[1..] == d + suffix;
    DigitRunOf(d, suffix);
    assert k[1..][..|d|] == d;
    Text.NatToStringRoundTrip(n);
  }

  /** Every obstacle of a segment carries the counter it was built with. */
  lemma SegmentCounters(segment: int, n: nat, offset: I16, image: Images.HtmlImage, publisher: EventPublisher)
    ensures var r := Segment(segment, n, offset, image, publisher);
      forall i :: 0 <= i < |r| ==> CounterOf(r[i].Id()) == n
  {
    var r := Segment(segment, n, offset, image, publisher);
    forall i | 0 <= i < |r|
      ensures CounterOf(r[i].Id()) == n
    {
      LayoutWellFormed(segment);
      CounterOfKey(Layout(segment)[i].0, n, Layout(segment)[i].1);
    }
  }
}
