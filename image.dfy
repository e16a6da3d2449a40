/** A positioned bitmap whose bounding box scrolls horizontally (src/engine/image.rs).
    The `&mut self` updates of the source are modelled as functions returning the
    updated value: an `Image` has a single owner, so no other holder observes it. */
module Images {
  import opened Ints
  import opened Geometry

  /** The browser image element; only its size (DOM `u32` width and height) matters here. */
  datatype HtmlImage = HtmlImage(width: nat, height: nat)

  datatype Image = Image(boundingBox: Rect, element: HtmlImage) {

    /** Shifts the image by `distance` (an `i16` addition); y, width and height stay. */
    function MoveHorizontally(distance: I16): (r: Image)
      ensures r.boundingBox.X() == Wrap16(boundingBox.X() + distance)
      ensures InI16(boundingBox.X() + distance) ==> r.boundingBox.X() == boundingBox.X() + distance
      ensures r.boundingBox.Y() == boundingBox.Y()
      ensures r.boundingBox.width == boundingBox.width && r.boundingBox.height == boundingBox.height
      ensures r.element == element
    {
      SetX(Wrap16(boundingBox.X() + distance))
    }

    function Right(): (r: I16)
      ensures r == boundingBox.Right()
    {
      boundingBox.Right()
    }

    /** Places the left edge at `x`; nothing else changes. */
    function SetX(x: I16): (r: Image)
      ensures r.boundingBox.X() == x
      ensures r.boundingBox == boundingBox.SetX(x) && r.element == element
    {
      var b := boundingBox.SetX(x);
      this.(boundingBox := b.(position := b.position.(x := x)))
    }
  }

  /** The bounding box sits at `position` with the element's size cast (truncated) to `i16`. */
  function New(element: HtmlImage, position: Point): (r: Image)
    ensures r.boundingBox.position == position
    ensures InI16(element.width) ==> r.boundingBox.width == element.width
    ensures InI16(element.height) ==> r.boundingBox.height == element.height
    ensures r.element == element
  {
    Image(Geometry.New(position, Wrap16(element.width), Wrap16(element.height)), element)
  }

  /** Scrolling by `d` and then by `-d` (negated in `i16`) restores the image. */
  lemma MoveThereAndBack(img: Image, d: I16)
    ensures img.MoveHorizontally(d).MoveHorizontally(Wrap16(-(d as int))) == img
  {
    WrapAddInverse(img.boundingBox.X(), d);
  }
}
