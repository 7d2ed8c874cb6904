/** src/canvas.py: the annotation canvas. Pressing, dragging and releasing the left button
    draws a rectangle; releasing asks for a class label and, when one is given, records the
    image as it was before the rectangle was painted (`revisions`) beside the label and its
    corner points (`labels`). Undo and reset walk those two stacks back.

    The image is an opaque value of type `Img`; painting a rectangle onto it is the function
    `paint`, which the model does not interpret. The label dialog is an `Option<string>`
    argument, `None` meaning the dialog was cancelled. An exception raised inside one of the
    event handlers is reported as an `Err` result. */
module Canvas {
  import opened Python
  import opened Types

  /** One axis of the clamp applied to a pointer outside the image: beyond the low edge it
      snaps to one past that edge, beyond the high edge it snaps to the edge itself. */
  function ClampAxis(v: int, lo: int, hi: int): int {
    if v < lo then lo + 1 else if v > hi then hi else v
  }

  /** The clamp, axis by axis, against the corners `(x1, y1)` and `(x2, y2)`. */
  function Clamp(p: Point, x1: int, y1: int, x2: int, y2: int): Point {
    Point(ClampAxis(p.x, x1, x2), ClampAxis(p.y, y1, y2))
  }

  predicate Inside(p: Point, x1: int, y1: int, x2: int, y2: int) {
    x1 <= p.x <= x2 && y1 <= p.y <= y2
  }

  /** A point inside the corners is its own clamp. */
  lemma ClampInside(p: Point, x1: int, y1: int, x2: int, y2: int)
    requires Inside(p, x1, y1, x2, y2)
    ensures Clamp(p, x1, y1, x2, y2) == p
  {
  }

  /** The clamp is not symmetric: on the low edge the pointer is kept, one step beyond it snaps
      one pixel inside; one step beyond the high edge snaps back onto the edge. */
  lemma ClampAsymmetric(lo: int, hi: int)
    requires lo < hi
    ensures ClampAxis(lo, lo, hi) == lo && ClampAxis(lo - 1, lo, hi) == lo + 1
    ensures ClampAxis(hi, lo, hi) == hi && ClampAxis(hi + 1, lo, hi) == hi
  {
  }

  /** On an image at least two pixels wide and high, a clamped point lies on the image, and
      clamping it again keeps it. On a one-pixel-wide image a pointer left of it is moved to
      x = 1, outside the image. */
  lemma ClampOnImage(p: Point, width: int, height: int)
    requires width >= 2 && height >= 2
    ensures Inside(Clamp(p, 0, 0, width - 1, height - 1), 0, 0, width - 1, height - 1)
    ensures Clamp(Clamp(p, 0, 0, width - 1, height - 1), 0, 0, width - 1, height - 1)
            == Clamp(p, 0, 0, width - 1, height - 1)
  {
  }

  lemma ClampLeavesNarrowImage(y: int)
    requires 0 <= y
    ensures !Inside(Clamp(Point(-1, y), 0, 0, 0, y), 0, 0, 0, y)
  {
  }

  class Canvas<Img> {
    /** Width and height of the image, fixed at construction (the widget's fixed size). */
    const width: nat
    const height: nat
    /** Draws the outline of the rectangle with corner `(x, y)`, width `w` and height `h`. */
    const paint: (Img, int, int, int, int) -> Img

    var image: Img
    var moving: bool
    var revisions: seq<Img>
    var labels: seq<(Box, string)>
    var startPoint: Option<Point>
    var endPoint: Option<Point>
    var rectangleWidth: Option<int>
    var rectangleHeight: Option<int>

    /** Every added label has the image it was drawn on saved beside it. */
    ghost predicate Valid()
      reads this
    {
      |revisions| == |labels|
    }

    constructor (photo: Img, width: nat, height: nat, paint: (Img, int, int, int, int) -> Img)
      ensures Valid()
      ensures this.width == width && this.height == height && this.paint == paint
      ensures image == photo && !moving && revisions == [] && labels == []
      ensures startPoint == None && endPoint == None
      ensures rectangleWidth == None && rectangleHeight == None
    {
      this.width := width;
      this.height := height;
      this.paint := paint;
      image := photo;
      moving := false;
      revisions := [];
      labels := [];
      startPoint := None;
      endPoint := None;
      rectangleWidth := None;
      rectangleHeight := None;
    }

    /** `image.rect().getCoords()`: the corners of a width × height image. */
    function X2(): int { width - 1 }
    function Y2(): int { height - 1 }

    /** A left press records where the drag starts. */
    method MousePress(button: MouseButton, pos: Point)
      modifies this
      ensures startPoint == if button == LeftButton then Some(pos) else old(startPoint)
      ensures image == old(image) && moving == old(moving)
      ensures revisions == old(revisions) && labels == old(labels)
      ensures endPoint == old(endPoint)
      ensures rectangleWidth == old(rectangleWidth) && rectangleHeight == old(rectangleHeight)
    {
      if button == LeftButton {
        startPoint := Some(pos);
      }
    }

    /** `check_mouse`: eight overriding assignments, one per region around the image. A pointer
        on the image leaves `endPoint` alone; any other is replaced by its clamp. */
    method CheckMouse(pos: Point)
      modifies this
      ensures endPoint == if Inside(pos, 0, 0, X2(), Y2()) then old(endPoint) else Some(Clamp(pos, 0, 0, X2(), Y2()))
      ensures image == old(image) && moving == old(moving) && startPoint == old(startPoint)
      ensures revisions == old(revisions) && labels == old(labels)
      ensures rectangleWidth == old(rectangleWidth) && rectangleHeight == old(rectangleHeight)
    {
      var x1, y1, x2, y2 := 0, 0, X2(), Y2();
      if pos.x < x1 {                     // 4
        endPoint := Some(Point(x1 + 1, pos.y));
      }
      if pos.y < y1 {                     // 2
        endPoint := Some(Point(pos.x, y1 + 1));
      }
      if pos.x < x1 && pos.y < y1 {       // 1
        endPoint := Some(Point(x1 + 1, y1 + 1));
      }
      if pos.x > x2 {                     // 5
        endPoint := Some(Point(x2, pos.y));
      }
      if pos.y > y2 {                     // 7
        endPoint := Some(Point(pos.x, y2));
      }
      if pos.x > x2 && pos.y > y2 {       // 8
        endPoint := Some(Point(x2, y2));
      }
      if pos.x < x1 && pos.y > y2 {       // 6
        endPoint := Some(Point(x1 + 1, y2));
      }
      if pos.x > x2 && pos.y < y1 {       // 3
        endPoint := Some(Point(x2, y1 + 1));
      }
    }

    /** A move with the left button held: the drag is in progress, the end point is the clamped
        pointer, and the rectangle's width and height are end minus start, negative when the
        drag goes left or up. Without a start point (no left press seen) reading its x raises
        AttributeError after the end point is set. */
    method MouseMove(leftHeld: bool, pos: Point) returns (r: Result<()>)
      modifies this
      ensures image == old(image) && startPoint == old(startPoint)
      ensures revisions == old(revisions) && labels == old(labels)
      ensures !leftHeld ==> r.Ok? && moving == old(moving) && endPoint == old(endPoint)
                            && rectangleWidth == old(rectangleWidth) && rectangleHeight == old(rectangleHeight)
      ensures leftHeld ==> moving && endPoint == Some(Clamp(pos, 0, 0, X2(), Y2()))
      ensures leftHeld ==> (r.Err? <==> startPoint.None?)
      ensures leftHeld && r.Err? ==> r.error == AttributeError
                                     && rectangleWidth == old(rectangleWidth) && rectangleHeight == old(rectangleHeight)
      ensures leftHeld && r.Ok? ==>
                && rectangleWidth == Some(endPoint.value.x - startPoint.value.x)
                && rectangleHeight == Some(endPoint.value.y - startPoint.value.y)
    {
      if !leftHeld {
        return Ok(());
      }
      moving := true;
      endPoint := Some(pos);
      CheckMouse(pos);
      if Inside(pos, 0, 0, X2(), Y2()) {
        ClampInside(pos, 0, 0, X2(), Y2());
      }
      if startPoint.None? {
        return Err(AttributeError);
      }
      rectangleWidth := Some(endPoint.value.x - startPoint.value.x);
      rectangleHeight := Some(endPoint.value.y - startPoint.value.y);
      return Ok(());
    }

    /** `add_label`. A cancelled dialog changes nothing. A confirmed one saves the image,
        paints the rectangle onto it and records the raw corner points with the label, which
        may be empty. Painting without a start point raises AttributeError, and without a
        width or height (no move since the canvas was made) TypeError; in both cases the saved
        image has already been pushed. */
    method AddLabel(prompt: Option<string>) returns (r: Result<()>)
      modifies this
      ensures moving == old(moving) && startPoint == old(startPoint) && endPoint == old(endPoint)
      ensures rectangleWidth == old(rectangleWidth) && rectangleHeight == old(rectangleHeight)
      ensures prompt.None? ==> r.Ok? && image == old(image) && revisions == old(revisions) && labels == old(labels)
      ensures prompt.Some? ==> revisions == old(revisions) + [old(image)]
      ensures prompt.Some? && startPoint.None? ==> r == Err(AttributeError) && image == old(image) && labels == old(labels)
      ensures prompt.Some? && startPoint.Some? && (rectangleWidth.None? || rectangleHeight.None?) ==>
                r == Err(TypeError) && image == old(image) && labels == old(labels)
      ensures prompt.Some? && startPoint.Some? && rectangleWidth.Some? && rectangleHeight.Some? ==>
                && image == paint(old(image), startPoint.value.x, startPoint.value.y, rectangleWidth.value, rectangleHeight.value)
                && (r.Ok? <==> endPoint.Some?)
                && (r.Err? ==> r.error == AttributeError && labels == old(labels))
                && (r.Ok? ==> labels == old(labels) + [(Box(startPoint.value.x, startPoint.value.y,
                                                           endPoint.value.x, endPoint.value.y), prompt.value)])
      ensures old(Valid()) && r.Ok? ==> Valid()
    {
      if prompt.None? {
        return Ok(());
      }
      revisions := revisions + [image];
      if startPoint.None? {
        return Err(AttributeError);
      }
      if rectangleWidth.None? || rectangleHeight.None? {
        return Err(TypeError);
      }
      var start := startPoint.value;
      image := paint(image, start.x, start.y, rectangleWidth.value, rectangleHeight.value);
      if endPoint.None? {
        return Err(AttributeError);
      }
      labels := labels + [(Box(start.x, start.y, endPoint.value.x, endPoint.value.y), prompt.value)];
      return Ok(());
    }

    /** A left release adds a label and ends the drag; an exception from `add_label` leaves
        the drag flag set. */
    method MouseRelease(button: MouseButton, prompt: Option<string>) returns (r: Result<()>)
      modifies this
      ensures button != LeftButton ==> r.Ok? && image == old(image) && moving == old(moving)
                                       && revisions == old(revisions) && labels == old(labels)
      ensures button == LeftButton ==> moving == (old(moving) && r.Err?)
      ensures button == LeftButton && prompt.None? ==> r.Ok? && image == old(image)
                                                       && revisions == old(revisions) && labels == old(labels)
      ensures button == LeftButton && prompt.Some? ==> revisions == old(revisions) + [old(image)]
      ensures button == LeftButton && prompt.Some? && r.Ok? ==>
                && startPoint.Some? && endPoint.Some? && rectangleWidth.Some? && rectangleHeight.Some?
                && image == paint(old(image), startPoint.value.x, startPoint.value.y, rectangleWidth.value, rectangleHeight.value)
                && labels == old(labels) + [(Box(startPoint.value.x, startPoint.value.y,
                                                endPoint.value.x, endPoint.value.y), prompt.value)]
      ensures startPoint == old(startPoint) && endPoint == old(endPoint)
      ensures rectangleWidth == old(rectangleWidth) && rectangleHeight == old(rectangleHeight)
      ensures old(Valid()) && r.Ok? ==> Valid()
    {
      if button != LeftButton {
        return Ok(());
      }
      r := AddLabel(prompt);
      if r.Err? {
        return;
      }
      moving := false;
    }

    /** Undo: when both stacks are non-empty, the last label is dropped and the image returns
        to the one saved just before it was drawn; otherwise nothing changes. */
    method Undo()
      modifies this
      ensures old(revisions) != [] && old(labels) != [] ==>
                && image == old(revisions)[|old(revisions)| - 1]
                && revisions == old(revisions)[..|old(revisions)| - 1]
                && labels == old(labels)[..|old(labels)| - 1]
      ensures old(revisions) == [] || old(labels) == [] ==>
                image == old(image) && revisions == old(revisions) && labels == old(labels)
      ensures moving == old(moving) && startPoint == old(startPoint) && endPoint == old(endPoint)
      ensures rectangleWidth == old(rectangleWidth) && rectangleHeight == old(rectangleHeight)
      ensures old(Valid()) ==> Valid()
    {
      if revisions != [] && labels != [] {
        image := revisions[|revisions| - 1];
        revisions := revisions[..|revisions| - 1];
        labels := labels[..|labels| - 1];
      }
    }

    /** Reset: when both stacks are non-empty, the image returns to the one saved before the
        first label and both stacks are emptied; otherwise nothing changes. */
    method Reset()
      modifies this
      ensures old(revisions) != [] && old(labels) != [] ==>
                image == old(revisions[0]) && revisions == [] && labels == []
      ensures old(revisions) == [] || old(labels) == [] ==>
                image == old(image) && revisions == old(revisions) && labels == old(labels)
      ensures moving == old(moving) && startPoint == old(startPoint) && endPoint == old(endPoint)
      ensures rectangleWidth == old(rectangleWidth) && rectangleHeight == old(rectangleHeight)
      ensures old(Valid()) ==> Valid()
    {
      if revisions != [] && labels != [] {
        image := revisions[0];
        revisions := [];
        labels := [];
      }
    }
  }

  /** A label that was added and then undone leaves the image and both stacks as they were. */
  method AddThenUndo<Img>(c: Canvas<Img>, name: string)
    requires c.Valid()
    requires c.startPoint.Some? && c.endPoint.Some? && c.rectangleWidth.Some? && c.rectangleHeight.Some?
    modifies c
    ensures c.Valid()
    ensures c.image == old(c.image) && c.revisions == old(c.revisions) && c.labels == old(c.labels)
  {
    var r := c.AddLabel(Some(name));
    assert r.Ok?;
    c.Undo();
  }

  /** However many labels were added, reset brings back the image from before the first. */
  method AddThenReset<Img>(c: Canvas<Img>, first: string, second: string)
    requires c.Valid() && c.revisions == []
    requires c.startPoint.Some? && c.endPoint.Some? && c.rectangleWidth.Some? && c.rectangleHeight.Some?
    modifies c
    ensures c.Valid() && c.image == old(c.image) && c.revisions == [] && c.labels == []
  {
    var r := c.AddLabel(Some(first));
    r := c.AddLabel(Some(second));
    c.Reset();
  }
}
