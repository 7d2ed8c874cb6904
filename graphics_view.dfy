/** src/graphics_view.py: the zoomable, pannable view of the scene. The view keeps a stack
    of zoom rectangles, at most one deep after any wheel event: wheeling up shrinks the top
    rectangle about its centre, wheeling down grows it, and a rectangle that grows back to the
    whole scene empties the stack. Dragging with the right button translates the top
    rectangle. Every step ends by intersecting with the scene rectangle.

    Rectangles are QRectF values over `real`. The scene rectangle and the part of the scene
    the viewport shows (`visible`, Qt's `mapToScene(viewport().rect()).boundingRect()`) are
    arguments; `fitInView` is recorded as the rectangle the view was last fitted to. */
module GraphicsView {
  import opened Python
  import opened Types

  datatype PointF = PointF(x: real, y: real)

  /** A QRectF: top-left corner and a width and height that may be negative. */
  datatype RectF = RectF(x: real, y: real, w: real, h: real)

  /** `QRectF()`, what an empty intersection gives. */
  const NullRect := RectF(0.0, 0.0, 0.0, 0.0)

  /** `wheel_zoom_factor`. */
  const WheelZoomFactor: real := 1.25

  /** `VIEW_MODE`. */
  const ViewMode := true

  /** `pan_button`. */
  const PanButton := RightButton

  function Center(r: RectF): PointF {
    PointF(r.x + r.w / 2.0, r.y + r.h / 2.0)
  }

  /** `moveCenter(c)`: the same size, centred on `c`. */
  function MoveCenter(r: RectF, c: PointF): (m: RectF)
    ensures m.w == r.w && m.h == r.h && Center(m) == c
  {
    RectF(c.x - r.w / 2.0, c.y - r.h / 2.0, r.w, r.h)
  }

  /** `setWidth(w)`, `setHeight(h)`, then `moveCenter` back to the old centre. */
  function Resized(r: RectF, w: real, h: real): (m: RectF)
    ensures m.w == w && m.h == h && Center(m) == Center(r)
  {
    MoveCenter(r.(w := w, h := h), Center(r))
  }

  function TopLeft(r: RectF): PointF {
    PointF(r.x, r.y)
  }

  /** `translate(d)`. */
  function Translate(r: RectF, d: PointF): (m: RectF)
    ensures m.w == r.w && m.h == r.h && TopLeft(m) == PointF(r.x + d.x, r.y + d.y)
  {
    RectF(r.x + d.x, r.y + d.y, r.w, r.h)
  }

  /** The edges of a rectangle, whichever way its width and height point. */
  function Left(r: RectF): real { if r.w < 0.0 then r.x + r.w else r.x }
  function Right(r: RectF): real { if r.w < 0.0 then r.x else r.x + r.w }
  function Top(r: RectF): real { if r.h < 0.0 then r.y + r.h else r.y }
  function Bottom(r: RectF): real { if r.h < 0.0 then r.y else r.y + r.h }

  function Max(a: real, b: real): real { if a < b then b else a }
  function Min(a: real, b: real): real { if a < b then a else b }

  /** `a` lies within `b`. */
  predicate Within(a: RectF, b: RectF) {
    Left(b) <= Left(a) && Right(a) <= Right(b) && Top(b) <= Top(a) && Bottom(a) <= Bottom(b)
  }

  /** `a.intersected(b)`, after Qt's `QRectF::operator&`: a degenerate operand or operands
      that do not overlap give the null rectangle; otherwise the overlap, with a positive
      width and height. */
  function Intersected(a: RectF, b: RectF): RectF {
    var x, y := Max(Left(a), Left(b)), Max(Top(a), Top(b));
    var right, bottom := Min(Right(a), Right(b)), Min(Bottom(a), Bottom(b));
    if x < right && y < bottom then RectF(x, y, right - x, bottom - y) else NullRect
  }

  /** An intersection is the null rectangle or a rectangle of positive size within both. */
  lemma IntersectedInside(a: RectF, b: RectF)
    ensures var r := Intersected(a, b);
            r == NullRect || (r.w > 0.0 && r.h > 0.0 && Within(r, a) && Within(r, b))
  {
  }

  /** The intersection is empty exactly when an operand has no width or height or the two do
      not overlap on some axis; touching edges do not overlap. */
  lemma IntersectedEmpty(a: RectF, b: RectF)
    ensures Intersected(a, b) == NullRect <==>
              || Left(a) == Right(a) || Left(b) == Right(b) || Top(a) == Bottom(a) || Top(b) == Bottom(b)
              || Right(b) <= Left(a) || Right(a) <= Left(b) || Bottom(b) <= Top(a) || Bottom(a) <= Top(b)
  {
  }

  /** A rectangle of positive size that lies within `b` is its own intersection with `b`. */
  lemma IntersectedWithin(a: RectF, b: RectF)
    requires a.w > 0.0 && a.h > 0.0 && Within(a, b)
    ensures Intersected(a, b) == a
  {
  }

  /** The top of a stack lies in the scene, unless an intersection came out empty. */
  predicate TopInScene(stack: seq<RectF>, scene: RectF) {
    stack != [] ==> stack[|stack| - 1] == NullRect || Within(stack[|stack| - 1], scene)
  }

  /** The stack after a wheel-up: one rectangle, the old top (the scene when there was none)
      shrunk by the zoom factor about its centre and cut to the scene. */
  function ZoomIn(stack: seq<RectF>, scene: RectF): (r: seq<RectF>)
    ensures |r| == 1
  {
    var top := if stack == [] then scene else stack[|stack| - 1];
    [Intersected(Resized(top, top.w / WheelZoomFactor, top.h / WheelZoomFactor), scene)]
  }

  /** The stack after a wheel-down: nothing for an empty stack; otherwise the top grown by the
      zoom factor about its centre and cut to the scene, or no rectangle at all once that is
      the whole scene. */
  function ZoomOut(stack: seq<RectF>, scene: RectF): (r: seq<RectF>)
    ensures |r| <= 1
    ensures stack == [] ==> r == []
    ensures r != [] ==> r[0] != scene
  {
    if stack == [] then []
    else
      var top := stack[|stack| - 1];
      var grown := Intersected(Resized(top, top.w * WheelZoomFactor, top.h * WheelZoomFactor), scene);
      if grown == scene then [] else [grown]
  }

  /** The stack after a pan step by `delta`: the top translated and cut to the scene, the
      rest and the depth kept. */
  function Pan(stack: seq<RectF>, delta: PointF, scene: RectF): (r: seq<RectF>)
    ensures |r| == |stack|
    ensures stack != [] ==> r[..|r| - 1] == stack[..|stack| - 1]
    ensures stack == [] ==> r == []
  {
    if stack == [] then []
    else stack[|stack| - 1 := Intersected(Translate(stack[|stack| - 1], delta), scene)]
  }

  /** Every zoom and pan step leaves the top of the stack in the scene, or empty. */
  lemma ZoomInTopInScene(stack: seq<RectF>, scene: RectF)
    ensures TopInScene(ZoomIn(stack, scene), scene)
  {
    var top := if stack == [] then scene else stack[|stack| - 1];
    IntersectedInside(Resized(top, top.w / WheelZoomFactor, top.h / WheelZoomFactor), scene);
  }

  lemma ZoomOutTopInScene(stack: seq<RectF>, scene: RectF)
    ensures TopInScene(ZoomOut(stack, scene), scene)
  {
    if stack != [] {
      var top := stack[|stack| - 1];
      IntersectedInside(Resized(top, top.w * WheelZoomFactor, top.h * WheelZoomFactor), scene);
    }
  }

  lemma PanTopInScene(stack: seq<RectF>, delta: PointF, scene: RectF)
    ensures TopInScene(Pan(stack, delta, scene), scene)
  {
    if stack != [] {
      IntersectedInside(Translate(stack[|stack| - 1], delta), scene);
    }
  }

  /** Zooming into a rectangle of positive size that lies in the scene keeps the whole shrunk
      rectangle: it is the old one scaled down by the zoom factor about the same centre. */
  lemma ZoomInShrinks(top: RectF, scene: RectF)
    requires top.w > 0.0 && top.h > 0.0 && Within(top, scene)
    ensures ZoomIn([top], scene) == [Resized(top, top.w / WheelZoomFactor, top.h / WheelZoomFactor)]
  {
    var small := Resized(top, top.w / WheelZoomFactor, top.h / WheelZoomFactor);
    assert Within(small, top);
    IntersectedWithin(small, scene);
  }

  /** One wheel step in and one out, starting from the whole scene, returns to the whole scene. */
  lemma ZoomInThenOut(scene: RectF)
    requires scene.w > 0.0 && scene.h > 0.0
    ensures ZoomOut(ZoomIn([], scene), scene) == []
  {
    assert Within(scene, scene);
    ZoomInShrinks(scene, scene);
    var small := Resized(scene, scene.w / WheelZoomFactor, scene.h / WheelZoomFactor);
    var back := Resized(small, small.w * WheelZoomFactor, small.h * WheelZoomFactor);
    assert back == scene;
    IntersectedWithin(scene, scene);
  }

  class CustomGraphicsView {
    var zoomStack: seq<RectF>
    var isPanning: bool
    var scenePosition: PointF
    /** The rectangle last passed to `fitInView`, if any. */
    var fitted: Option<RectF>

    ghost predicate Valid()
      reads this
    {
      |zoomStack| <= 1
    }

    constructor ()
      ensures Valid() && zoomStack == [] && !isPanning && scenePosition == PointF(0.0, 0.0) && fitted == None
    {
      zoomStack := [];
      isPanning := false;
      scenePosition := PointF(0.0, 0.0);
      fitted := None;
    }

    /** `update_view`: fit the top of the stack, or the whole scene when the stack is empty. */
    method UpdateView(scene: RectF)
      modifies this
      ensures fitted == Some(if zoomStack != [] then zoomStack[|zoomStack| - 1] else scene)
      ensures zoomStack == old(zoomStack) && isPanning == old(isPanning) && scenePosition == old(scenePosition)
    {
      if |zoomStack| > 0 {
        fitted := Some(zoomStack[|zoomStack| - 1]);
      } else {
        fitted := Some(scene);
      }
    }

    /** `wheelEvent`. Scrolling up (`angleY > 0`) zooms in, anything else zooms out; a
        zoom-out on an empty stack returns before fitting the view. */
    method WheelEvent(angleY: int, scene: RectF)
      modifies this
      ensures Valid()
      ensures angleY > 0 ==> zoomStack == ZoomIn(old(zoomStack), scene) && fitted == Some(zoomStack[0])
      ensures angleY <= 0 ==> zoomStack == ZoomOut(old(zoomStack), scene)
      ensures angleY <= 0 && old(zoomStack) == [] ==> fitted == old(fitted)
      ensures angleY <= 0 && old(zoomStack) != [] ==>
                fitted == Some(if zoomStack == [] then scene else zoomStack[0])
      ensures isPanning == old(isPanning) && scenePosition == old(scenePosition)
    {
      if angleY > 0 {
        if |zoomStack| == 0 {
          zoomStack := zoomStack + [scene];
        } else if |zoomStack| > 1 {
          zoomStack := zoomStack[|zoomStack| - 1..];
        }
        assert |zoomStack| == 1 && zoomStack[0] == (if old(zoomStack) == [] then scene else old(zoomStack)[|old(zoomStack)| - 1]);
        var zoomRect := zoomStack[|zoomStack| - 1];
        ghost var top := zoomRect;
        var center := Center(zoomRect);
        zoomRect := zoomRect.(w := zoomRect.w / WheelZoomFactor);
        zoomRect := zoomRect.(h := zoomRect.h / WheelZoomFactor);
        zoomRect := MoveCenter(zoomRect, center);
        assert zoomRect == Resized(top, top.w / WheelZoomFactor, top.h / WheelZoomFactor);
        zoomStack := zoomStack[|zoomStack| - 1 := Intersected(zoomRect, scene)];
        assert zoomStack == [Intersected(zoomRect, scene)];
        UpdateView(scene);
      } else {
        if |zoomStack| == 0 {
          return;
        } else if |zoomStack| > 1 {
          zoomStack := zoomStack[|zoomStack| - 1..];
        }
        assert |zoomStack| == 1 && zoomStack[0] == old(zoomStack)[|old(zoomStack)| - 1];
        var zoomRect := zoomStack[|zoomStack| - 1];
        ghost var top := zoomRect;
        var center := Center(zoomRect);
        zoomRect := zoomRect.(w := zoomRect.w * WheelZoomFactor);
        zoomRect := zoomRect.(h := zoomRect.h * WheelZoomFactor);
        zoomRect := MoveCenter(zoomRect, center);
        assert zoomRect == Resized(top, top.w * WheelZoomFactor, top.h * WheelZoomFactor);
        zoomStack := zoomStack[|zoomStack| - 1 := Intersected(zoomRect, scene)];
        assert zoomStack == [Intersected(zoomRect, scene)];
        if zoomStack[|zoomStack| - 1] == scene {
          zoomStack := [];
        }
        UpdateView(scene);
      }
    }

    /** A press of the pan button in view mode starts panning from the top-left corner of the
        visible part of the scene. */
    method MousePress(button: MouseButton, visible: RectF, scene: RectF)
      modifies this
      ensures button == PanButton && ViewMode ==>
                isPanning && scenePosition == TopLeft(Intersected(visible, scene))
      ensures button != PanButton ==> isPanning == old(isPanning) && scenePosition == old(scenePosition)
      ensures zoomStack == old(zoomStack) && fitted == old(fitted)
    {
      if button == PanButton && ViewMode {
        scenePosition := TopLeft(Intersected(visible, scene));
        isPanning := true;
      }
    }

    /** While panning, each move translates the top rectangle by how far the visible corner
        moved since the last step, and refits the view; without a zoom rectangle nothing
        changes. */
    method MouseMove(visible: RectF, scene: RectF)
      modifies this
      ensures isPanning == old(isPanning)
      ensures old(isPanning) && old(zoomStack) != [] ==>
                && var corner := TopLeft(Intersected(visible, scene));
                && zoomStack == Pan(old(zoomStack), PointF(corner.x - old(scenePosition).x, corner.y - old(scenePosition).y), scene)
                && scenePosition == corner
                && fitted == Some(zoomStack[|zoomStack| - 1])
      ensures !old(isPanning) || old(zoomStack) == [] ==>
                zoomStack == old(zoomStack) && scenePosition == old(scenePosition) && fitted == old(fitted)
    {
      if isPanning && |zoomStack| > 0 {
        var corner := TopLeft(Intersected(visible, scene));
        var delta := PointF(corner.x - scenePosition.x, corner.y - scenePosition.y);
        scenePosition := corner;
        var moved := Translate(zoomStack[|zoomStack| - 1], delta);
        zoomStack := zoomStack[|zoomStack| - 1 := moved];
        zoomStack := zoomStack[|zoomStack| - 1 := Intersected(moved, scene)];
        UpdateView(scene);
      }
    }

    /** Releasing the right button in view mode applies the last pan step to the top rectangle
        (without refitting the view or moving the recorded corner) and ends panning. */
    method MouseRelease(button: MouseButton, visible: RectF, scene: RectF)
      modifies this
      ensures button == RightButton && ViewMode ==>
                && !isPanning
                && var corner := TopLeft(Intersected(visible, scene));
                && zoomStack == Pan(old(zoomStack), PointF(corner.x - scenePosition.x, corner.y - scenePosition.y), scene)
      ensures button != RightButton ==> isPanning == old(isPanning) && zoomStack == old(zoomStack)
      ensures scenePosition == old(scenePosition) && fitted == old(fitted)
    {
      if button == RightButton && ViewMode {
        if |zoomStack| > 0 {
          var corner := TopLeft(Intersected(visible, scene));
          var delta := PointF(corner.x - scenePosition.x, corner.y - scenePosition.y);
          var moved := Translate(zoomStack[|zoomStack| - 1], delta);
          zoomStack := zoomStack[|zoomStack| - 1 := moved];
          zoomStack := zoomStack[|zoomStack| - 1 := Intersected(moved, scene)];
        }
        isPanning := false;
      }
    }
  }

  /** A view that has just been made, wheeled up once and then down once, shows the whole scene
      again with an empty zoom stack. */
  method ZoomInThenOutView(scene: RectF) returns (v: CustomGraphicsView)
    requires scene.w > 0.0 && scene.h > 0.0
    ensures fresh(v) && v.zoomStack == [] && v.fitted == Some(scene)
  {
    v := new CustomGraphicsView();
    v.WheelEvent(120, scene);
    ZoomInThenOut(scene);
    assert v.zoomStack == ZoomIn([], scene) && ZoomOut(v.zoomStack, scene) == [];
    v.WheelEvent(-120, scene);
    assert v.zoomStack == [];
  }
}
