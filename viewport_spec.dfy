/** The scroll state of a ViewPort as a value, and what each of its
    operations does to that value. The ViewPort class (module Scrollarea)
    is proved to follow these functions; the lemmas here say what the
    functions promise: offsets stay within [0, max_position], the vertical
    slider reads inverted, the horizontal one reads the offset directly, an
    operation on one axis leaves the other alone, and a touch or a draw
    addresses the right part of the canvas. */
module ViewportSpec {
  import opened Geometry

  /** max_position: the largest scroll offset on each axis, the amount by
      which the canvas overhangs the visible area, and never negative. */
  function MaxPosition(size: Vec, canvas: Vec): (m: Vec)
    ensures m.x >= 0 && m.y >= 0
    ensures m.x >= canvas.x - size.x && m.y >= canvas.y - size.y
    ensures (m.x == 0 || m.x == canvas.x - size.x) && (m.y == 0 || m.y == canvas.y - size.y)
  {
    Vec(Max(0, canvas.x - size.x), Max(0, canvas.y - size.y))
  }

  /** The scroll state as seen from outside: the offset (`position`) and the
      value each attached slider shows; None stands for no slider. */
  datatype View = View(position: Vec, vslider: Option<int>, hslider: Option<int>)

  predicate InRange(p: Vec, max: Vec) {
    0 <= p.x <= max.x && 0 <= p.y <= max.y
  }

  /** The vertical slider reads inverted: max.y at the top, 0 at the bottom. */
  predicate VSynced(v: View, max: Vec) {
    v.vslider.Some? ==> v.vslider.value == max.y - v.position.y
  }

  /** The horizontal slider reads the offset directly. */
  predicate HSynced(v: View) {
    v.hslider.Some? ==> v.hslider.value == v.position.x
  }

  /** What holds between any two operations. */
  predicate Consistent(v: View, max: Vec) {
    InRange(v.position, max) && VSynced(v, max)
  }

  /** The state ViewPort.__init__ leaves: offset (0, 0), the vertical slider
      (if any) set to max.y, the horizontal slider's value left as it was. */
  function Initial(max: Vec, hasVSlider: bool, hslider: Option<int>): (r: View)
    requires max.x >= 0 && max.y >= 0
    ensures Consistent(r, max)
    ensures r.position == Vec(0, 0)
    ensures r.vslider.Some? <==> hasVSlider
    ensures hasVSlider ==> r.vslider.value == max.y
    ensures r.hslider == hslider
  {
    View(Vec(0, 0), if hasVSlider then Some(max.y) else None, hslider)
  }

  /** set_x: clamp the request into [0, max.x], store it, and show it on the
      horizontal slider. */
  function AfterSetX(v: View, max: Vec, value: int): (r: View)
    requires max.x >= 0
    ensures 0 <= r.position.x <= max.x
    ensures 0 <= value <= max.x ==> r.position.x == value
    ensures value < 0 ==> r.position.x == 0
    ensures value > max.x ==> r.position.x == max.x
    ensures HSynced(r) && (r.hslider.Some? <==> v.hslider.Some?)
    ensures r.position.y == v.position.y && r.vslider == v.vslider
  {
    var x := Clamp(0, max.x, value);
    View(Vec(x, v.position.y), v.vslider, if v.hslider.Some? then Some(x) else None)
  }

  /** set_y: clamp the request into [0, max.y], store it, and show it,
      inverted, on the vertical slider. */
  function AfterSetY(v: View, max: Vec, value: int): (r: View)
    requires max.y >= 0
    ensures 0 <= r.position.y <= max.y
    ensures 0 <= value <= max.y ==> r.position.y == value
    ensures value < 0 ==> r.position.y == 0
    ensures value > max.y ==> r.position.y == max.y
    ensures VSynced(r, max) && (r.vslider.Some? <==> v.vslider.Some?)
    ensures r.position.x == v.position.x && r.hslider == v.hslider
  {
    var y := Clamp(0, max.y, value);
    View(Vec(v.position.x, y), if v.vslider.Some? then Some(max.y - y) else None, v.hslider)
  }

  /** vslider_cb: the vertical slider was moved to s; translate s back from
      the inverted scale and scroll there. */
  function AfterVSliderCb(v: View, max: Vec, s: int): (r: View)
    requires max.y >= 0
    ensures 0 <= s <= max.y ==> r.position.y == max.y - s
    ensures 0 <= s <= max.y && v.vslider.Some? ==> r.vslider == Some(s)
    ensures s < 0 ==> r.position.y == max.y
    ensures s > max.y ==> r.position.y == 0
    ensures VSynced(r, max) && 0 <= r.position.y <= max.y && (r.vslider.Some? <==> v.vslider.Some?)
    ensures r.position.x == v.position.x && r.hslider == v.hslider
  {
    AfterSetY(v, max, max.y - s)
  }

  /** Everything that can change the scroll state: a direct call of set_x or
      set_y, or a user moving one of the sliders (the horizontal slider's
      callback is set_x itself). */
  datatype Op = SetX(value: int) | SetY(value: int) | VSliderMoved(value: int) | HSliderMoved(value: int)

  function Step(v: View, max: Vec, op: Op): View
    requires max.x >= 0 && max.y >= 0
  {
    match op
    case SetX(value) => AfterSetX(v, max, value)
    case SetY(value) => AfterSetY(v, max, value)
    case VSliderMoved(s) => AfterVSliderCb(v, max, s)
    case HSliderMoved(s) => AfterSetX(v, max, s)
  }

  function Run(v: View, max: Vec, ops: seq<Op>): View
    requires max.x >= 0 && max.y >= 0
    decreases |ops|
  {
    if ops == [] then v else Run(Step(v, max, ops[0]), max, ops[1..])
  }

  /** One operation keeps the offset in range and the vertical slider in
      step, keeps the horizontal slider in step once it is, and never
      attaches or detaches a slider. */
  lemma StepKeepsConsistent(v: View, max: Vec, op: Op)
    requires max.x >= 0 && max.y >= 0 && Consistent(v, max)
    ensures Consistent(Step(v, max, op), max)
    ensures HSynced(v) ==> HSynced(Step(v, max, op))
    ensures Step(v, max, op).vslider.Some? == v.vslider.Some?
    ensures Step(v, max, op).hslider.Some? == v.hslider.Some?
  {
  }

  /** The offset stays within [0, max_position] and the vertical slider shows
      max_position.y - y, whatever sequence of calls and slider moves comes. */
  lemma {:induction false} RunKeepsConsistent(v: View, max: Vec, ops: seq<Op>)
    requires max.x >= 0 && max.y >= 0 && Consistent(v, max)
    ensures Consistent(Run(v, max, ops), max)
    ensures HSynced(v) ==> HSynced(Run(v, max, ops))
    ensures Run(v, max, ops).vslider.Some? == v.vslider.Some?
    ensures Run(v, max, ops).hslider.Some? == v.hslider.Some?
    decreases |ops|
  {
    if ops != [] {
      StepKeepsConsistent(v, max, ops[0]);
      RunKeepsConsistent(Step(v, max, ops[0]), max, ops[1..]);
    }
  }

  /** Reading the vertical slider after set_y(y) and scrolling to
      max.y - value restores the offset set_y stored; a slider callback that
      reports the value it already shows changes nothing. */
  lemma SetYRoundTrip(v: View, max: Vec, y: int)
    requires max.y >= 0 && v.vslider.Some?
    ensures var a := AfterSetY(v, max, y);
      AfterSetY(a, max, max.y - a.vslider.value) == a &&
      AfterVSliderCb(a, max, a.vslider.value) == a
    ensures 0 <= y <= max.y ==> AfterSetY(v, max, y).position.y == y
  {
  }

  /** Setting the same horizontal offset twice is the same as setting it once. */
  lemma SetXIdempotent(v: View, max: Vec, value: int)
    requires max.x >= 0
    ensures AfterSetX(AfterSetX(v, max, value), max, value) == AfterSetX(v, max, value)
  {
  }

  /** on_touch: a touch at xy in the visible area is forwarded to the canvas
      shifted by the scroll offset; shifting back gives xy. */
  function TouchTarget(position: Vec, xy: Vec): (r: Vec)
    ensures Sub(r, position) == xy
    ensures r.x - xy.x == position.x && r.y - xy.y == position.y
  {
    Add(xy, position)
  }

  /** A touch inside the visible area lands inside the canvas, as long as the
      canvas is at least as large as the visible area. */
  lemma TouchInsideViewLandsOnCanvas(size: Vec, canvas: Vec, position: Vec, xy: Vec)
    requires canvas.x >= size.x && canvas.y >= size.y
    requires InRange(position, MaxPosition(size, canvas))
    requires RectAt(Vec(0, 0), size).Contains(xy)
    ensures RectAt(Vec(0, 0), canvas).Contains(TouchTarget(position, xy))
  {
  }

  /** draw: the part of the canvas shown is the rectangle at the offset with
      the size of the visible area. */
  function SourceRect(position: Vec, size: Vec): (r: Rect)
    ensures r.TopRight() == Vec(position.x + size.x, position.y)
    ensures r.BottomLeft() == Vec(position.x, position.y + size.y)
  {
    RectAt(position, size)
  }

  /** The shown rectangle never leaves the canvas when the canvas is at least
      as large as the visible area; at the largest offset it reaches the
      canvas's right and bottom edges. */
  lemma SourceRectWithinCanvas(size: Vec, canvas: Vec, position: Vec)
    requires canvas.x >= size.x >= 0 && canvas.y >= size.y >= 0
    requires InRange(position, MaxPosition(size, canvas))
    ensures SourceRect(position, size).Within(RectAt(Vec(0, 0), canvas))
    ensures position == MaxPosition(size, canvas) ==> SourceRect(position, size).BottomRight() == canvas
  {
  }

  /** VirtualPanel.get_abs_position as written: with a parent that has a
      scroll position, the parent's absolute position minus that position;
      otherwise the method calls the base class but does not return its
      result, so the caller gets None. */
  function AbsPositionAsWritten(parentAbs: Vec, parentPosition: Option<Vec>): (r: Option<Vec>)
    ensures r.Some? <==> parentPosition.Some?
    ensures parentPosition.Some? ==> Add(r.value, parentPosition.value) == parentAbs
  {
    if parentPosition.Some? then Some(Sub(parentAbs, parentPosition.value)) else None
  }

  /** get_abs_position as evidently intended: the fallback branch returns the
      base class's answer, given here as `fallback`. */
  function AbsPosition(parentAbs: Vec, parentPosition: Option<Vec>, fallback: Vec): (r: Vec)
    ensures parentPosition.Some? ==> Add(r, parentPosition.value) == parentAbs
    ensures parentPosition.None? ==> r == fallback
  {
    if parentPosition.Some? then Sub(parentAbs, parentPosition.value) else fallback
  }

  /** The two agree wherever the written one gives an answer, and the written
      one gives none exactly on the fallback branch. */
  lemma AbsPositionAsWrittenLosesFallback(parentAbs: Vec, parentPosition: Option<Vec>, fallback: Vec)
    ensures parentPosition.Some? ==> AbsPositionAsWritten(parentAbs, parentPosition) == Some(AbsPosition(parentAbs, parentPosition, fallback))
    ensures parentPosition.None? ==> AbsPositionAsWritten(parentAbs, parentPosition) == None
  {
  }

  /** Touch translation and the canvas's absolute position agree: the canvas
      point a touch is forwarded to is drawn on screen exactly where the
      finger is. */
  lemma TouchLandsUnderFinger(viewportAbs: Vec, position: Vec, xy: Vec, fallback: Vec)
    ensures Add(AbsPosition(viewportAbs, Some(position), fallback), TouchTarget(position, xy)) == Add(viewportAbs, xy)
  {
  }
}
