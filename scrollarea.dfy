/** The scrollable area of tingbot_gui: a ScrollArea lays out a ViewPort
    and up to two Sliders; the ViewPort holds the scroll offset into a
    larger VirtualPanel, keeps the sliders showing it, forwards touches to
    the panel shifted by the offset, and shows the panel's part at the
    offset. Every ViewPort method is proved to follow the value-level
    functions of ViewportSpec. */
module Scrollarea {
  import opened Geometry
  import opened ViewportSpec

  /** What a slider calls when the user moves it (its change_callback). */
  datatype Callback = NoCallback | CallsVSliderCb(vp: ViewPort) | CallsSetX(vp: ViewPort)

  /** The part of a Slider the scroll area relies on: where it sits, its
      value, its upper bound max_val (the lower bound is 0) and its callback
      slot. Writing `value` here is a plain field write that does not call
      the callback, so synchronising a slider cannot loop back. */
  class Slider {
    const rect: Rect
    var value: int
    var maxVal: int
    var callback: Callback

    /** The slider's own defaults for value and max_val belong to the Slider
        widget, which is not part of this model; they come in as parameters. */
    constructor (xy: Vec, size: Vec, initialValue: int, initialMax: int)
      ensures rect == RectAt(xy, size)
      ensures value == initialValue && maxVal == initialMax && callback == NoCallback
    {
      rect := RectAt(xy, size);
      value := initialValue;
      maxVal := initialMax;
      callback := NoCallback;
    }
  }

  /** The oversized surface the scrolled content is drawn on; its size is
      fixed when it is made. */
  class VirtualPanel {
    const initSize: Vec

    constructor (size: Vec)
      ensures initSize == size
    {
      initSize := size;
    }
  }

  class ViewPort {
    const size: Vec
    const canvasSize: Vec
    const maxPosition: Vec
    const panel: VirtualPanel
    /** The scroll offset [x, y], a list updated in place. */
    const position: array<int>
    const vslider: Slider?
    const hslider: Slider?

    /** The offset lies within [0, max_position], max_position is derived
        from the two sizes, and each slider is wired to this viewport with
        the matching range. The sliders' values are not part of it: a user
        moves a slider before its callback runs. */
    ghost predicate Valid()
      reads this, position, vslider, hslider
    {
      position.Length == 2 &&
      maxPosition == MaxPosition(size, canvasSize) &&
      panel.initSize == canvasSize &&
      InRange(Offset(), maxPosition) &&
      (vslider != null ==> vslider.maxVal == maxPosition.y && vslider.callback == CallsVSliderCb(this)) &&
      (hslider != null ==> hslider.maxVal == maxPosition.x && hslider.callback == CallsSetX(this)) &&
      (vslider != null && hslider != null ==> vslider != hslider)
    }

    function Offset(): Vec
      reads this, position
      requires position.Length == 2
    {
      Vec(position[0], position[1])
    }

    /** The scroll state as a value: the offset and the sliders' values. */
    function State(): View
      reads this, position, vslider, hslider
      requires position.Length == 2
    {
      View(Offset(),
           if vslider != null then Some(vslider.value) else None,
           if hslider != null then Some(hslider.value) else None)
    }

    /** The vertical slider shows the offset, inverted. */
    ghost predicate VSynced()
      reads this, position, vslider, hslider
      requires position.Length == 2
    {
      ViewportSpec.VSynced(State(), maxPosition)
    }

    /** The horizontal slider shows the offset. */
    ghost predicate HSynced()
      reads this, position, vslider, hslider
      requires position.Length == 2
    {
      ViewportSpec.HSynced(State())
    }

    /** The same slider object serving as both scrollbars is not modelled. */
    constructor (size: Vec, canvasSize: Vec, vslider: Slider?, hslider: Slider?)
      requires vslider != null && hslider != null ==> vslider != hslider
      modifies vslider, hslider
      ensures Valid() && VSynced()
      ensures this.size == size && this.canvasSize == canvasSize
      ensures this.vslider == vslider && this.hslider == hslider
      ensures fresh(position) && fresh(panel)
      ensures State() == Initial(maxPosition, vslider != null,
                                 if hslider != null then Some(old(hslider.value)) else None)
    {
      this.size := size;
      this.canvasSize := canvasSize;
      maxPosition := MaxPosition(size, canvasSize);
      panel := new VirtualPanel(canvasSize);
      position := new int[] [0, 0];
      this.vslider := vslider;
      this.hslider := hslider;
      new;
      if vslider != null {
        vslider.maxVal := maxPosition.y;
        vslider.value := maxPosition.y;
        vslider.callback := CallsVSliderCb(this);
      }
      if hslider != null {
        hslider.maxVal := maxPosition.x;
        hslider.callback := CallsSetX(this);
      }
    }

    /** set_x. The redraw request that follows is outside this model. */
    method SetX(value: int)
      requires Valid()
      modifies position, hslider
      ensures Valid()
      ensures State() == AfterSetX(old(State()), maxPosition, value)
      ensures position[0] == Clamp(0, maxPosition.x, value) && position[1] == old(position[1])
      ensures hslider != null ==> hslider.value == position[0]
      ensures old(VSynced()) ==> VSynced()
    {
      var x := Clamp(0, maxPosition.x, value);
      position[0] := x;
      if hslider != null {
        hslider.value := x;
      }
    }

    /** set_y. The redraw request that follows is outside this model. */
    method SetY(value: int)
      requires Valid()
      modifies position, vslider
      ensures Valid() && VSynced()
      ensures State() == AfterSetY(old(State()), maxPosition, value)
      ensures position[1] == Clamp(0, maxPosition.y, value) && position[0] == old(position[0])
      ensures vslider != null ==> vslider.value == maxPosition.y - position[1]
      ensures old(HSynced()) ==> HSynced()
    {
      var y := Clamp(0, maxPosition.y, value);
      position[1] := y;
      if vslider != null {
        vslider.value := maxPosition.y - y;
      }
    }

    /** vslider_cb: the vertical slider's callback. It runs after the slider
        has taken its new value, so it does not need the slider in step. */
    method VSliderCb(value: int)
      requires Valid()
      modifies position, vslider
      ensures Valid() && VSynced()
      ensures State() == AfterVSliderCb(old(State()), maxPosition, value)
      ensures 0 <= value <= maxPosition.y ==> position[1] == maxPosition.y - value
      ensures 0 <= value <= maxPosition.y && vslider != null ==> vslider.value == value
      ensures position[0] == old(position[0]) && (old(HSynced()) ==> HSynced())
    {
      SetY(maxPosition.y - value);
    }

    /** on_touch: what is handed on to the panel's touch handler. */
    function OnTouch<A>(xy: Vec, action: A): (r: (Vec, A))
      reads this, position
      requires position.Length == 2
      ensures r.0 == TouchTarget(Offset(), xy) && r.1 == action
    {
      (Add(xy, Offset()), action)
    }

    /** draw: the rectangle of the panel that is copied to (0, 0). */
    function DrawSource(): (r: Rect)
      reads this, position
      requires position.Length == 2
      ensures r == SourceRect(Offset(), size)
    {
      RectAt(Offset(), size)
    }
  }

  /** Space a bar takes from the other axis. */
  function Reserve(bar: bool, scrollbarWidth: int): int {
    if bar then scrollbarWidth else 0
  }

  /** Each bar is present exactly when the canvas overhangs the room the
      other bar leaves on its axis. */
  ghost predicate Settled(size: Vec, canvas: Vec, scrollbarWidth: int, hbar: bool, vbar: bool) {
    (hbar <==> canvas.x > size.x - Reserve(vbar, scrollbarWidth)) &&
    (vbar <==> canvas.y > size.y - Reserve(hbar, scrollbarWidth))
  }

  /** No settled choice of bars gets by without one of these bars. */
  ghost predicate Fewest(size: Vec, canvas: Vec, scrollbarWidth: int, hbar: bool, vbar: bool) {
    forall h: bool, v: bool :: Settled(size, canvas, scrollbarWidth, h, v) ==> (hbar ==> h) && (vbar ==> v)
  }

  /** The layout step of ScrollArea.__init__: which scrollbars are needed and
      the rectangle left for the viewport. */
  method Layout(size: Vec, canvasSize: Vec, scrollbarWidth: nat) returns (rect: Rect, vscrollbar: bool, hscrollbar: bool)
    ensures rect.left == 0 && rect.top == 0
    ensures rect.width == size.x - Reserve(vscrollbar, scrollbarWidth)
    ensures rect.height == size.y - Reserve(hscrollbar, scrollbarWidth)
    ensures hscrollbar <==> canvasSize.x > rect.width
    ensures vscrollbar <==> canvasSize.y > rect.height
    ensures Settled(size, canvasSize, scrollbarWidth, hscrollbar, vscrollbar)
    ensures Fewest(size, canvasSize, scrollbarWidth, hscrollbar, vscrollbar)
  {
    rect := Rect(0, 0, size.x, size.y);
    vscrollbar, hscrollbar := false, false;
    if canvasSize.x > rect.Right() {
      rect := rect.(height := rect.height - scrollbarWidth);
      hscrollbar := true;
    }
    if canvasSize.y > rect.Bottom() {
      rect := rect.(width := rect.width - scrollbarWidth);
      vscrollbar := true;
    }
    if canvasSize.x > rect.Right() && !hscrollbar {
      rect := rect.(height := rect.height - scrollbarWidth);
      hscrollbar := true;
    }
  }

  /** Where the vertical slider goes: at the viewport's top right, as wide as
      a scrollbar and reaching down to the viewport's bottom. */
  function VSliderRect(view: Rect, scrollbarWidth: int): (r: Rect)
    ensures r.DisjointFrom(view)
    ensures r.left == view.Right() && r.width == scrollbarWidth
    ensures view.top == 0 ==> r.top == view.top && r.Bottom() == view.Bottom()
  {
    RectAt(view.TopRight(), Vec(scrollbarWidth, view.Bottom()))
  }

  /** Where the horizontal slider goes: at the viewport's bottom left, as
      tall as a scrollbar and reaching across to the viewport's right. */
  function HSliderRect(view: Rect, scrollbarWidth: int): (r: Rect)
    ensures r.DisjointFrom(view)
    ensures r.top == view.Bottom() && r.height == scrollbarWidth
    ensures view.left == 0 ==> r.left == view.left && r.Right() == view.Right()
  {
    RectAt(view.BottomLeft(), Vec(view.Right(), scrollbarWidth))
  }

  /** Viewport and sliders share out the widget without overlapping. */
  lemma BarsFitBesideViewport(size: Vec, scrollbarWidth: nat, hbar: bool, vbar: bool)
    requires size.x >= Reserve(vbar, scrollbarWidth) && size.y >= Reserve(hbar, scrollbarWidth)
    ensures var view := Rect(0, 0, size.x - Reserve(vbar, scrollbarWidth), size.y - Reserve(hbar, scrollbarWidth));
      var whole := RectAt(Vec(0, 0), size);
      view.Within(whole) &&
      (vbar ==> VSliderRect(view, scrollbarWidth).Within(whole)) &&
      (hbar ==> HSliderRect(view, scrollbarWidth).Within(whole)) &&
      VSliderRect(view, scrollbarWidth).DisjointFrom(HSliderRect(view, scrollbarWidth))
  {
  }

  datatype Error = ValueError(message: string)

  datatype Result<T> = Success(value: T) | Failure(error: Error)

  class ScrollArea {
    const size: Vec
    const canvasSize: Vec
    const scrollbarWidth: nat
    const vslider: Slider?
    const hslider: Slider?
    const viewport: ViewPort

    /** What __init__ settles once and for all: the viewport scrolls a panel
        of the requested canvas size, the bars present are the settled and
        fewest choice, the viewport gets the room the bars leave, and the
        sliders sit beside it and are the viewport's own. */
    ghost predicate Valid() {
      viewport.canvasSize == canvasSize && viewport.panel.initSize == canvasSize &&
      viewport.vslider == vslider && viewport.hslider == hslider &&
      Settled(size, canvasSize, scrollbarWidth, hslider != null, vslider != null) &&
      Fewest(size, canvasSize, scrollbarWidth, hslider != null, vslider != null) &&
      viewport.size == Vec(size.x - Reserve(vslider != null, scrollbarWidth),
                           size.y - Reserve(hslider != null, scrollbarWidth)) &&
      (vslider != null ==> vslider.rect == VSliderRect(RectAt(Vec(0, 0), viewport.size), scrollbarWidth)) &&
      (hslider != null ==> hslider.rect == HSliderRect(RectAt(Vec(0, 0), viewport.size), scrollbarWidth))
    }

    /** ScrollArea.__init__ once canvas_size is known; see NewScrollArea. */
    constructor (size: Vec, canvasSize: Vec, scrollbarWidth: nat, sliderValue: int, sliderMax: int)
      ensures Valid()
      ensures this.size == size && this.canvasSize == canvasSize && this.scrollbarWidth == scrollbarWidth
      ensures viewport.Valid() && viewport.VSynced()
      ensures viewport.State() == Initial(viewport.maxPosition, vslider != null,
                                          if hslider != null then Some(sliderValue) else None)
      ensures fresh(viewport) && fresh(viewport.position)
      ensures (vslider != null ==> fresh(vslider)) && (hslider != null ==> fresh(hslider))
    {
      var rect, vscrollbar, hscrollbar := Layout(size, canvasSize, scrollbarWidth);
      var vs: Slider? := null;
      var hs: Slider? := null;
      if vscrollbar {
        vs := new Slider(rect.TopRight(), Vec(scrollbarWidth, rect.Bottom()), sliderValue, sliderMax);
      }
      if hscrollbar {
        hs := new Slider(rect.BottomLeft(), Vec(rect.Right(), scrollbarWidth), sliderValue, sliderMax);
      }
      this.size := size;
      this.canvasSize := canvasSize;
      this.scrollbarWidth := scrollbarWidth;
      vslider := vs;
      hslider := hs;
      viewport := new ViewPort(rect.BottomRight(), canvasSize, vs, hs);
    }

    /** scrolled_area: the panel to draw the scrolled content on. */
    function ScrolledArea(): (p: VirtualPanel)
      requires Valid()
      ensures p.initSize == canvasSize && p == viewport.panel
    {
      viewport.panel
    }
  }

  /** ScrollArea(...): fails with ValueError, before anything is built, when
      canvas_size is missing. */
  method NewScrollArea(size: Vec, canvasSize: Option<Vec>, scrollbarWidth: nat, sliderValue: int, sliderMax: int)
    returns (r: Result<ScrollArea>)
    ensures r.Failure? <==> canvasSize.None?
    ensures r.Failure? ==> r.error == ValueError("canvas_size must be specified")
    ensures r.Success? ==> fresh(r.value) && r.value.Valid() &&
                           r.value.size == size && r.value.canvasSize == canvasSize.value &&
                           r.value.scrollbarWidth == scrollbarWidth
    ensures r.Success? ==> var vp := r.value.viewport;
                           vp.Valid() && vp.VSynced() &&
                           vp.State() == Initial(vp.maxPosition, vp.vslider != null,
                                                 if vp.hslider != null then Some(sliderValue) else None)
  {
    if canvasSize.None? {
      return Failure(ValueError("canvas_size must be specified"));
    }
    var area := new ScrollArea(size, canvasSize.value, scrollbarWidth, sliderValue, sliderMax);
    r := Success(area);
  }

  /** The layouts for a 200 x 150 area with 20-pixel scrollbars. */
  method LayoutExamples() {
    var rect, v, h := Layout(Vec(200, 150), Vec(400, 400), 20);
    assert h && v && rect.width == 180 && rect.height == 130;
    rect, v, h := Layout(Vec(200, 150), Vec(400, 140), 20);
    assert h && v && rect.width == 180 && rect.height == 130;
    rect, v, h := Layout(Vec(200, 150), Vec(400, 120), 20);
    assert h && !v && rect.width == 200 && rect.height == 130;
    rect, v, h := Layout(Vec(200, 150), Vec(190, 400), 20);
    assert h && v && rect.width == 180 && rect.height == 130;
    rect, v, h := Layout(Vec(200, 150), Vec(180, 400), 20);
    assert !h && v && rect.width == 180 && rect.height == 150;
  }
}
