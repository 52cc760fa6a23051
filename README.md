# Scrollable area of tingbot_gui, modelled in Dafny

This project models the scrollable area of the tingbot_gui widget toolkit. It covers
`tingbot_gui/scrollarea.py`, which has three parts:

- **ViewPort** holds a scroll offset `position = [x, y]` into a larger `VirtualPanel`.
  The offset is always clamped into `[0, max_position]`, where
  `max_position = max(0, canvas_size - size)` on each axis.
  - A horizontal slider shows `x` directly.
  - A vertical slider shows `max_position.y - y`, so it reads inverted.
  - A touch is forwarded to the panel shifted by the offset.
  - Drawing copies the panel's rectangle `(position, size)`.
- **ScrollArea** decides which scrollbars it needs and shrinks the viewport rectangle by
  `scrollbar_width` for each one. It then places the sliders beside the viewport and builds
  the ViewPort. It raises `ValueError` when `canvas_size` is missing.
- **VirtualPanel.get_abs_position** gives the panel's screen position. This is the
  parent's absolute position minus the parent's scroll offset.

The project has three files:
- `geometry.dfy` (module `Geometry`): integer pairs, the `pygame.Rect` subset used by the
  layout, and `Clamp`.
- `viewport_spec.dfy` (module `ViewportSpec`): the scroll state as a value (`View`), what
  each operation does to it, and the lemmas about those functions.
- `scrollarea.dfy` (module `Scrollarea`): the classes `Slider`, `VirtualPanel`, `ViewPort`
  and `ScrollArea`, the layout method `Layout`, and `NewScrollArea`, which models the
  failing constructor call.

The `ViewPort` methods update the `position` array and the sliders' fields in place. Each
one proves that its new `State()` equals the matching `ViewportSpec` function applied to
the old state. The properties are then proved about those functions.

Notes on what the code does:
- **A canvas of 400 x 140 in a 200 x 150 area, with 20-pixel scrollbars, gets both
  scrollbars.** The horizontal bar leaves a height of 130, and 140 > 130 (`Scrollarea.LayoutExamples`).
- **The layout's one-sided re-check (lines 104-106) already reaches a fixed point.** Each
  bar is present exactly when the canvas overhangs the room the other bar leaves
  (`Settled`). No settled choice of bars uses fewer bars (`Fewest`). So the asymmetry gives
  the same answer as a symmetric fixed-point loop would.
- **`get_abs_position` returns nothing when the parent has no `position`.** It does not
  fall back to the base class's position (see Findings).

## Model

| member | source | states |
|---|---|---|
| `Geometry.Clamp` | tingbot_gui/scrollarea.py:48 | The result never exceeds `hi`. It is at least `lo` when `lo <= hi`. An in-range value is kept, a value below `lo` becomes `lo`, and a value above `hi` becomes `hi`. |
| `Geometry.Add` | tingbot_gui/scrollarea.py:68 | Componentwise sum. Taking `b` away again gives `a`. |
| `Geometry.Sub` | tingbot_gui/scrollarea.py:21 | Componentwise difference. Adding `b` back gives `a`. |
| `ViewportSpec.MaxPosition` | tingbot_gui/scrollarea.py:35-36 | Each axis is never negative. It is the larger of 0 and `canvas - size`, so it is 0 when the canvas is not larger. |
| `ViewportSpec.Initial` | tingbot_gui/scrollarea.py:34-45 | The state after construction: the offset is (0, 0), the offset is in range, and a vertical slider shows `max_position.y`. This agrees with the inverted mapping at y = 0. The horizontal slider's value is left as it was. |
| `ViewportSpec.AfterSetX` | tingbot_gui/scrollarea.py:47-52 | `x` is the request clamped into `[0, max.x]`: an in-range request is kept, a negative one gives 0, an excessive one gives `max.x`. The horizontal slider then shows `x`. `y` and the vertical slider are untouched. |
| `ViewportSpec.AfterSetY` | tingbot_gui/scrollarea.py:54-59 | `y` is the request clamped into `[0, max.y]`. The vertical slider shows `max.y - y`. `x` and the horizontal slider are untouched. |
| `ViewportSpec.AfterVSliderCb` | tingbot_gui/scrollarea.py:61-63 | A slider value `s` in `[0, max.y]` scrolls to `max.y - s` and leaves the slider showing `s`. Below 0 it scrolls to the bottom, above `max.y` to the top, and it never fails. `x` is untouched. |
| `ViewportSpec.StepKeepsConsistent` | tingbot_gui/scrollarea.py:47-63 | One call of set_x, set_y or either slider callback keeps the offset in range and the vertical slider in step. It keeps the horizontal slider in step once it is, and never adds or removes a slider. |
| `ViewportSpec.RunKeepsConsistent` | tingbot_gui/scrollarea.py:34-63 | The same holds for any sequence of such calls. This is proved by induction over the sequence. |
| `ViewportSpec.SetYRoundTrip` | tingbot_gui/scrollarea.py:54-63 | With a vertical slider: after `set_y(y)`, scrolling to `max.y` minus the slider's value restores the state. A vertical callback that reports the slider's current value changes nothing, so the two sides do not drift. An in-range `y` is stored as given. |
| `ViewportSpec.SetXIdempotent` | tingbot_gui/scrollarea.py:47-51 | Setting the same horizontal offset twice equals setting it once. |
| `ViewportSpec.TouchTarget` | tingbot_gui/scrollarea.py:65-68 | The forwarded point minus the offset is the touched point, on both axes. |
| `ViewportSpec.TouchInsideViewLandsOnCanvas` | tingbot_gui/scrollarea.py:65-68 | When the canvas is at least as large as the view, a touch inside the view lands inside the canvas for every in-range offset. |
| `ViewportSpec.SourceRect` | tingbot_gui/scrollarea.py:70-72 | The copied rectangle starts at the offset and has the view's width and height. |
| `ViewportSpec.SourceRectWithinCanvas` | tingbot_gui/scrollarea.py:70-72 | When the canvas is at least as large as the view, the copied rectangle lies inside the canvas for every in-range offset. At the largest offset it reaches the canvas's bottom-right corner. |
| `ViewportSpec.AbsPositionAsWritten` | tingbot_gui/scrollarea.py:19-23 | It gives a result exactly when the parent has a scroll position. That result plus the position is the parent's absolute position. |
| `ViewportSpec.AbsPosition` | tingbot_gui/scrollarea.py:19-23 | The corrected form. It is the same with a scroll position, and the base class's answer (`fallback`) without one. |
| `ViewportSpec.AbsPositionAsWrittenLosesFallback` | tingbot_gui/scrollarea.py:22-23 | The written form agrees with the corrected one when the parent has a position. It gives None exactly where the corrected one falls back. |
| `ViewportSpec.TouchLandsUnderFinger` | tingbot_gui/scrollarea.py:65-68 | The panel's absolute position plus the forwarded touch point is the touched screen point. So on_touch and get_abs_position agree. |
| `Scrollarea.Slider.constructor` | tingbot_gui/scrollarea.py:107-123 | A slider occupies the rectangle at `xy` with the given size. Its callback slot starts empty. |
| `Scrollarea.VirtualPanel.constructor` | tingbot_gui/scrollarea.py:12-14 | The panel keeps the canvas size it was made with. |
| `Scrollarea.ViewPort.constructor` | tingbot_gui/scrollarea.py:30-45 | Establishes the invariant. The offset is (0, 0), and `max_position` is derived from the sizes. A vertical slider gets `max_val == value == max_position.y` and the `vslider_cb` callback. A horizontal slider gets `max_val == max_position.x` and the `set_x` callback, and keeps its value. |
| `Scrollarea.ViewPort.SetX` | tingbot_gui/scrollarea.py:47-52 | The new state is `AfterSetX` of the old one. `position[0]` is the clamped request and `position[1]` is unchanged. The horizontal slider shows `position[0]`. The invariant and the vertical sync are kept. |
| `Scrollarea.ViewPort.SetY` | tingbot_gui/scrollarea.py:54-59 | The new state is `AfterSetY` of the old one. `position[1]` is the clamped request and `position[0]` is unchanged. The vertical slider shows `max_position.y - position[1]`. No callback is fired. |
| `Scrollarea.ViewPort.VSliderCb` | tingbot_gui/scrollarea.py:61-63 | The new state is `AfterVSliderCb` of the old one. A value in range gives `position[1] == max_position.y - value` and leaves the slider at `value`. It works even though the slider's value had moved out of step. |
| `Scrollarea.ViewPort.OnTouch` | tingbot_gui/scrollarea.py:65-68 | It forwards `TouchTarget(position, xy)` and passes the action through unchanged. |
| `Scrollarea.ViewPort.DrawSource` | tingbot_gui/scrollarea.py:70-72 | The rectangle copied from the panel is `SourceRect(position, size)`. |
| `Scrollarea.Layout` | tingbot_gui/scrollarea.py:92-106 | Each axis shrinks by `scrollbar_width` exactly when the other axis's bar is present, and at most once. The bars form a fixed point: a horizontal bar exactly when the canvas is wider than the final width, and a vertical bar exactly when it is taller than the final height. No other fixed point uses fewer bars. |
| `Scrollarea.VSliderRect` | tingbot_gui/scrollarea.py:107-115 | The vertical slider starts at the viewport's right edge, is `scrollbar_width` wide, spans the viewport's height, and does not overlap the viewport. |
| `Scrollarea.HSliderRect` | tingbot_gui/scrollarea.py:116-123 | The horizontal slider starts at the viewport's bottom edge, is `scrollbar_width` tall, spans the viewport's width, and does not overlap the viewport. |
| `Scrollarea.BarsFitBesideViewport` | tingbot_gui/scrollarea.py:107-129 | When the widget is at least `scrollbar_width` on each axis that gives up room to a bar, the viewport and each present slider lie inside the widget, and the two sliders do not overlap. A smaller widget gives the viewport a negative size and puts the slider outside the widget. |
| `Scrollarea.ScrollArea.constructor` | tingbot_gui/scrollarea.py:91-129 | Establishes `ScrollArea.Valid`: the bars present are the settled, fewest choice. The viewport is the widget size less the reserved space. The sliders sit at `VSliderRect`/`HSliderRect` of the viewport and are wired into it. The viewport starts valid at offset (0, 0). |
| `Scrollarea.ScrollArea.ScrolledArea` | tingbot_gui/scrollarea.py:147-149 | It returns the viewport's panel, which has the requested canvas size. |
| `Scrollarea.NewScrollArea` | tingbot_gui/scrollarea.py:87-90 | It fails with `ValueError("canvas_size must be specified")` exactly when `canvas_size` is missing, before anything is built. Otherwise it returns a new scroll area with everything the constructor establishes: the settled, fewest bars, the viewport size, the slider rectangles (all in `ScrollArea.Valid`), and a valid viewport at offset (0, 0) with the vertical slider in step. |

## Findings

| source | as written | input that shows it | evidently intended | confidence | as-written member | corrected member |
|---|---|---|---|---|---|---|
| tingbot_gui/scrollarea.py:22-23 | The else branch calls the base class's `get_abs_position` but does not return it, so the method returns None. | A `VirtualPanel` whose parent has no `position` attribute. | Return the base class's absolute position. | high for the missing return, not executed; not reached once ViewPort.__init__ has set position (line 34) | `ViewportSpec.AbsPositionAsWritten` (with `ViewportSpec.AbsPositionAsWrittenLosesFallback`) | `ViewportSpec.AbsPosition` (used by `ViewportSpec.TouchLandsUnderFinger`) |

## Left out

- Redraw requests are not modelled. This covers `self.update()` in `set_x`/`set_y`, `ScrollArea.update`, the empty `ScrollArea.draw` and visibility. They belong to the `Container`/`Panel` base classes, and container.py is not part of this model.
- Pixel surfaces are not modelled. This covers `_create_surface` and the `blit` in `ViewPort.draw`, which are pygame calls. `draw` is modelled as the source rectangle it copies.
- Only the part of the Slider widget that the viewport uses is modelled: `value`, `max_val`, the callback slot and its rectangle. The Slider's own defaults for `value` and `max_val` are parameters, because slider.py is not part of this model. Slider drawing and the user drag that fires the callback are not modelled either; each callback is modelled as the ViewPort method it names.
- The slider synchronising writes (`hslider.value = ...`, `vslider.value = ...`) are plain field writes that do not fire the callback. Whether the real Slider's setter fires it cannot be seen here.
- `util.clamp` is not shown. `Clamp(lo, hi, v)` is taken to be `min(max(v, lo), hi)`, as the argument order at lines 48 and 55 suggests.
- Offsets and sizes are integers. Python's `int()` on floats, the second `int()` at line 56 and the unused `inverted` parameter of `set_y` are not modelled.
- The style object is modelled only as `scrollbar_width`. The slider colours and `style` are passed to the Slider widget and are not modelled. The area's own `xy` and `align` place the ScrollArea inside its parent, which container.py does and this model does not.
- `Scrollarea.BarsFitBesideViewport`, `Scrollarea.VSliderRect` and `Scrollarea.HSliderRect` assume the ViewPort's top-left corner is the layout rect's top-left corner (0, 0). Line 125 passes the caller's `align` to the ViewPort built at (0, 0), and `align` defaults to `"center"` (line 87). The sliders and the VirtualPanel are built with an explicit `'topleft'` (lines 13, 113, 121). If `align` is an anchor, as those calls suggest, any other `align` moves the viewport away from the rect the sliders are placed beside. What `align` does is defined in container.py, which is not part of this model. The model therefore places the viewport as with `'topleft'`, and its non-overlap and fit claims hold only then.
- `VirtualPanel`'s link to its parent is not modelled. `get_abs_position` takes the parent's absolute position and scroll position as parameters, because the parent's own absolute position comes from container.py.
- `Scrollarea.ViewPort.constructor` requires the vertical and horizontal sliders to be different objects when both are present. One object serving as both would make the two sync writes overwrite each other. ScrollArea always passes two new sliders.
- `tingbot_gui/__init__.py` only re-exports names.
