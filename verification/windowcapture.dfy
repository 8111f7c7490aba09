/**
  The geometry part of `WindowCapture`: resolving the window to capture, cutting the
  border and titlebar off its outer rectangle, and translating points of the cropped
  image to screen positions.

  The operating system is a parameter (`WindowSystem`): the desktop handle, the
  handles of titled windows, and the outer rectangle it reports for each handle.
  The DPI scaling factor and the focused-window setting are inputs.
*/
module WindowCapture {
  import opened Wrappers
  import opened Points

  /** A window handle; the NULL handle is represented by absence (`None`). */
  type Handle = h: int | h > 0 witness 1

  /** An outer window rectangle in screen pixels, as the window system reports it. */
  datatype Rect = Rect(left: int, top: int, right: int, bottom: int)

  /** What the window system answers: the desktop window, the window for each title,
      and the outer rectangle of each window. */
  datatype WindowSystem = WindowSystem(desktop: Handle, titled: map<string, Handle>, rects: map<Handle, Rect>)
  {
    /** The system reports a rectangle for every handle it hands out. */
    predicate RectForEveryHandle()
    {
      desktop in rects && forall name :: name in titled ==> titled[name] in rects
    }
  }

  /** Raised at construction when a named window does not exist. */
  datatype CaptureError = WindowNotFound(name: string)

  // Border and titlebar thickness, in pixels per unit of DPI scaling.
  const BorderPerScale: int := 1
  const TitlebarPerScale: int := 33

  /** The geometry fixed at construction: the resolved window, its outer rectangle,
      the allowances cut off, the cropped size, the crop origin inside the window, the
      screen offset of the cropped image, and what the capture copies from: the device
      context (`window`, `None` for the whole screen) and the origin inside it. */
  datatype Geometry = Geometry(
    hwnd: Handle,
    rect: Rect,
    scaling: nat,
    borderPixels: int,
    titlebarPixels: int,
    w: int,
    h: int,
    croppedX: int,
    croppedY: int,
    offsetX: int,
    offsetY: int,
    window: Option<Handle>,
    source: Point)

  /** The window system's title lookup: `None` stands for the NULL handle. */
  function FindWindow(os: WindowSystem, name: string): Option<Handle>
  {
    if name in os.titled then Some(os.titled[name]) else None
  }

  /** Handle resolution at construction: no name means the desktop, a name that does
      not resolve raises. */
  function ResolveWindow(name: Option<string>, os: WindowSystem): (r: Result<Handle, CaptureError>)
    ensures name.None? ==> r == Success(os.desktop)
    ensures name.Some? ==> (r.Failure? <==> name.value !in os.titled)
    ensures name.Some? && r.Success? ==> r.value == os.titled[name.value]
    ensures r.Failure? ==> name.Some? && r.error == WindowNotFound(name.value)
  {
    match name
    case None => Success(os.desktop)
    case Some(n) =>
      match FindWindow(os, n)
      case None => Failure(WindowNotFound(n))
      case Some(hwnd) => Success(hwnd)
  }

  /** The geometry computed from the resolved handle, its outer rectangle, the DPI
      scaling and the focused-window setting. */
  function ComputeGeometry(hwnd: Handle, rect: Rect, scaling: nat, focused: bool): Geometry
  {
    var border := BorderPerScale * scaling;
    var titlebar := TitlebarPerScale * scaling;
    var w := (rect.right - rect.left) - border * 2;
    var h := (rect.bottom - rect.top) - titlebar - border;
    var offsetX := rect.left + border;
    var offsetY := rect.top + titlebar;
    Geometry(hwnd, rect, scaling, border, titlebar, w, h, border, titlebar, offsetX, offsetY,
             if focused then Some(hwnd) else None,
             if focused then Point(border, titlebar) else Point(offsetX, offsetY))
  }

  /** `g` is what construction computes from its own inputs. */
  predicate Consistent(g: Geometry)
  {
    g == ComputeGeometry(g.hwnd, g.rect, g.scaling, g.window.Some?)
  }

  /** Construction: resolve the window, ask for its rectangle, compute the geometry. */
  function Open(name: Option<string>, os: WindowSystem, scaling: nat, focused: bool): (r: Result<Geometry, CaptureError>)
    requires os.RectForEveryHandle()
    ensures r.Success? <==> ResolveWindow(name, os).Success?
    ensures r.Success? ==> Consistent(r.value)
    ensures r.Success? ==> r.value.hwnd == ResolveWindow(name, os).value
    ensures r.Success? ==> r.value.rect == os.rects[r.value.hwnd]
    ensures r.Success? ==> r.value.scaling == scaling && r.value.window.Some? == focused
    ensures r.Failure? ==> r == Failure(WindowNotFound(name.value))
  {
    match ResolveWindow(name, os)
    case Failure(e) => Failure(e)
    case Success(hwnd) => Success(ComputeGeometry(hwnd, os.rects[hwnd], scaling, focused))
  }

  /** Translates a point of the cropped image to a screen position. */
  function GetScreenPosition(g: Geometry, p: Point): Point
  {
    Point(p.x + g.offsetX, p.y + g.offsetY)
  }

  /** The inverse translation, from a screen position back to the cropped image. */
  function ScreenToCropped(g: Geometry, s: Point): Point
  {
    Point(s.x - g.offsetX, s.y - g.offsetY)
  }

  /** The size of the cropped image. */
  function GetDimension(g: Geometry): (r: (int, int))
    requires Consistent(g)
    ensures r.0 + 2 * g.scaling == g.rect.right - g.rect.left
    ensures r.1 + 34 * g.scaling == g.rect.bottom - g.rect.top
  {
    (g.w, g.h)
  }

  /** The allowances follow the DPI scaling, and the crop starts right after them. */
  lemma AllowancesFollowScaling(g: Geometry)
    requires Consistent(g)
    ensures g.borderPixels == g.scaling
    ensures g.titlebarPixels == 33 * g.scaling
    ensures (g.croppedX, g.croppedY) == (g.borderPixels, g.titlebarPixels)
  {
  }

  /** Cutting the border off both sides, and the titlebar and border off top and
      bottom, gives the cropped size; nothing guards a window smaller than that. */
  lemma CroppedSizePositiveIff(g: Geometry)
    requires Consistent(g)
    ensures g.w > 0 <==> g.rect.right - g.rect.left > 2 * g.scaling
    ensures g.h > 0 <==> g.rect.bottom - g.rect.top > 34 * g.scaling
  {
  }

  /** The offset is the window's top-left corner moved by the crop origin, and it is
      where the cropped image's origin lands on screen. */
  lemma OffsetIsCropOriginOnScreen(g: Geometry)
    requires Consistent(g)
    ensures Point(g.offsetX, g.offsetY) == Add(Point(g.rect.left, g.rect.top), Point(g.croppedX, g.croppedY))
    ensures GetScreenPosition(g, Point(0, 0)) == Point(g.offsetX, g.offsetY)
  {
  }

  /** The screen mapping is a translation: it preserves the vector between any two points. */
  lemma ScreenPositionIsTranslation(g: Geometry, p: Point, q: Point)
    ensures Sub(GetScreenPosition(g, p), GetScreenPosition(g, q)) == Sub(p, q)
  {
  }

  /** `ScreenToCropped` undoes `GetScreenPosition` and the other way round. */
  lemma ScreenPositionRoundTrip(g: Geometry, p: Point, s: Point)
    ensures ScreenToCropped(g, GetScreenPosition(g, p)) == p
    ensures GetScreenPosition(g, ScreenToCropped(g, s)) == s
  {
  }

  /** `p` lies inside the cropped image. */
  predicate InCroppedImage(g: Geometry, p: Point)
  {
    0 <= p.x < g.w && 0 <= p.y < g.h
  }

  /** `s` lies in the part of the outer rectangle that is neither border nor titlebar,
      measured from the rectangle and the scaling alone. */
  predicate InClientArea(rect: Rect, scaling: nat, s: Point)
  {
    rect.left + scaling <= s.x < rect.right - scaling
    && rect.top + 33 * scaling <= s.y < rect.bottom - scaling
  }

  /** A point is in the cropped image exactly when its screen position is in the
      window's client area. */
  lemma CroppedImageIsClientArea(g: Geometry, p: Point)
    requires Consistent(g)
    ensures InCroppedImage(g, p) <==> InClientArea(g.rect, g.scaling, GetScreenPosition(g, p))
  {
  }

  /** The screen position of the device context the capture copies from: the window's
      top-left corner for the window's own context, the screen origin otherwise. */
  function ContextOrigin(g: Geometry): Point
  {
    if g.window.Some? then Point(g.rect.left, g.rect.top) else Point(0, 0)
  }

  /** In both settings the capture copies the same screen region: its source origin,
      placed on screen through its device context, is the offset. In focused mode the
      source is the crop origin inside the window, otherwise the absolute offset. */
  lemma CaptureSourceIsOffset(g: Geometry)
    requires Consistent(g)
    ensures Add(ContextOrigin(g), g.source) == Point(g.offsetX, g.offsetY)
    ensures g.window.Some? ==> g.window.value == g.hwnd && g.source == Point(g.croppedX, g.croppedY)
    ensures g.window.None? ==> g.source == Point(g.offsetX, g.offsetY)
  {
  }
}
