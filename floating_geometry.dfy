/**
 * The pure part of src/components/draggable-floating-icon.tsx: pointer
 * coordinates (`getClients`), the side test (`isInLeft`), the viewport class
 * and retract decision, the clamped drag position, and the inline style each
 * handler writes, as functions on an explicit style record. The handlers that
 * write these styles step by step are in module FloatingIcon.
 *
 * Pixels are reals: the source halves widths and heights. A style value the
 * handlers compute as `NaN` (a coordinate that is `undefined`) becomes the
 * text "NaNpx", which the browser rejects, so the property keeps its value;
 * Option<real> carries such a coordinate, None standing for NaN.
 */
module FloatingGeometry {
  import opened Wrappers

  const MaxMobileWidth: real := 768.0
  const RetractDelayMs: nat := 1500
  const DraggingZIndex: string := "9999"
  const RetractTransition: string := "all 0.5s ease-out"
  const DraggingTransition: string := "unset"
  const HiddenOverflow: string := "hidden"

  /** An inline length: `Other` is any value the handlers never write ("" when none is set, "10%", ...). */
  datatype Length = Px(px: real) | Auto | Other(text: string)

  /** The inline style properties the handlers touch. */
  datatype Style = Style(
    top: Length, left: Length, right: Length, bottom: Length,
    zIndex: string, transition: string, transformOrigin: string)

  /** `getBoundingClientRect()`; its `x` equals `left`, the box having a non-negative width. */
  datatype Rect = Rect(left: real, top: real, right: real, bottom: real)

  datatype Touch = Touch(clientX: real, clientY: real)

  /**
   * A drag or touch event. A drag event has no `touches`; a touch event has
   * no `clientX`/`clientY` of its own (None).
   */
  datatype PointerEvent = PointerEvent(touches: seq<Touch>, clientX: Option<real>, clientY: Option<real>)

  /** The pointer coordinates `getClients` returns; None is `undefined`. */
  datatype Clients = Clients(clientX: Option<real>, clientY: Option<real>)

  datatype Side = LeftSide | RightSide

  datatype ViewType = Desktop | Mobile

  /** `showFullSizeOpt`: one flag for every viewport, or one per viewport class (None: key absent). */
  datatype ShowFullSizeOpt = AllViews(show: bool) | PerView(desktop: Option<bool>, mobile: Option<bool>)

  // ---------------------------------------------------------------------
  // getClients, isInLeft, the viewport class
  // ---------------------------------------------------------------------

  /** `e?.touches?.[0]?.clientX || e.clientX`: a touch coordinate of 0 is falsy and falls back to the event's own. */
  function FirstOrFallback(touch: Option<real>, own: Option<real>): (c: Option<real>)
    ensures c.Some? && c != own ==> touch == c && c.value != 0.0
    ensures touch.Some? && touch.value != 0.0 ==> c == touch
    ensures !(touch.Some? && touch.value != 0.0) ==> c == own
  {
    if touch.Some? && touch.value != 0.0 then touch else own
  }

  /** `getClients`: each coordinate from the first touch when it is a non-zero number, else the event's own. */
  function GetClients(e: PointerEvent): (c: Clients)
    ensures |e.touches| == 0 ==> c == Clients(e.clientX, e.clientY)
    ensures |e.touches| > 0 && e.touches[0].clientX != 0.0 ==> c.clientX == Some(e.touches[0].clientX)
    ensures |e.touches| > 0 && e.touches[0].clientY != 0.0 ==> c.clientY == Some(e.touches[0].clientY)
    ensures |e.touches| > 0 && e.touches[0].clientX == 0.0 ==> c.clientX == e.clientX
    ensures |e.touches| > 0 && e.touches[0].clientY == 0.0 ==> c.clientY == e.clientY
  {
    var first := if |e.touches| > 0 then Some(e.touches[0]) else None;
    Clients(
      FirstOrFallback(if first.Some? then Some(first.value.clientX) else None, e.clientX),
      FirstOrFallback(if first.Some? then Some(first.value.clientY) else None, e.clientY))
  }

  /** A drag event carries its coordinates through unchanged. */
  lemma DragEventCoordinates(e: PointerEvent)
    requires e.touches == []
    ensures GetClients(e) == Clients(e.clientX, e.clientY)
  {
  }

  /** On a touch event, a first touch at x = 0 gives no x coordinate: the fallback is `undefined`. */
  lemma TouchAtZeroHasNoCoordinate(e: PointerEvent)
    requires |e.touches| > 0 && e.touches[0].clientX == 0.0 && e.clientX == None
    ensures GetClients(e).clientX == None
  {
  }

  /**
   * `isInLeft`: the element's centre lies strictly left of the viewport's
   * middle, that is, the box starts left of where it would start if centred.
   */
  function IsInLeft(rectX: real, scrollWidth: real, innerWidth: real): (left: bool)
    ensures left <==> rectX < (innerWidth - scrollWidth) / 2.0
  {
    rectX + scrollWidth / 2.0 < innerWidth / 2.0
  }

  /** `isInLeft` as the side it names. */
  function SideOf(rectX: real, scrollWidth: real, innerWidth: real): (side: Side)
    ensures side == LeftSide <==> rectX + scrollWidth / 2.0 < innerWidth / 2.0
  {
    if IsInLeft(rectX, scrollWidth, innerWidth) then LeftSide else RightSide
  }

  /** An element centred exactly on the middle counts as right. */
  lemma CentredIsRight(rectX: real, scrollWidth: real, innerWidth: real)
    requires rectX + scrollWidth / 2.0 == innerWidth / 2.0
    ensures SideOf(rectX, scrollWidth, innerWidth) == RightSide
  {
  }

  /** Mirroring a left-half element about the middle puts it on the right. */
  lemma MirrorIsRight(rectX: real, scrollWidth: real, innerWidth: real)
    requires SideOf(rectX, scrollWidth, innerWidth) == LeftSide
    ensures SideOf(innerWidth - rectX - scrollWidth, scrollWidth, innerWidth) == RightSide
  {
  }

  /** `window.innerWidth > maxMobileWidth ? 'desktop' : 'mobile'`. */
  function ViewTypeOf(innerWidth: real): (v: ViewType)
    ensures v == Desktop <==> innerWidth > MaxMobileWidth
  {
    if innerWidth > MaxMobileWidth then Desktop else Mobile
  }

  /**
   * `showAHalf`: the negation of the flag, or of the current viewport class's
   * entry, an absent entry being `undefined` and so retracting.
   */
  function ShowAHalf(opt: ShowFullSizeOpt, innerWidth: real): bool {
    match opt
    case AllViews(show) => !show
    case PerView(desktop, mobile) =>
      var entry := if ViewTypeOf(innerWidth) == Desktop then desktop else mobile;
      entry != Some(true)
  }

  /** One flag for every viewport: retraction is scheduled exactly when the flag is false, at every width. */
  lemma AllViewsRetractsUnlessFullSize(show: bool, innerWidth: real)
    ensures ShowAHalf(AllViews(show), innerWidth) <==> !show
  {
  }

  /**
   * Per viewport class: full size (no retraction) exactly when the entry for
   * the current class is present and true; a missing or false entry retracts.
   */
  lemma PerViewRetractsUnlessEntrySet(desktop: Option<bool>, mobile: Option<bool>, innerWidth: real)
    ensures var entry := if innerWidth > MaxMobileWidth then desktop else mobile;
      !ShowAHalf(PerView(desktop, mobile), innerWidth) <==> entry == Some(true)
    ensures innerWidth > MaxMobileWidth && desktop.None? ==> ShowAHalf(PerView(desktop, mobile), innerWidth)
    ensures innerWidth <= MaxMobileWidth && mobile.None? ==> ShowAHalf(PerView(desktop, mobile), innerWidth)
  {
  }

  /** Full size on desktops only: retraction is scheduled exactly on viewports at most 768 wide. */
  lemma DesktopOnlyRetractsOnMobile(innerWidth: real)
    ensures ShowAHalf(PerView(Some(true), Some(false)), innerWidth) <==> innerWidth <= 768.0
  {
  }

  // ---------------------------------------------------------------------
  // The position computed by handleDrag
  // ---------------------------------------------------------------------

  /** `Math.min(Math.max(0, v), bound)`. */
  function Clamp(v: real, bound: real): (r: real)
    ensures 0.0 <= bound ==> 0.0 <= r <= bound
    ensures bound < 0.0 ==> r == bound
    ensures 0.0 <= v <= bound ==> r == v
  {
    var atLeastZero := if 0.0 < v then v else 0.0;
    if atLeastZero < bound then atLeastZero else bound
  }

  /** When the interval [0, bound] is not empty, the clamp is its point nearest to `v`. */
  lemma ClampIsNearest(v: real, bound: real, y: real)
    requires 0.0 <= y <= bound
    ensures Dist(Clamp(v, bound), v) <= Dist(y, v)
  {
  }

  function Dist(a: real, b: real): real {
    if a < b then b - a else a - b
  }

  /**
   * `currentLeft - (currentX - clientX)` with `currentX` the box's centre: the
   * corner that puts the box's centre on the pointer.
   */
  function CentredCorner(lo: real, hi: real, pointer: real): (corner: real)
    ensures corner + (hi - lo) / 2.0 == pointer
  {
    lo - ((lo + hi) / 2.0 - pointer)
  }

  /** The clamped corner along one axis; NaN (None) stays NaN. */
  function DragOffset(lo: real, hi: real, pointer: Option<real>, bound: real): (r: Option<real>)
    ensures r.Some? <==> pointer.Some?
    ensures pointer.Some? ==> r == Some(Clamp(CentredCorner(lo, hi, pointer.value), bound))
    ensures r.Some? && 0.0 <= bound ==> 0.0 <= r.value <= bound
    ensures r.Some? && bound < 0.0 ==> r.value == bound
  {
    match pointer
    case Some(p) => Some(Clamp(CentredCorner(lo, hi, p), bound))
    case None => None
  }

  /** `width - left`, the same position measured from the right; NaN stays NaN. */
  function Mirrored(bound: real, offset: Option<real>): (r: Option<real>)
    ensures r.Some? <==> offset.Some?
    ensures r.Some? ==> r.value + offset.value == bound
  {
    match offset
    case Some(v) => Some(bound - v)
    case None => None
  }

  /** `style.x = v + 'px'`: a NaN value is rejected and the property keeps its value. */
  function AssignPx(current: Length, v: Option<real>): Length {
    match v
    case Some(px) => Px(px)
    case None => current
  }

  /** The style after a drag has placed the element: `top` and one horizontal side in pixels. */
  predicate DraggedShape(s: Style) {
    s.top.Px? && s.bottom == Auto && s.zIndex == DraggingZIndex
    && ((s.left.Px? && s.right == Auto) || (s.right.Px? && s.left == Auto))
  }

  /**
   * The style `handleDrag` leaves, from the style before, the pointer, the box
   * before the move, the element's scroll size and the viewport size. The
   * side is chosen from the box before the move.
   */
  function DraggedStyle(s: Style, c: Clients, rect: Rect,
                        scrollWidth: real, scrollHeight: real,
                        innerWidth: real, innerHeight: real): (r: Style)
    ensures r.bottom == Auto && r.zIndex == DraggingZIndex
    ensures r.transition == s.transition && r.transformOrigin == s.transformOrigin
    ensures c.clientX.Some? && c.clientY.Some? ==> DraggedShape(r)
    ensures c.clientY.None? ==> r.top == s.top
    ensures c.clientY.Some? && scrollHeight <= innerHeight ==> r.top.Px? && 0.0 <= r.top.px <= innerHeight - scrollHeight
    ensures c.clientY.Some? && innerHeight < scrollHeight ==> r.top == Px(innerHeight - scrollHeight)
    ensures c.clientY.Some? ==>
      r.top == Px(Clamp(CentredCorner(rect.top, rect.bottom, c.clientY.value), innerHeight - scrollHeight))
    ensures c.clientX.Some? && IsInLeft(rect.left, scrollWidth, innerWidth) ==>
      r.left == Px(Clamp(CentredCorner(rect.left, rect.right, c.clientX.value), innerWidth - scrollWidth))
    ensures c.clientX.Some? && !IsInLeft(rect.left, scrollWidth, innerWidth) ==>
      r.right == Px((innerWidth - scrollWidth) - Clamp(CentredCorner(rect.left, rect.right, c.clientX.value), innerWidth - scrollWidth))
    ensures IsInLeft(rect.left, scrollWidth, innerWidth) ==>
      r.right == Auto
      && (c.clientX.None? ==> r.left == s.left)
      && (c.clientX.Some? && scrollWidth <= innerWidth ==> r.left.Px? && 0.0 <= r.left.px <= innerWidth - scrollWidth)
      && (c.clientX.Some? && innerWidth < scrollWidth ==> r.left == Px(innerWidth - scrollWidth))
    ensures !IsInLeft(rect.left, scrollWidth, innerWidth) ==>
      r.left == Auto
      && (c.clientX.None? ==> r.right == s.right)
      && (c.clientX.Some? && scrollWidth <= innerWidth ==> r.right.Px? && 0.0 <= r.right.px <= innerWidth - scrollWidth)
      && (c.clientX.Some? && innerWidth < scrollWidth ==> r.right == Px(0.0))
  {
    var width := innerWidth - scrollWidth;
    var height := innerHeight - scrollHeight;
    var left := DragOffset(rect.left, rect.right, c.clientX, width);
    var top := DragOffset(rect.top, rect.bottom, c.clientY, height);
    var placed := s.(top := AssignPx(s.top, top), bottom := Auto, zIndex := DraggingZIndex);
    if IsInLeft(rect.left, scrollWidth, innerWidth) then
      placed.(left := AssignPx(s.left, left), right := Auto)
    else
      placed.(right := AssignPx(s.right, Mirrored(width, left)), left := Auto)
  }

  /**
   * Where the pointer lies inside the clamp bounds, the box's centre lands on
   * it: vertically, and horizontally whichever side the offset is written to.
   */
  lemma DragCentresOnPointer(s: Style, x: real, y: real, rect: Rect,
                             scrollWidth: real, scrollHeight: real,
                             innerWidth: real, innerHeight: real)
    requires 0.0 <= CentredCorner(rect.left, rect.right, x) <= innerWidth - scrollWidth
    requires 0.0 <= CentredCorner(rect.top, rect.bottom, y) <= innerHeight - scrollHeight
    ensures var r := DraggedStyle(s, Clients(Some(x), Some(y)), rect, scrollWidth, scrollHeight, innerWidth, innerHeight);
      r.top.px + (rect.bottom - rect.top) / 2.0 == y
      && (r.left.Px? ==> r.left.px + (rect.right - rect.left) / 2.0 == x)
      && (r.right.Px? ==> (innerWidth - scrollWidth - r.right.px) + (rect.right - rect.left) / 2.0 == x)
  {
  }

  /**
   * With the element fitting the viewport, the horizontal position written
   * (`left`, or `innerWidth - scrollWidth - right`) is the point of the
   * allowed range nearest to the centred corner: a pointer past an edge
   * snaps the element to that edge, never to the other one.
   */
  lemma DragSnapsToNearestEdge(s: Style, x: real, c: Clients, rect: Rect,
                               scrollWidth: real, scrollHeight: real,
                               innerWidth: real, innerHeight: real, y: real)
    requires c.clientX == Some(x) && scrollWidth <= innerWidth
    requires 0.0 <= y <= innerWidth - scrollWidth
    ensures var r := DraggedStyle(s, c, rect, scrollWidth, scrollHeight, innerWidth, innerHeight);
      var placed := if r.left.Px? then r.left.px else innerWidth - scrollWidth - r.right.px;
      var corner := CentredCorner(rect.left, rect.right, x);
      Dist(placed, corner) <= Dist(y, corner)
  {
    ClampIsNearest(CentredCorner(rect.left, rect.right, x), innerWidth - scrollWidth, y);
  }

  /**
   * Each move recomputes the position from the pointer alone: with both
   * coordinates, the position written before does not matter.
   */
  lemma DragForgetsPreviousPosition(s1: Style, s2: Style, c: Clients, rect: Rect,
                                    scrollWidth: real, scrollHeight: real,
                                    innerWidth: real, innerHeight: real)
    requires c.clientX.Some? && c.clientY.Some?
    requires s1.transition == s2.transition && s1.transformOrigin == s2.transformOrigin
    ensures DraggedStyle(s1, c, rect, scrollWidth, scrollHeight, innerWidth, innerHeight)
         == DraggedStyle(s2, c, rect, scrollWidth, scrollHeight, innerWidth, innerHeight)
  {
  }

  /**
   * A 1024 x 768 viewport, an 80 x 80 element at (0, 0) and the pointer at
   * (2000, 500): the element is left of the middle before the move, so the
   * clamped 944 is written as `left`, and `top` becomes 460.
   */
  lemma DragPastRightEdge(s: Style)
    ensures var r := DraggedStyle(s, Clients(Some(2000.0), Some(500.0)), Rect(0.0, 0.0, 80.0, 80.0),
                                  80.0, 80.0, 1024.0, 768.0);
      r.left == Px(944.0) && r.right == Auto && r.top == Px(460.0)
  {
  }

  // ---------------------------------------------------------------------
  // moveToEdge and the retract callback
  // ---------------------------------------------------------------------

  /** The side a style is docked to: `left = 0px, right = auto` or the reverse. */
  function DockedEdge(s: Style): Option<Side> {
    if s.left == Px(0.0) && s.right == Auto then Some(LeftSide)
    else if s.right == Px(0.0) && s.left == Auto then Some(RightSide)
    else None
  }

  function EdgeOrigin(side: Side): string {
    match side
    case LeftSide => "left center"
    case RightSide => "right center"
  }

  /** The style `moveToEdge` writes before it looks at `showAHalf`. */
  function DockedStyle(s: Style, side: Side): (r: Style)
    ensures DockedEdge(r) == Some(side)
    ensures r.transformOrigin == EdgeOrigin(side)
    ensures r.(left := s.left, right := s.right, transformOrigin := s.transformOrigin) == s
  {
    match side
    case LeftSide => s.(left := Px(0.0), right := Auto, transformOrigin := "left center")
    case RightSide => s.(right := Px(0.0), left := Auto, transformOrigin := "right center")
  }

  /** Docking twice to the same side gives the same style. */
  lemma DockIdempotent(s: Style, side: Side)
    ensures DockedStyle(DockedStyle(s, side), side) == DockedStyle(s, side)
  {
  }

  /**
   * Once docked, an element narrower than the viewport measures on the same
   * side again: at the left edge its box starts at 0, at the right edge at
   * `innerWidth - scrollWidth`.
   */
  lemma DockedSideIsStable(scrollWidth: real, innerWidth: real)
    requires 0.0 < scrollWidth < innerWidth
    ensures SideOf(0.0, scrollWidth, innerWidth) == LeftSide
    ensures SideOf(innerWidth - scrollWidth, scrollWidth, innerWidth) == RightSide
  {
  }

  /**
   * The style the retract timer writes: half the element's width past the
   * side's edge, with transitions on. The origin is `'center center'` on both
   * sides: the source's condition `(isScaled as any)` is the function object
   * itself, never a call, and a function object is always truthy.
   */
  function RetractedStyle(s: Style, side: Side, scrollWidth: real): (r: Style)
    ensures r.transition == RetractTransition && r.transformOrigin == "center center"
    ensures side == LeftSide ==> r.left.Px? && r.left.px + scrollWidth == scrollWidth / 2.0 && r.right == s.right
    ensures side == RightSide ==> r.right.Px? && r.right.px + scrollWidth == scrollWidth / 2.0 && r.left == s.left
    ensures r.top == s.top && r.bottom == s.bottom && r.zIndex == s.zIndex
  {
    var position := Px(-scrollWidth / 2.0);
    match side
    case LeftSide => s.(transition := RetractTransition, left := position, transformOrigin := "center center")
    case RightSide => s.(transition := RetractTransition, right := position, transformOrigin := "center center")
  }

  /** Retracting a docked style keeps the other side `auto`: the element stays anchored to its edge. */
  lemma RetractKeepsAnchor(s: Style, side: Side, scrollWidth: real)
    requires DockedEdge(s) == Some(side)
    ensures var r := RetractedStyle(s, side, scrollWidth);
      (side == LeftSide ==> r.right == Auto) && (side == RightSide ==> r.left == Auto)
  {
  }
}
