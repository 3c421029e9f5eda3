/** The gesture state machine of the goggles overlay editor, as values.
    A `State` holds the overlay placement, the three mode flags and the
    optional pinch record; each pointer or touch handler is a function from
    the old state (and the event's inputs) to the new one. */
module Gesture {

  datatype Option<T> = None | Some(value: T)

  /** A pointer or touch position in canvas-local pixels. */
  datatype Point = Point(x: real, y: real)

  /** The overlay's placement: the top-left corner and side of its
      size × size hit box, and its rotation in degrees. */
  datatype Placement = Placement(x: real, y: real, size: real, rotation: real)

  /** What a two-finger gesture measured at its last event: the distance
      between the fingers and the angle (degrees) of the line through them. */
  datatype Pinch = Pinch(distance: real, angle: real)

  /** The trigonometry the handlers call, left abstract:
      `angleDeg(dy, dx)` stands for `Math.atan2(dy, dx) * (180 / Math.PI)`,
      `length(dx, dy)` for `Math.sqrt(dx * dx + dy * dy)`. */
  datatype Geometry = Geometry(angleDeg: (real, real) -> real, length: (real, real) -> real)

  /** The editor's gesture state: `goggles`, `dragging`, `resizing`,
      `rotating` and `touchState`. */
  datatype State = State(
    goggles: Placement,
    dragging: bool,
    resizing: bool,
    rotating: bool,
    touchState: Option<Pinch>)

  /** The smallest width a resize or a pinch can leave the overlay with. */
  const MinSize: real := 50.0

  /** The state the editor is created with. */
  const Initial: State := State(Placement(100.0, 100.0, 150.0, 0.0), false, false, false, None)

  /** The size invariant. */
  predicate Valid(s: State) {
    s.goggles.size >= MinSize
  }

  /** Some pointer mode is on. */
  predicate Active(s: State) {
    s.dragging || s.resizing || s.rotating
  }

  /** The centre of the hit box, the point rotation turns about: it is as
      far from the left edge as from the right, and from the top as from
      the bottom. */
  function Center(p: Placement): (c: Point)
    ensures c.x - p.x == (p.x + p.size) - c.x
    ensures c.y - p.y == (p.y + p.size) - c.y
  {
    Point(p.x + p.size / 2.0, p.y + p.size / 2.0)
  }

  /** `Math.max` on two reals. */
  function Max(a: real, b: real): (r: real)
    ensures r >= a && r >= b
    ensures r == a || r == b
  {
    if b > a then b else a
  }

  /** The hit-test: the point lies in the closed, un-rotated size × size hit
      box; equivalently, it is within half a side of the centre on both
      axes. */
  function OnOverlay(p: Placement, pt: Point): (hit: bool)
    ensures hit <==> (-p.size / 2.0 <= pt.x - Center(p).x <= p.size / 2.0
                      && -p.size / 2.0 <= pt.y - Center(p).y <= p.size / 2.0)
  {
    pt.x >= p.x && pt.x <= p.x + p.size && pt.y >= p.y && pt.y <= p.y + p.size
  }

  // ---------------------------------------------------------------------
  // Placement update rules

  /** A drag move puts the overlay's centre under the pointer. */
  function Dragged(p: Placement, pt: Point): (r: Placement)
    ensures Center(r) == pt
    ensures r.size == p.size && r.rotation == p.rotation
  {
    p.(x := pt.x - p.size / 2.0, y := pt.y - p.size / 2.0)
  }

  /** A resize move sets the width from the pointer's horizontal distance to
      the left edge, never below the minimum. */
  function Resized(p: Placement, px: real): (r: Placement)
    ensures r.x == p.x && r.y == p.y && r.rotation == p.rotation
    ensures r.size >= MinSize && r.size >= px - p.x
    ensures r.size == MinSize || r.size == px - p.x
  {
    p.(size := Max(MinSize, px - p.x))
  }

  /** A rotate move points the overlay at the pointer: the rotation becomes
      the absolute angle of the pointer about the overlay's centre. */
  function Rotated(p: Placement, pt: Point, g: Geometry): (r: Placement)
    ensures r.x == p.x && r.y == p.y && r.size == p.size
    ensures Center(r) == Center(p)
    ensures r.rotation == g.angleDeg(pt.y - Center(p).y, pt.x - Center(p).x)
  {
    var c := Center(p);
    p.(rotation := g.angleDeg(pt.y - c.y, pt.x - c.x))
  }

  /** The distance and angle of the segment from the first touch to the second. */
  function Reading(t1: Point, t2: Point, g: Geometry): Pinch {
    var dx := t2.x - t1.x;
    var dy := t2.y - t1.y;
    Pinch(g.length(dx, dy), g.angleDeg(dy, dx))
  }

  /** A reading depends only on the offset from the first finger to the
      second: moving both fingers by the same amount leaves it unchanged. */
  lemma ReadingFollowsOffset(t1: Point, t2: Point, dx: real, dy: real, g: Geometry)
    ensures Reading(Point(t1.x + dx, t1.y + dy), Point(t2.x + dx, t2.y + dy), g) == Reading(t1, t2, g)
  {
  }

  /** The width a pinch frame leaves: the old width scaled by the ratio of
      the new finger distance to the stored one, never below the minimum. */
  function PinchedSize(size: real, before: real, after: real): (r: real)
    requires before != 0.0
    ensures r >= MinSize && r >= size * (after / before)
    ensures r == MinSize || r == size * (after / before)
  {
    var scale := after / before;
    Max(MinSize, size * scale)
  }

  /** A pinch frame scales the width by the ratio of finger distances and
      turns the overlay by the change in finger angle, without normalising
      it; the position stays. */
  function Pinched(p: Placement, before: Pinch, after: Pinch): (r: Placement)
    requires before.distance != 0.0
    ensures r.x == p.x && r.y == p.y
    ensures r.size == PinchedSize(p.size, before.distance, after.distance)
    ensures r.rotation - p.rotation == after.angle - before.angle
  {
    var rotationDelta := after.angle - before.angle;
    p.(size := PinchedSize(p.size, before.distance, after.distance), rotation := p.rotation + rotationDelta)
  }

  // ---------------------------------------------------------------------
  // The handlers

  /** Mouse press: on a hit, shift selects resizing, else alt selects
      rotating, else dragging; the selected flag is raised and nothing else
      changes. A miss changes nothing. */
  function MouseDown(s: State, pt: Point, shiftKey: bool, altKey: bool): (r: State)
    ensures r.goggles == s.goggles && r.touchState == s.touchState
    ensures !OnOverlay(s.goggles, pt) ==> r == s
    ensures OnOverlay(s.goggles, pt) ==> Active(r)
    ensures OnOverlay(s.goggles, pt) && shiftKey ==> r == s.(resizing := true)
    ensures OnOverlay(s.goggles, pt) && !shiftKey && altKey ==> r == s.(rotating := true)
    ensures OnOverlay(s.goggles, pt) && !shiftKey && !altKey ==> r == s.(dragging := true)
  {
    if OnOverlay(s.goggles, pt) then
      if shiftKey then s.(resizing := true)
      else if altKey then s.(rotating := true)
      else s.(dragging := true)
    else
      s
  }

  /** Mouse move: dragging wins over resizing, which wins over rotating; with
      no mode on the move is ignored. Only the placement can change, and the
      size invariant is kept. */
  function MouseMove(s: State, pt: Point, g: Geometry): (r: State)
    ensures r.(goggles := s.goggles) == s
    ensures s.dragging ==> r.goggles == Dragged(s.goggles, pt)
    ensures !s.dragging && s.resizing ==> r.goggles == Resized(s.goggles, pt.x)
    ensures !s.dragging && !s.resizing && s.rotating ==> r.goggles == Rotated(s.goggles, pt, g)
    ensures !Active(s) ==> r == s
    ensures Valid(s) ==> Valid(r)
  {
    if s.dragging then s.(goggles := Dragged(s.goggles, pt))
    else if s.resizing then s.(goggles := Resized(s.goggles, pt.x))
    else if s.rotating then s.(goggles := Rotated(s.goggles, pt, g))
    else s
  }

  /** Mouse release: every mode flag is lowered; the placement and the pinch
      record stay, so a release with no mode on changes nothing. */
  function MouseUp(s: State): (r: State)
    ensures r.goggles == s.goggles && r.touchState == s.touchState
    ensures !Active(r)
    ensures !Active(s) ==> r == s
  {
    s.(dragging := false, resizing := false, rotating := false)
  }

  /** Touch start: one finger hit-tests and can only start a drag; two
      fingers record the pinch reading without hit-testing; any other count
      is ignored. The placement, `resizing` and `rotating` never change. */
  function TouchStart(s: State, touches: seq<Point>, g: Geometry): (r: State)
    ensures r.goggles == s.goggles && r.resizing == s.resizing && r.rotating == s.rotating
    ensures |touches| == 1 ==>
      r.touchState == s.touchState && r.dragging == (s.dragging || OnOverlay(s.goggles, touches[0]))
    ensures |touches| == 2 ==>
      r.dragging == s.dragging && r.touchState == Some(Reading(touches[0], touches[1], g))
    ensures |touches| != 1 && |touches| != 2 ==> r == s
  {
    if |touches| == 1 then
      if OnOverlay(s.goggles, touches[0]) then s.(dragging := true) else s
    else if |touches| == 2 then
      s.(touchState := Some(Reading(touches[0], touches[1], g)))
    else
      s
  }

  /** One pinch frame from the stored reading to `now`: the placement is
      pinched and `now` becomes the stored reading. */
  function PinchStep(s: State, now: Pinch): (r: State)
    requires s.touchState.Some? && s.touchState.value.distance != 0.0
    ensures r.dragging == s.dragging && r.resizing == s.resizing && r.rotating == s.rotating
    ensures r.touchState == Some(now)
    ensures r.goggles == Pinched(s.goggles, s.touchState.value, now)
    ensures Valid(r)
  {
    s.(goggles := Pinched(s.goggles, s.touchState.value, now), touchState := Some(now))
  }

  /** The stored distance is a divisor exactly when a touch move takes the
      pinch branch. */
  predicate PinchDefined(s: State, touches: seq<Point>) {
    |touches| == 2 && s.touchState.Some? ==> s.touchState.value.distance != 0.0
  }

  /** Touch move: a one-finger move while dragging drags; otherwise a
      two-finger move with a stored reading is a pinch frame; anything else is
      ignored. No flag changes, and the size invariant is kept. */
  function TouchMove(s: State, touches: seq<Point>, g: Geometry): (r: State)
    requires PinchDefined(s, touches)
    ensures r.dragging == s.dragging && r.resizing == s.resizing && r.rotating == s.rotating
    ensures s.dragging && |touches| == 1 ==>
      r == s.(goggles := Dragged(s.goggles, touches[0]))
    ensures |touches| == 2 && s.touchState.Some? ==>
      r == PinchStep(s, Reading(touches[0], touches[1], g))
    ensures !(s.dragging && |touches| == 1) && !(|touches| == 2 && s.touchState.Some?) ==> r == s
    ensures Valid(s) ==> Valid(r)
  {
    if s.dragging && |touches| == 1 then
      s.(goggles := Dragged(s.goggles, touches[0]))
    else if |touches| == 2 && s.touchState.Some? then
      PinchStep(s, Reading(touches[0], touches[1], g))
    else
      s
  }

  /** Touch end: dragging stops and the pinch record is dropped, however many
      fingers remain; `resizing`, `rotating` and the placement stay. */
  function TouchEnd(s: State): (r: State)
    ensures r.goggles == s.goggles && r.resizing == s.resizing && r.rotating == s.rotating
    ensures !r.dragging && r.touchState == None
  {
    s.(dragging := false, touchState := None)
  }

  // ---------------------------------------------------------------------
  // Properties of single handlers

  /** The hit-tests ignore rotation: a press or a one-finger touch start
      that lands in the un-rotated box is a hit whatever the overlay's
      rotation. */
  lemma HitIgnoresRotation(s: State, pt: Point, shiftKey: bool, altKey: bool, angle: real, g: Geometry)
    ensures var t := s.(goggles := s.goggles.(rotation := angle));
      MouseDown(t, pt, shiftKey, altKey).(goggles := s.goggles)
        == MouseDown(s, pt, shiftKey, altKey).(goggles := s.goggles)
    ensures var t := s.(goggles := s.goggles.(rotation := angle));
      TouchStart(t, [pt], g).(goggles := s.goggles) == TouchStart(s, [pt], g).(goggles := s.goggles)
  {
  }

  /** Modes are not exclusive: a plain press and then a shift-press, with no
      release between (a release outside the canvas is never seen), leave
      both dragging and resizing on; the next move then drags. */
  lemma ModesOverlap(s: State, pt: Point, q: Point, g: Geometry)
    requires OnOverlay(s.goggles, pt) && !Active(s)
    ensures var r := MouseDown(MouseDown(s, pt, false, false), pt, true, false);
      r.dragging && r.resizing && !r.rotating
      && MouseMove(r, q, g).goggles == Dragged(s.goggles, q)
  {
  }

  /** The box is closed: its four corners are hits, and a point past an edge
      by any margin is a miss. */
  lemma CornersAreHits(p: Placement, margin: real)
    requires p.size >= 0.0 && margin > 0.0
    ensures OnOverlay(p, Point(p.x, p.y)) && OnOverlay(p, Point(p.x + p.size, p.y))
    ensures OnOverlay(p, Point(p.x, p.y + p.size)) && OnOverlay(p, Point(p.x + p.size, p.y + p.size))
    ensures !OnOverlay(p, Point(p.x - margin, p.y)) && !OnOverlay(p, Point(p.x + p.size + margin, p.y))
    ensures !OnOverlay(p, Point(p.x, p.y - margin)) && !OnOverlay(p, Point(p.x, p.y + p.size + margin))
  {
  }

  /** Releasing twice is the same as releasing once. */
  lemma MouseUpIdempotent(s: State)
    ensures MouseUp(MouseUp(s)) == MouseUp(s)
  {
  }

  /** Mouse moves are absolute: the placement a move leaves depends only on
      that move's pointer and not on an earlier move in the same mode. */
  lemma MouseMoveAbsolute(s: State, p1: Point, p2: Point, g: Geometry)
    ensures MouseMove(MouseMove(s, p1, g), p2, g) == MouseMove(s, p2, g)
  {
    if !s.dragging && !s.resizing && s.rotating {
      assert Center(MouseMove(s, p1, g).goggles) == Center(s.goggles);
    }
  }

  /** A resize ignores the pointer's vertical coordinate. */
  lemma ResizeIgnoresVertical(s: State, x: real, y1: real, y2: real, g: Geometry)
    requires !s.dragging && s.resizing
    ensures MouseMove(s, Point(x, y1), g) == MouseMove(s, Point(x, y2), g)
  {
  }

  /** A press followed by a release, with no move between, leaves the
      placement where it was and the editor idle. */
  lemma PressThenRelease(s: State, pt: Point, shiftKey: bool, altKey: bool)
    ensures MouseUp(MouseDown(s, pt, shiftKey, altKey)) == MouseUp(s)
  {
  }

  /** The touch move straight after a touch end does nothing: the pinch
      record is gone and dragging is off. */
  lemma TouchEndStopsGesture(s: State, touches: seq<Point>, g: Geometry)
    ensures PinchDefined(TouchEnd(s), touches)
    ensures TouchMove(TouchEnd(s), touches, g) == TouchEnd(s)
  {
  }

  /** A two-finger touch start followed by a move of the same, unmoved
      fingers is a pinch frame by ratio one and angle change zero: the
      placement of a valid state stays where it was. */
  lemma StillPinch(s: State, touches: seq<Point>, g: Geometry)
    requires Valid(s) && |touches| == 2
    requires Reading(touches[0], touches[1], g).distance != 0.0
    ensures PinchDefined(TouchStart(s, touches, g), touches)
    ensures TouchMove(TouchStart(s, touches, g), touches, g).goggles == s.goggles
  {
    var d := Reading(touches[0], touches[1], g).distance;
    assert s.goggles.size * (d / d) == s.goggles.size by {
      assert d / d == 1.0;
    }
  }
}
