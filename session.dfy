/** Sequences of pointer and touch events, and what the gesture state
    machine of module Gesture does with them. */
module Session {
  import opened Gesture

  datatype Event =
    | Press(pointer: Point, shiftKey: bool, altKey: bool)
    | Move(pointer: Point)
    | Release
    | TouchDown(touches: seq<Point>)
    | TouchDrag(touches: seq<Point>)
    | TouchUp

  /** The handler for `e` can run in `s`: only a pinch frame divides. */
  predicate Enabled(s: State, e: Event) {
    e.TouchDrag? ==> PinchDefined(s, e.touches)
  }

  /** One event, handled. */
  function Step(s: State, e: Event, g: Geometry): State
    requires Enabled(s, e)
  {
    match e
    case Press(pt, shiftKey, altKey) => MouseDown(s, pt, shiftKey, altKey)
    case Move(pt) => MouseMove(s, pt, g)
    case Release => MouseUp(s)
    case TouchDown(touches) => TouchStart(s, touches, g)
    case TouchDrag(touches) => TouchMove(s, touches, g)
    case TouchUp => TouchEnd(s)
  }

  /** Every event of `es` can run in the state the ones before it leave. */
  predicate Runnable(s: State, es: seq<Event>, g: Geometry)
    decreases |es|
  {
    es == [] || (Enabled(s, es[0]) && Runnable(Step(s, es[0], g), es[1..], g))
  }

  /** The state after handling `es` in order. */
  function Run(s: State, es: seq<Event>, g: Geometry): State
    requires Runnable(s, es, g)
    decreases |es|
  {
    if es == [] then s else Run(Step(s, es[0], g), es[1..], g)
  }

  // ---------------------------------------------------------------------
  // Whole-session properties

  /** The size invariant holds after any session that starts in a valid
      state and whose pinch frames divide by a non-zero distance (the
      sessions `Runnable` admits). */
  lemma {:induction false} SizeInvariant(s: State, es: seq<Event>, g: Geometry)
    requires Valid(s) && Runnable(s, es, g)
    ensures Valid(Run(s, es, g))
    decreases |es|
  {
    if es != [] {
      SizeInvariant(Step(s, es[0], g), es[1..], g);
    }
  }

  lemma InitialValid(es: seq<Event>, g: Geometry)
    requires Runnable(Initial, es, g)
    ensures Valid(Run(Initial, es, g))
  {
    SizeInvariant(Initial, es, g);
  }

  /** Handling one more event after a session is one more step. */
  lemma {:induction false} RunSnoc(s: State, es: seq<Event>, e: Event, g: Geometry)
    requires Runnable(s, es, g) && Enabled(Run(s, es, g), e)
    ensures Runnable(s, es + [e], g)
    ensures Run(s, es + [e], g) == Step(Run(s, es, g), e, g)
    decreases |es|
  {
    if es == [] {
      assert es + [e] == [e];
    } else {
      assert (es + [e])[0] == es[0];
      assert (es + [e])[1..] == es[1..] + [e];
      RunSnoc(Step(s, es[0], g), es[1..], e, g);
    }
  }

  /** A mouse release ends every pointer mode, whatever came before it, and
      leaves the placement where the session put it. */
  lemma ReleaseEndsGesture(s: State, es: seq<Event>, g: Geometry)
    requires Runnable(s, es, g)
    ensures Runnable(s, es + [Release], g)
    ensures !Active(Run(s, es + [Release], g))
    ensures Run(s, es + [Release], g).goggles == Run(s, es, g).goggles
  {
    RunSnoc(s, es, Release, g);
  }

  /** Touch input stays idle until a touch start or a mouse press: from a
      state with dragging off and no pinch record, as a touch end leaves it,
      any run without those two events keeps dragging off and the pinch
      record absent, which are the states where a touch move does nothing. */
  lemma {:induction false} TouchIdle(s: State, es: seq<Event>, g: Geometry)
    requires !s.dragging && s.touchState == None
    requires forall i :: 0 <= i < |es| ==> !es[i].TouchDown? && !es[i].Press?
    ensures Runnable(s, es, g)
    ensures !Run(s, es, g).dragging && Run(s, es, g).touchState == None
    decreases |es|
  {
    if es != [] {
      var rest := es[1..];
      assert forall i :: 0 <= i < |rest| ==> !rest[i].TouchDown? && !rest[i].Press? by {
        forall i | 0 <= i < |rest| ensures !rest[i].TouchDown? && !rest[i].Press? {
          assert rest[i] == es[i + 1];
        }
      }
      TouchIdle(Step(s, es[0], g), rest, g);
    }
  }

  /** A run of mouse moves leaves the state that its last move alone would:
      drag, resize and rotate all follow the pointer's absolute position. */
  lemma {:induction false} MouseMovesLastWins(s: State, es: seq<Event>, g: Geometry)
    requires |es| > 0
    requires forall i :: 0 <= i < |es| ==> es[i].Move?
    ensures Runnable(s, es, g)
    ensures Run(s, es, g) == MouseMove(s, es[|es| - 1].pointer, g)
    decreases |es|
  {
    var s1 := Step(s, es[0], g);
    if |es| == 1 {
      assert es[1..] == [];
    } else {
      MouseMovesLastWins(s1, es[1..], g);
      assert es[1..][|es[1..]| - 1] == es[|es| - 1];
      MouseMoveAbsolute(s, es[0].pointer, es[|es| - 1].pointer, g);
    }
  }

  // ---------------------------------------------------------------------
  // Pinch sessions

  /** The reading a two-finger touch move takes. */
  function ReadingOf(e: Event, g: Geometry): Pinch
    requires e.TouchDrag? && |e.touches| == 2
  {
    Reading(e.touches[0], e.touches[1], g)
  }

  /** A two-finger touch move whose fingers are apart. */
  predicate PinchMove(e: Event, g: Geometry) {
    e.TouchDrag? && |e.touches| == 2 && ReadingOf(e, g).distance > 0.0
  }

  /** The readings a run of pinch moves takes, in order. */
  function Readings(es: seq<Event>, g: Geometry): (rs: seq<Pinch>)
    requires forall i :: 0 <= i < |es| ==> PinchMove(es[i], g)
    ensures |rs| == |es|
    ensures forall i :: 0 <= i < |es| ==> PinchMove(es[i], g) && rs[i] == ReadingOf(es[i], g)
    ensures Apart(rs)
    decreases |es|
  {
    if es == [] then []
    else
      assert PinchMove(es[0], g);
      assert forall i :: 0 <= i < |es[1..]| ==> es[1..][i] == es[i + 1];
      [ReadingOf(es[0], g)] + Readings(es[1..], g)
  }

  /** A state with a stored reading that pinch frames can divide by. */
  predicate Pinching(s: State) {
    s.touchState.Some? && s.touchState.value.distance > 0.0
  }

  predicate Apart(rs: seq<Pinch>) {
    forall i :: 0 <= i < |rs| ==> rs[i].distance > 0.0
  }

  /** The pinch frames of `rs`, applied in order. */
  function Pinches(s: State, rs: seq<Pinch>): State
    requires Pinching(s) && Apart(rs)
    decreases |rs|
  {
    if rs == [] then s else Pinches(PinchStep(s, rs[0]), rs[1..])
  }

  /** The last reading of `rs`, or `first` if there is none. */
  function Last(first: Pinch, rs: seq<Pinch>): Pinch {
    if rs == [] then first else rs[|rs| - 1]
  }

  /** A run of two-finger touch moves is the run of their pinch frames. */
  lemma {:induction false} PinchMovesArePinches(s: State, es: seq<Event>, g: Geometry)
    requires Pinching(s)
    requires forall i :: 0 <= i < |es| ==> PinchMove(es[i], g)
    ensures Runnable(s, es, g)
    ensures Run(s, es, g) == Pinches(s, Readings(es, g))
    decreases |es|
  {
    if es != [] {
      var rs := Readings(es, g);
      assert PinchMove(es[0], g);
      var s1 := Step(s, es[0], g);
      assert s1 == PinchStep(s, rs[0]);
      var rest := es[1..];
      assert forall i :: 0 <= i < |rest| ==> PinchMove(rest[i], g) by {
        forall i | 0 <= i < |rest| ensures PinchMove(rest[i], g) {
          assert rest[i] == es[i + 1];
        }
      }
      PinchMovesArePinches(s1, rest, g);
      assert Readings(rest, g) == rs[1..];
    }
  }

  /** Scaling by m/f and then by l/m scales by l/f. */
  lemma ScaleChain(b: real, f: real, m: real, l: real)
    requires f != 0.0 && m != 0.0
    ensures (b * (m / f)) * (l / m) == b * (l / f)
  {
    calc {
      (b * (m / f)) * (l / m);
      b * ((m / f) * (l / m));
      { assert (m / f) * (l / m) == l / f; }
      b * (l / f);
    }
  }

  /** Pinch frames keep the position and the modes, turn the overlay by the
      net change of finger angle since the stored reading (with no
      wrap-around), and leave the last reading stored. */
  lemma {:induction false} PinchesTurn(s: State, rs: seq<Pinch>)
    requires Pinching(s) && Apart(rs)
    ensures
      var r := Pinches(s, rs);
      var first := s.touchState.value;
      var last := Last(first, rs);
      && r.dragging == s.dragging && r.resizing == s.resizing && r.rotating == s.rotating
      && r.goggles.x == s.goggles.x && r.goggles.y == s.goggles.y
      && r.goggles.rotation == s.goggles.rotation + (last.angle - first.angle)
      && r.touchState == Some(last)
    decreases |rs|
  {
    if rs != [] {
      var rest := rs[1..];
      assert Apart(rest) by {
        forall i | 0 <= i < |rest| ensures rest[i].distance > 0.0 {
          assert rest[i] == rs[i + 1];
        }
      }
      PinchesTurn(PinchStep(s, rs[0]), rest);
      assert Last(rs[0], rest) == Last(s.touchState.value, rs);
    }
  }

  /** The finger distances of `rs`. */
  function Distances(rs: seq<Pinch>): (ds: seq<real>)
    ensures |ds| == |rs| && forall i :: 0 <= i < |rs| ==> ds[i] == rs[i].distance
    ensures Positive(ds) <==> Apart(rs)
    ensures forall first: Pinch :: LastOr(first.distance, ds) == Last(first, rs).distance
  {
    seq(|rs|, i requires 0 <= i < |rs| => rs[i].distance)
  }

  /** `Apart` over bare distances (the width fold below works on reals
      alone); `Distances` relates the two. */
  predicate Positive(ds: seq<real>) {
    forall i :: 0 <= i < |ds| ==> ds[i] > 0.0
  }

  /** The width pinch frames with finger distances `ds` leave, starting from
      `size` with `prev` the stored distance. */
  function FramesSize(size: real, prev: real, ds: seq<real>): real
    requires prev > 0.0 && Positive(ds)
    decreases |ds|
  {
    if ds == [] then size else FramesSize(PinchedSize(size, prev, ds[0]), ds[0], ds[1..])
  }

  /** The width after pinch frames depends only on the finger distances. */
  lemma {:induction false} PinchesSize(s: State, first: Pinch, rs: seq<Pinch>)
    requires s.touchState == Some(first) && first.distance > 0.0 && Apart(rs)
    ensures Positive(Distances(rs))
    ensures Pinches(s, rs).goggles.size == FramesSize(s.goggles.size, first.distance, Distances(rs))
    decreases |rs|
  {
    var ds := Distances(rs);
    assert Positive(ds);
    if rs != [] {
      var rest := rs[1..];
      assert Apart(rest) by {
        forall i | 0 <= i < |rest| ensures rest[i].distance > 0.0 {
          assert rest[i] == rs[i + 1];
        }
      }
      assert ds[1..] == Distances(rest);
      PinchesSize(PinchStep(s, rs[0]), rs[0], rest);
    }
  }

  /** The last of `ds`, or `prev` if there is none: `Last` over bare
      distances, related to it by `Distances`. */
  function LastOr(prev: real, ds: seq<real>): (r: real)
    ensures prev > 0.0 && Positive(ds) ==> r > 0.0
  {
    if ds == [] then prev else ds[|ds| - 1]
  }

  /** One pinch frame never lowers the width per unit of finger distance. */
  lemma FrameRatio(size: real, prev: real, d: real)
    requires prev > 0.0 && d > 0.0
    ensures PinchedSize(size, prev, d) / d >= size / prev
  {
    var r := PinchedSize(size, prev, d);
    assert r >= size * (d / prev);
    assert size * (d / prev) / d == size / prev;
  }

  /** The width per unit of finger distance after pinch frames is at least
      the starting one: scaled by the net ratio of distances, the clamp only
      ever enlarges. */
  lemma {:induction false} FramesSizeAtLeast(size: real, prev: real, ds: seq<real>)
    requires prev > 0.0 && Positive(ds)
    ensures FramesSize(size, prev, ds) / LastOr(prev, ds) >= size / prev
    decreases |ds|
  {
    if ds != [] {
      var d, rest := ds[0], ds[1..];
      assert Positive(rest) by {
        forall i | 0 <= i < |rest| ensures rest[i] > 0.0 {
          assert rest[i] == ds[i + 1];
        }
      }
      FramesSizeAtLeast(PinchedSize(size, prev, d), d, rest);
      assert LastOr(d, rest) == LastOr(prev, ds);
      FrameRatio(size, prev, d);
    }
  }

  /** Scaling `size` by `d / prev` does not reach the clamp. */
  predicate Unclamped(size: real, prev: real, d: real)
    requires prev != 0.0
  {
    size * (d / prev) >= MinSize
  }

  /** Distances unclamped from `size` stay unclamped from the width the
      first (unclamped) frame leaves. */
  lemma UnclampedRest(size: real, prev: real, ds: seq<real>)
    requires prev > 0.0 && Positive(ds) && ds != []
    requires forall i :: 0 <= i < |ds| ==> Unclamped(size, prev, ds[i])
    ensures Positive(ds[1..])
    ensures forall i :: 0 <= i < |ds| - 1 ==> Unclamped(size * (ds[0] / prev), ds[0], ds[1..][i])
  {
    forall i | 0 <= i < |ds| - 1
      ensures ds[1..][i] > 0.0 && Unclamped(size * (ds[0] / prev), ds[0], ds[1..][i])
    {
      assert ds[1..][i] == ds[i + 1];
      assert Unclamped(size, prev, ds[i + 1]);
      ScaleChain(size, prev, ds[0], ds[i + 1]);
    }
  }

  /** A pinch frame that does not reach the clamp keeps the width per unit
      of finger distance. */
  lemma FrameRatioExact(size: real, prev: real, d: real)
    requires prev > 0.0 && d > 0.0 && Unclamped(size, prev, d)
    ensures PinchedSize(size, prev, d) == size * (d / prev)
    ensures PinchedSize(size, prev, d) / d == size / prev
  {
    assert size * (d / prev) / d == size / prev;
  }

  /** When no frame reaches the clamp, the width per unit of finger distance
      stays what it was: the width is the starting width scaled by the net
      ratio of finger distances. */
  lemma {:induction false} FramesSizeUnclamped(size: real, prev: real, ds: seq<real>)
    requires prev > 0.0 && Positive(ds)
    requires forall i :: 0 <= i < |ds| ==> Unclamped(size, prev, ds[i])
    ensures FramesSize(size, prev, ds) / LastOr(prev, ds) == size / prev
    decreases |ds|
  {
    if ds != [] {
      var d, rest := ds[0], ds[1..];
      FrameRatioExact(size, prev, d);
      UnclampedRest(size, prev, ds);
      FramesSizeUnclamped(size * (d / prev), d, rest);
      assert LastOr(d, rest) == LastOr(prev, ds);
    }
  }

  /** After any run of pinch frames the width per unit of finger distance
      is at least what it was at the stored reading. */
  lemma PinchesScale(s: State, first: Pinch, rs: seq<Pinch>)
    requires s.touchState == Some(first) && first.distance > 0.0 && Apart(rs)
    ensures Last(first, rs).distance > 0.0
    ensures Pinches(s, rs).goggles.size / Last(first, rs).distance >= s.goggles.size / first.distance
  {
    PinchesSize(s, first, rs);
    var ds := Distances(rs);
    assert Last(first, rs).distance == LastOr(first.distance, ds);
    FramesSizeAtLeast(s.goggles.size, first.distance, ds);
  }

  /** When no frame reaches the clamp, the width per unit of finger
      distance after the run is exactly what it was at the stored reading. */
  lemma PinchesScaleUnclamped(s: State, first: Pinch, rs: seq<Pinch>)
    requires s.touchState == Some(first) && first.distance > 0.0 && Apart(rs)
    requires forall i :: 0 <= i < |rs| ==> Unclamped(s.goggles.size, first.distance, rs[i].distance)
    ensures Last(first, rs).distance > 0.0
    ensures Pinches(s, rs).goggles.size / Last(first, rs).distance == s.goggles.size / first.distance
  {
    PinchesSize(s, first, rs);
    var ds := Distances(rs);
    assert Last(first, rs).distance == LastOr(first.distance, ds);
    FramesSizeUnclamped(s.goggles.size, first.distance, ds);
  }

  // ---------------------------------------------------------------------
  // Worked sessions

  /** A plain press inside the box then a move re-centres the overlay on the
      pointer. */
  lemma DragSession(g: Geometry)
    ensures var es := [Press(Point(150.0, 150.0), false, false), Move(Point(200.0, 180.0))];
      Runnable(Initial, es, g)
      && Run(Initial, es, g) == State(Placement(125.0, 105.0, 150.0, 0.0), true, false, false, None)
  {
    var es := [Press(Point(150.0, 150.0), false, false), Move(Point(200.0, 180.0))];
    assert es[1..][1..] == [];
  }

  /** A shift-press then a move sets the width from the pointer's x. */
  lemma ResizeSession(g: Geometry)
    ensures var es := [Press(Point(150.0, 150.0), true, false), Move(Point(300.0, 150.0))];
      Runnable(Initial, es, g)
      && Run(Initial, es, g) == State(Placement(100.0, 100.0, 200.0, 0.0), false, true, false, None)
  {
    var es := [Press(Point(150.0, 150.0), true, false), Move(Point(300.0, 150.0))];
    assert es[1..][1..] == [];
  }

  /** An alt-press then a move turns the overlay to the pointer's angle about
      the centre (175, 175). */
  lemma RotateSession(g: Geometry)
    ensures var es := [Press(Point(150.0, 150.0), false, true), Move(Point(100.0, 250.0))];
      Runnable(Initial, es, g)
      && Run(Initial, es, g)
        == State(Placement(100.0, 100.0, 150.0, g.angleDeg(75.0, -75.0)), false, false, true, None)
  {
    var es := [Press(Point(150.0, 150.0), false, true), Move(Point(100.0, 250.0))];
    assert es[1..][1..] == [];
  }

  /** A pinch frame from (distance 100, angle 0) to (150, 30) takes size 150
      to 225 and rotation 10 to 40. */
  lemma PinchFrame(g: Geometry, t2: Point)
    requires g.length(t2.x, t2.y) == 150.0 && g.angleDeg(t2.y, t2.x) == 30.0
    ensures var s := State(Placement(100.0, 100.0, 150.0, 10.0), false, false, false, Some(Pinch(100.0, 0.0)));
      TouchMove(s, [Point(0.0, 0.0), t2], g).goggles == Placement(100.0, 100.0, 225.0, 40.0)
  {
    var s := State(Placement(100.0, 100.0, 150.0, 10.0), false, false, false, Some(Pinch(100.0, 0.0)));
    assert Reading(Point(0.0, 0.0), t2, g) == Pinch(150.0, 30.0);
  }

  /** Pinch rotation is not normalised: two pinch gestures, each turning the
      fingers from -170 to 170 degrees (both within the range of atan2),
      leave the overlay at 680 degrees. */
  lemma PinchRotationAccumulates(g: Geometry, t: Point, u: Point)
    requires g.length(t.x, t.y) == 100.0 && g.angleDeg(t.y, t.x) == -170.0
    requires g.length(u.x, u.y) == 100.0 && g.angleDeg(u.y, u.x) == 170.0
    ensures var o := Point(0.0, 0.0);
      var es := [TouchDown([o, t]), TouchDrag([o, u]), TouchUp, TouchDown([o, t]), TouchDrag([o, u])];
      Runnable(Initial, es, g)
      && Run(Initial, es, g) == State(Placement(100.0, 100.0, 150.0, 680.0), false, false, false, Some(Pinch(100.0, 170.0)))
  {
    var o := Point(0.0, 0.0);
    var es := [TouchDown([o, t]), TouchDrag([o, u]), TouchUp, TouchDown([o, t]), TouchDrag([o, u])];
    assert Reading(o, t, g) == Pinch(100.0, -170.0);
    assert Reading(o, u, g) == Pinch(100.0, 170.0);
    var s1 := Step(Initial, es[0], g);
    assert s1 == Initial.(touchState := Some(Pinch(100.0, -170.0)));
    var s2 := Step(s1, es[1], g);
    assert PinchedSize(150.0, 100.0, 100.0) == 150.0;
    assert s2 == State(Placement(100.0, 100.0, 150.0, 340.0), false, false, false, Some(Pinch(100.0, 170.0)));
    var s3 := Step(s2, es[2], g);
    var s4 := Step(s3, es[3], g);
    assert s4 == s2.(touchState := Some(Pinch(100.0, -170.0)));
    var s5 := Step(s4, es[4], g);
    assert es[4..][1..] == [];
    assert Runnable(s4, es[4..], g) && Run(s4, es[4..], g) == s5;
    assert es[3..][1..] == es[4..];
    assert Runnable(s3, es[3..], g) && Run(s3, es[3..], g) == s5;
    assert es[2..][1..] == es[3..];
    assert Runnable(s2, es[2..], g) && Run(s2, es[2..], g) == s5;
    assert es[1..][1..] == es[2..];
    assert Runnable(s1, es[1..], g) && Run(s1, es[1..], g) == s5;
  }

  /** A release with no mode on changes nothing. */
  lemma IdleRelease(g: Geometry)
    ensures Runnable(Initial, [Release], g) && Run(Initial, [Release], g) == Initial
  {
    assert [Release][1..] == [];
  }
}
