/** The editor component as an object: its five state fields are updated in
    place by one method per event handler. Each method is specified by the
    corresponding transition of module Gesture, whose contracts say what the
    handler does; the frames say which fields a handler may touch at all. */
module Overlay {
  import opened Gesture

  class YetiGogglesOverlay {
    var goggles: Placement
    var dragging: bool
    var resizing: bool
    var rotating: bool
    var touchState: Option<Pinch>

    /** The fields as one value of the gesture state machine. */
    function Snapshot(): State
      reads this
    {
      State(goggles, dragging, resizing, rotating, touchState)
    }

    /** The size invariant on the live object. */
    predicate Valid()
      reads this
    {
      Gesture.Valid(Snapshot())
    }

    constructor ()
      ensures Snapshot() == Initial
      ensures Valid()
    {
      goggles := Placement(100.0, 100.0, 150.0, 0.0);
      dragging := false;
      resizing := false;
      rotating := false;
      touchState := None;
    }

    method HandleMouseDown(pointer: Point, shiftKey: bool, altKey: bool)
      modifies this`dragging, this`resizing, this`rotating
      ensures Snapshot() == MouseDown(old(Snapshot()), pointer, shiftKey, altKey)
      ensures old(Valid()) ==> Valid()
    {
      if OnOverlay(goggles, pointer) {
        if shiftKey {
          resizing := true;
        } else if altKey {
          rotating := true;
        } else {
          dragging := true;
        }
      }
    }

    method HandleMouseMove(pointer: Point, g: Geometry)
      modifies this`goggles
      ensures Snapshot() == MouseMove(old(Snapshot()), pointer, g)
      ensures old(Valid()) ==> Valid()
    {
      if dragging {
        goggles := Dragged(goggles, pointer);
      } else if resizing {
        goggles := Resized(goggles, pointer.x);
      } else if rotating {
        goggles := Rotated(goggles, pointer, g);
      }
    }

    method HandleMouseUp()
      modifies this`dragging, this`resizing, this`rotating
      ensures Snapshot() == MouseUp(old(Snapshot()))
      ensures old(Valid()) ==> Valid()
    {
      dragging := false;
      resizing := false;
      rotating := false;
    }

    method HandleTouchStart(touches: seq<Point>, g: Geometry)
      modifies this`dragging, this`touchState
      ensures Snapshot() == TouchStart(old(Snapshot()), touches, g)
      ensures old(Valid()) ==> Valid()
    {
      if |touches| == 1 {
        if OnOverlay(goggles, touches[0]) {
          dragging := true;
        }
      } else if |touches| == 2 {
        touchState := Some(Reading(touches[0], touches[1], g));
      }
    }

    method HandleTouchMove(touches: seq<Point>, g: Geometry)
      requires PinchDefined(Snapshot(), touches)
      modifies this`goggles, this`touchState
      ensures Snapshot() == TouchMove(old(Snapshot()), touches, g)
      ensures old(Valid()) ==> Valid()
    {
      if dragging && |touches| == 1 {
        goggles := Dragged(goggles, touches[0]);
      } else if |touches| == 2 && touchState.Some? {
        var now := Reading(touches[0], touches[1], g);
        goggles := Pinched(goggles, touchState.value, now);
        touchState := Some(now);
      }
    }

    method HandleTouchEnd()
      modifies this`dragging, this`touchState
      ensures Snapshot() == TouchEnd(old(Snapshot()))
      ensures old(Valid()) ==> Valid()
    {
      dragging := false;
      touchState := None;
    }
  }
}
