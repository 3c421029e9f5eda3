# Yeti goggles overlay: the gesture state machine

This project models how the goggles overlay editor reacts to pointer and touch input.
The overlay is an image placed on an uploaded photo. Its hit box is the square of side `size` at (`x`, `y`), whatever the image's shape.

- **State.** The editor holds a placement (`x`, `y`, `size`, `rotation` in degrees), three mode flags (`dragging`, `resizing`, `rotating`) and an optional pinch record (`touchState`: finger distance and angle).
- **Mouse.** A press inside the un-rotated box picks a mode: shift picks resizing, otherwise alt picks rotating, otherwise dragging. A move applies the active mode, with dragging taking priority over resizing and resizing over rotating. A release ends every mode. Modes are not exclusive: a second press before a release raises a second flag, and a release outside the canvas is never seen, so this can happen. Moves then follow the priority.
- **Touch.** One finger can only drag. Two fingers record a pinch reading. Each later two-finger move scales the width by the ratio of finger distances and turns the overlay by the change in finger angle. A touch end drops the pinch record and ends dragging.
- **Width.** Resizing and pinching never leave the width below 50.

The model is in three modules:

- `Gesture` (`gesture.dfy`): the values, the update rules, and each handler as a pure transition on `State`, with single-handler properties.
- `Overlay` (`overlay.dfy`): the editor as a class whose five fields the handler methods update in place. Each method is proved to perform exactly the matching `Gesture` transition and to touch only the fields it names.
- `Session` (`session.dfy`): event sequences and what whole sessions do. It proves that the size invariant is kept, that a release ends every mode, and that mouse moves are absolute. For runs of pinch frames, it proves how the rotation telescopes and how the width scales. It ends with worked examples: sessions from the initial state, and a single pinch frame taken from a state that already holds a pinch record.

## Model

| member | source | states |
|---|---|---|
| Gesture.Center | src/YetiGogglesOverlay.js:79-80 | the centre is the midpoint of the hit box: as far from the left edge as from the right, and from the top as from the bottom |
| Gesture.OnOverlay | src/YetiGogglesOverlay.js:52-57 | the point lies in the closed square [x, x+size] × [y, y+size], which is the same as lying within half a side of the centre on both axes; rotation plays no part |
| Gesture.ReadingFollowsOffset | src/YetiGogglesOverlay.js:102-106 | a two-finger reading (distance and angle, also taken at lines 118-122) depends only on the offset from the first finger to the second: moving both fingers together leaves it unchanged |
| Gesture.Max | src/YetiGogglesOverlay.js:76 | `Math.max`: the result is at least both arguments and is one of them |
| Gesture.Dragged | src/YetiGogglesOverlay.js:74 | a drag puts the overlay's centre exactly on the pointer and keeps size and rotation |
| Gesture.Resized | src/YetiGogglesOverlay.js:75-77 | a resize keeps position and rotation; the width is at least 50 and at least the pointer's distance from the left edge, and equals one of the two |
| Gesture.Rotated | src/YetiGogglesOverlay.js:78-82 | a rotate keeps position, size and centre, and sets the rotation to the absolute angle of the pointer about the centre |
| Gesture.PinchedSize | src/YetiGogglesOverlay.js:124-129 | the pinched width is at least 50 and at least the old width times the distance ratio, and equals one of them |
| Gesture.Pinched | src/YetiGogglesOverlay.js:124-131 | a pinch frame keeps x and y, sets the width by `PinchedSize`, and adds the change of finger angle to the rotation with no normalisation |
| Gesture.MouseDown | src/YetiGogglesOverlay.js:47-66 | a miss changes nothing; a hit raises exactly one flag, chosen in the order shift, then alt, then drag; placement and pinch record are kept |
| Gesture.MouseMove | src/YetiGogglesOverlay.js:68-84 | only the placement can change; the update applies drag, then resize, then rotate, in that priority; with no mode on, nothing changes; the size invariant is kept |
| Gesture.MouseUp | src/YetiGogglesOverlay.js:86-90 | after a release no mode is on; placement and pinch record are kept; with no mode on, a release changes nothing |
| Gesture.TouchStart | src/YetiGogglesOverlay.js:93-109 | one finger sets dragging exactly when it hits the box (no resize or rotate); two fingers store the reading and nothing else; other counts change nothing |
| Gesture.PinchStep | src/YetiGogglesOverlay.js:117-134 | a pinch frame keeps every flag, pinches the placement, replaces the stored reading with the new one, and leaves a valid width |
| Gesture.TouchMove | src/YetiGogglesOverlay.js:111-135 | no flag changes; a one-finger move while dragging drags; otherwise a two-finger move with a stored reading is a pinch frame; anything else changes nothing; the size invariant is kept |
| Gesture.TouchEnd | src/YetiGogglesOverlay.js:137-140 | dragging stops and the pinch record is dropped; placement, resizing and rotating are kept |
| Gesture.HitIgnoresRotation | src/YetiGogglesOverlay.js:52-98 | whether a press or a one-finger touch start hits does not depend on the overlay's rotation |
| Gesture.CornersAreHits | src/YetiGogglesOverlay.js:52-57 | the box is closed: all four corners hit, and a point past any edge misses |
| Gesture.MouseUpIdempotent | src/YetiGogglesOverlay.js:86-90 | releasing twice is releasing once |
| Gesture.MouseMoveAbsolute | src/YetiGogglesOverlay.js:73-83 | two moves in a row leave the state the second move alone would |
| Gesture.ResizeIgnoresVertical | src/YetiGogglesOverlay.js:75-77 | a resize does not depend on the pointer's y |
| Gesture.PressThenRelease | src/YetiGogglesOverlay.js:47-90 | a press followed by a release leaves the same state as the release alone |
| Gesture.TouchEndStopsGesture | src/YetiGogglesOverlay.js:111-140 | the touch move straight after a touch end is ignored: the pinch record is gone and dragging is off |
| Gesture.StillPinch | src/YetiGogglesOverlay.js:101-131 | a two-finger start followed by a move of the same unmoved fingers leaves a valid placement unchanged |
| Gesture.ModesOverlap | src/YetiGogglesOverlay.js:47-84 | a plain press then a shift-press on the overlay, with no release between, leave dragging and resizing both on, and the next move drags |
| Overlay.YetiGogglesOverlay.constructor | src/YetiGogglesOverlay.js:6-10 | the editor starts at x 100, y 100, size 150, rotation 0, with every flag off and no pinch record |
| Overlay.YetiGogglesOverlay.HandleMouseDown | src/YetiGogglesOverlay.js:47-66 | changes only the three flags, exactly as `Gesture.MouseDown`; keeps the size invariant |
| Overlay.YetiGogglesOverlay.HandleMouseMove | src/YetiGogglesOverlay.js:68-84 | changes only the placement, exactly as `Gesture.MouseMove`; keeps the size invariant |
| Overlay.YetiGogglesOverlay.HandleMouseUp | src/YetiGogglesOverlay.js:86-90 | changes only the three flags, exactly as `Gesture.MouseUp` |
| Overlay.YetiGogglesOverlay.HandleTouchStart | src/YetiGogglesOverlay.js:93-109 | changes only `dragging` and `touchState`, exactly as `Gesture.TouchStart` |
| Overlay.YetiGogglesOverlay.HandleTouchMove | src/YetiGogglesOverlay.js:111-135 | changes only the placement and `touchState`, exactly as `Gesture.TouchMove`; keeps the size invariant |
| Overlay.YetiGogglesOverlay.HandleTouchEnd | src/YetiGogglesOverlay.js:137-140 | changes only `dragging` and `touchState`, exactly as `Gesture.TouchEnd` |
| Session.SizeInvariant | src/YetiGogglesOverlay.js:47-140 | every session whose pinch frames divide by a non-zero distance, and that starts with a width of at least 50, ends with one |
| Session.InitialValid | src/YetiGogglesOverlay.js:6 | every session from the initial state whose pinch frames divide by a non-zero distance ends with a width of at least 50 |
| Session.RunSnoc | src/YetiGogglesOverlay.js:47-140 | handling one more event after a session is one more handler step |
| Session.ReleaseEndsGesture | src/YetiGogglesOverlay.js:86-90 | whatever came before, a release ends every mode and keeps the placement the session left |
| Session.TouchIdle | src/YetiGogglesOverlay.js:47-140 | from a state with dragging off and no pinch record, as a touch end leaves it, any run with no touch start and no mouse press keeps dragging off and the pinch record absent (states in which `Gesture.TouchMove` ignores every touch move) |
| Session.MouseMovesLastWins | src/YetiGogglesOverlay.js:68-84 | a run of mouse moves leaves the state its last move alone would |
| Session.PinchMovesArePinches | src/YetiGogglesOverlay.js:111-135 | a run of two-finger moves is the run of pinch frames on their readings, taken in order |
| Session.PinchesTurn | src/YetiGogglesOverlay.js:124-133 | pinch frames keep position and flags, turn the overlay by the net change of finger angle since the stored reading, and leave the last reading stored |
| Session.PinchesSize | src/YetiGogglesOverlay.js:124-129 | the width after pinch frames depends only on the starting width and the finger distances |
| Session.FrameRatio | src/YetiGogglesOverlay.js:124-129 | one pinch frame never lowers the width per unit of finger distance |
| Session.FramesSizeAtLeast | src/YetiGogglesOverlay.js:124-129 | after any number of pinch frames, the width per unit of finger distance is at least the starting one |
| Session.FrameRatioExact | src/YetiGogglesOverlay.js:124-129 | a frame that does not reach the clamp scales the width exactly by the distance ratio |
| Session.FramesSizeUnclamped | src/YetiGogglesOverlay.js:124-129 | when no frame reaches the clamp, the width per unit of finger distance stays exactly the starting one |
| Session.PinchesScale | src/YetiGogglesOverlay.js:111-135 | after a run of pinch frames, width divided by finger distance is at least its value at the stored reading |
| Session.PinchesScaleUnclamped | src/YetiGogglesOverlay.js:111-135 | when no frame reaches the clamp, width divided by finger distance keeps its value at the stored reading |
| Session.DragSession | src/YetiGogglesOverlay.js:47-84 | from the initial state, a plain press at (150, 150) then a move to (200, 180) gives x 125, y 105 and dragging on |
| Session.ResizeSession | src/YetiGogglesOverlay.js:47-84 | from the initial state, a shift-press at (150, 150) then a move to (300, 150) gives width 200 and resizing on |
| Session.RotateSession | src/YetiGogglesOverlay.js:47-84 | from the initial state, an alt-press at (150, 150) then a move to (100, 250) sets the rotation to the angle of (-75, 75) about the centre (175, 175) |
| Session.PinchFrame | src/YetiGogglesOverlay.js:111-135 | a frame going from distance 100 and angle 0 to distance 150 and angle 30 takes width 150 to 225 and rotation 10 to 40 |
| Session.PinchRotationAccumulates | src/YetiGogglesOverlay.js:93-140 | from the initial state, two pinch gestures that each turn the fingers from -170 to 170 degrees, readings atan2 can produce, leave the rotation at 680 with no wrap-around |
| Session.IdleRelease | src/YetiGogglesOverlay.js:86-90 | a release in the initial state changes nothing |

## Left out

- Image upload, canvas drawing, PNG download, the overlay image asset and the JSX event wiring are not modelled. They do file, canvas and DOM I/O and do not touch the gesture state.
- Pointer and touch positions are inputs already in canvas-local pixels. The subtraction of `getBoundingClientRect()` is a DOM query and is left out.
- `Math.atan2(dy, dx) * 180 / Math.PI` and `Math.sqrt(dx*dx + dy*dy)` are not computed. They are fields of a `Geometry` value passed to each handler, and every property holds whichever functions those are. As a result, `RotateSession` states the angle as `angleDeg(75, -75)` rather than 135.
- The drawn image is `size` wide and `size` times the asset's height-to-width ratio tall (src/YetiGogglesOverlay.js:42); drawing is not modelled, so where the asset is not square the model does not capture that the hit box and the visible image differ.
- Numbers are exact reals, not 64-bit floats: rounding, `Infinity` and `NaN` are not modelled.
- Gesture.TouchMove: requires a non-zero stored finger distance whenever the pinch branch runs, and so does Overlay.YetiGogglesOverlay.HandleTouchMove. In the source, two fingers that start on the same spot make the next frame divide by zero. The width then becomes `Infinity`, or `NaN` if the fingers are still together, which reals cannot represent. The source's own width invariant fails there, since `Math.max(50, NaN)` is `NaN`; Session.SizeInvariant and Session.InitialValid therefore cover only sessions whose pinch frames divide by a non-zero distance.
- Session.PinchesScale: states the width bound as a ratio, width divided by finger distance, rather than as the product of the starting width and the net distance ratio. The two are equivalent because distances are positive.
- Handlers run one after another on the state the previous one left. React's render scheduling is not modelled. That includes batching of `setState` calls and a handler reading state from a render that has not caught up yet.
- The pinch record is not tied to exactly two fingers being down. A touch start with one finger, or with three or more, keeps a stored record, and only a touch end drops it. The model does the same.
