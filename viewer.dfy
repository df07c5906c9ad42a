/** The interaction controller of an interactive 3D model viewer: drag to
    rotate (mouse or a single touch), wheel to zoom within a fixed range, and
    an auto-rotation that runs each frame until the first drag starts.

    The JavaScript numbers are modelled as exact reals; the Three.js scene,
    camera and renderer are reduced to the state the handlers read and write:
    the camera's distance and the model's rotation. */
module Viewer {

  /** Radians of rotation per pixel of pointer movement. */
  const Sensitivity: real := 0.01
  /** Camera distance per unit of wheel delta. */
  const ZoomFactor: real := 0.01
  /** Radians added to the y-angle by one idle frame. */
  const AutoRotateStep: real := 0.003
  const MinDistance: real := 3.0
  const MaxDistance: real := 10.0
  const InitialDistance: real := 5.0

  datatype Point = Point(x: real, y: real)

  /** The three structures the viewer can build; `createModel` selects one by
      `modelType` 1, 2 or 3 (script.js:378-388). */
  datatype ModelKind = Crystalline | MorphingTopology | ParametricDesign

  /** Everything the handlers and the per-frame callback touch. */
  datatype State = State(
    rotation: Point,       // target angles written by drags and auto-rotation
    isDragging: bool,
    autoRotate: bool,
    previous: Point,       // last pointer position, relative to the canvas
    cameraZ: real,         // camera distance along the z axis
    modelRotation: Point   // the rendered model's angles, copied each frame
  )

  /** One input the controller reacts to. A touch list holds the client
      coordinates of each touch point; `rect` is the canvas's top-left corner
      in client coordinates. */
  datatype Event =
    | MouseDown(offset: Point)
    | MouseMove(offset: Point)
    | MouseUp
    | MouseLeave
    | Wheel(deltaY: real)
    | TouchStart(touches: seq<Point>, rect: Point)
    | TouchMove(touches: seq<Point>, rect: Point)
    | TouchEnd
    | Frame

  predicate InRange(z: real) { MinDistance <= z <= MaxDistance }

  /** Math.max(3, Math.min(10, z)). */
  function Clamp(z: real): (r: real)
    ensures InRange(r)
    ensures InRange(z) ==> r == z
    ensures z < MinDistance ==> r == MinDistance
    ensures z > MaxDistance ==> r == MaxDistance
  {
    var capped := if MaxDistance < z then MaxDistance else z;
    if MinDistance < capped then capped else MinDistance
  }

  /** A touch point's position relative to the canvas. */
  function Relative(touch: Point, rect: Point): Point {
    Point(touch.x - rect.x, touch.y - rect.y)
  }

  /** The state right after construction, before the first frame. */
  const Initial: State :=
    State(Point(0.0, 0.0), false, true, Point(0.0, 0.0), InitialDistance, Point(0.0, 0.0))

  /** Pointer or single touch pressed at `p`. */
  function Press(s: State, p: Point): State {
    s.(isDragging := true, autoRotate := false, previous := p)
  }

  /** Pointer moved to `p`; only a drag in progress moves the angles. */
  function Drag(s: State, p: Point): State {
    if s.isDragging then
      s.(rotation := Point(s.rotation.x + (p.y - s.previous.y) * Sensitivity,
                           s.rotation.y + (p.x - s.previous.x) * Sensitivity),
         previous := p)
    else s
  }

  function Release(s: State): State {
    s.(isDragging := false)
  }

  /** The state part of one animation frame. */
  function Tick(s: State): State {
    var y := if s.autoRotate && !s.isDragging then s.rotation.y + AutoRotateStep else s.rotation.y;
    s.(rotation := Point(s.rotation.x, y), modelRotation := Point(s.rotation.x, y))
  }

  /** The controller's reaction to one event. */
  function Step(s: State, e: Event): (r: State)
    // auto-rotation is a latch: no event switches it back on
    ensures r.autoRotate ==> s.autoRotate
    // the camera distance never leaves [3, 10] once inside, and a wheel event puts it inside
    ensures InRange(s.cameraZ) ==> InRange(r.cameraZ)
    ensures e.Wheel? ==> InRange(r.cameraZ)
    // after a frame the rendered model shows the controller's angles
    ensures e.Frame? ==> r.modelRotation == r.rotation
    // only a frame touches the rendered model
    ensures !e.Frame? ==> r.modelRotation == s.modelRotation
  {
    match e
    case MouseDown(p) => Press(s, p)
    case MouseMove(p) => Drag(s, p)
    case MouseUp => Release(s)
    case MouseLeave => Release(s)
    case Wheel(dy) => s.(cameraZ := Clamp(s.cameraZ + dy * ZoomFactor))
    case TouchStart(ts, rect) => if |ts| == 1 then Press(s, Relative(ts[0], rect)) else s
    case TouchMove(ts, rect) => if |ts| == 1 then Drag(s, Relative(ts[0], rect)) else s
    case TouchEnd => Release(s)
    case Frame => Tick(s)
  }

  /** The controller's state after a sequence of events, in order. */
  function Run(s: State, evs: seq<Event>): State
    decreases |evs|
  {
    if evs == [] then s else Run(Step(s, evs[0]), evs[1..])
  }

  /** The events that start a drag. */
  predicate IsPress(e: Event) {
    e.MouseDown? || (e.TouchStart? && |e.touches| == 1)
  }

  /** The events that continue a drag. */
  predicate IsDragMove(e: Event) {
    e.MouseMove? || (e.TouchMove? && |e.touches| == 1)
  }

  /** Where a drag-continuing event moves the pointer to. */
  function MoveTarget(e: Event): Point
    requires IsDragMove(e)
  {
    if e.MouseMove? then e.offset else Relative(e.touches[0], e.rect)
  }

  /** The events that can arrive while a drag is in progress without ending
      or restarting it: moves, animation frames, wheel events and touch starts
      or moves with other than one touch. */
  predicate DuringDrag(e: Event) {
    IsDragMove(e) || e.Frame? || e.Wheel? ||
    ((e.TouchStart? || e.TouchMove?) && |e.touches| != 1)
  }

  /** The target of the last drag-continuing event in `evs`, or `p` if none. */
  function LastTarget(evs: seq<Event>, p: Point): Point
    decreases |evs|
  {
    if evs == [] then p
    else if IsDragMove(evs[|evs| - 1]) then MoveTarget(evs[|evs| - 1])
    else LastTarget(evs[..|evs| - 1], p)
  }

  /** `n` animation frames in a row. */
  function Frames(n: nat): seq<Event> {
    if n == 0 then [] else [Frame] + Frames(n - 1)
  }

  // ---------------------------------------------------------------------
  // One-event properties

  /** A press starts a drag, ends auto-rotation and records the position. */
  lemma PressStartsDrag(s: State, e: Event)
    requires IsPress(e)
    ensures var r := Step(s, e);
      r.isDragging && !r.autoRotate &&
      r.previous == (if e.MouseDown? then e.offset else Relative(e.touches[0], e.rect)) &&
      r.rotation == s.rotation && r.cameraZ == s.cameraZ
  {
  }

  /** A touch start or touch move with zero or several touches is ignored. */
  lemma MultiTouchIgnored(s: State, e: Event)
    requires (e.TouchStart? || e.TouchMove?) && |e.touches| != 1
    ensures Step(s, e) == s
  {
  }

  /** A move while no drag is in progress changes nothing. */
  lemma MoveWhileIdleIsNoOp(s: State, e: Event)
    requires !s.isDragging
    requires e.MouseMove? || e.TouchMove?
    ensures Step(s, e) == s
  {
  }

  /** A move during a drag turns the angles by 0.01 per pixel of movement
      (horizontal movement about y, vertical about x) and records the new
      position. */
  lemma MoveWhileDraggingRotates(s: State, e: Event)
    requires s.isDragging && IsDragMove(e)
    ensures var p := MoveTarget(e);
      Step(s, e) == s.(rotation := Point(s.rotation.x + Sensitivity * (p.y - s.previous.y),
                                         s.rotation.y + Sensitivity * (p.x - s.previous.x)),
                       previous := p)
  {
  }

  /** Mouse up, mouse leave and touch end only end the drag. */
  lemma ReleaseOnlyEndsDrag(s: State, e: Event)
    requires e.MouseUp? || e.MouseLeave? || e.TouchEnd?
    ensures Step(s, e) == s.(isDragging := false)
  {
  }

  /** A frame turns the y-angle by 0.003 exactly when auto-rotating and not
      dragging, and changes nothing but the angles. */
  lemma FrameAutoRotates(s: State)
    ensures var r := Step(s, Frame);
      r.rotation.x == s.rotation.x &&
      r.rotation.y == (if s.autoRotate && !s.isDragging then s.rotation.y + AutoRotateStep else s.rotation.y) &&
      r.isDragging == s.isDragging && r.autoRotate == s.autoRotate &&
      r.previous == s.previous && r.cameraZ == s.cameraZ
  {
  }

  // ---------------------------------------------------------------------
  // Properties of event sequences

  /** Running two sequences one after the other. */
  lemma {:induction false} RunAppend(s: State, a: seq<Event>, b: seq<Event>)
    ensures Run(s, a + b) == Run(Run(s, a), b)
    decreases |a|
  {
    if a == [] {
      assert a + b == b;
    } else {
      assert (a + b)[1..] == a[1..] + b;
      RunAppend(Step(s, a[0]), a[1..], b);
    }
  }

  /** Auto-rotation stays on exactly as long as no drag has started. */
  lemma {:induction false} AutoRotateUntilPress(s: State, evs: seq<Event>)
    ensures Run(s, evs).autoRotate <==>
            (s.autoRotate && forall i :: 0 <= i < |evs| ==> !IsPress(evs[i]))
    decreases |evs|
  {
    if evs != [] {
      AutoRotateUntilPress(Step(s, evs[0]), evs[1..]);
      assert forall i :: 1 <= i < |evs| ==> evs[i] == evs[1..][i - 1];
      if IsPress(evs[0]) {
        assert !Step(s, evs[0]).autoRotate;
      } else {
        assert Step(s, evs[0]).autoRotate == s.autoRotate;
      }
    }
  }

  /** Once auto-rotation is off it stays off, whatever follows. */
  lemma {:induction false} AutoRotateStaysOff(s: State, evs: seq<Event>)
    requires !s.autoRotate
    ensures !Run(s, evs).autoRotate
    decreases |evs|
  {
    if evs != [] {
      AutoRotateStaysOff(Step(s, evs[0]), evs[1..]);
    }
  }

  /** The camera distance never leaves [3, 10] once inside. */
  lemma {:induction false} DistanceStaysInRange(s: State, evs: seq<Event>)
    requires InRange(s.cameraZ)
    ensures InRange(Run(s, evs).cameraZ)
    decreases |evs|
  {
    if evs != [] {
      DistanceStaysInRange(Step(s, evs[0]), evs[1..]);
    }
  }

  /** After any sequence that contains a wheel event, the distance is in
      [3, 10], wherever it started. */
  lemma DistanceInRangeAfterWheel(s: State, evs: seq<Event>, k: nat)
    requires k < |evs| && evs[k].Wheel?
    ensures InRange(Run(s, evs).cameraZ)
  {
    assert evs == evs[..k] + [evs[k]] + evs[k + 1..];
    RunAppend(s, evs[..k] + [evs[k]], evs[k + 1..]);
    RunAppend(s, evs[..k], [evs[k]]);
    var mid := Run(s, evs[..k]);
    assert Run(mid, [evs[k]]) == Step(mid, evs[k]);
    DistanceStaysInRange(Step(mid, evs[k]), evs[k + 1..]);
  }

  /** The distance from the initial state stays in [3, 10]. */
  lemma InitialDistanceInRange(evs: seq<Event>)
    ensures InRange(Run(Initial, evs).cameraZ)
  {
    DistanceStaysInRange(Initial, evs);
  }

  /** A drag through a series of moves turns the angles by 0.01 times the
      total displacement from where the drag last stood to the final
      position: the deltas accumulate. */
  lemma {:induction false} DragAccumulates(s: State, evs: seq<Event>)
    requires s.isDragging
    requires forall i :: 0 <= i < |evs| ==> IsDragMove(evs[i])
    ensures var last := if evs == [] then s.previous else MoveTarget(evs[|evs| - 1]);
      Run(s, evs) == s.(rotation := Point(s.rotation.x + Sensitivity * (last.y - s.previous.y),
                                         s.rotation.y + Sensitivity * (last.x - s.previous.x)),
                       previous := last)
    decreases |evs|
  {
    if evs != [] {
      var s' := Step(s, evs[0]);
      assert s'.previous == MoveTarget(evs[0]);
      assert forall i :: 0 <= i < |evs[1..]| ==> IsDragMove(evs[1..][i]) by {
        forall i | 0 <= i < |evs[1..]| ensures IsDragMove(evs[1..][i]) {
          assert evs[1..][i] == evs[i + 1];
        }
      }
      DragAccumulates(s', evs[1..]);
      if |evs| > 1 {
        assert evs[1..][|evs[1..]| - 1] == evs[|evs| - 1];
      }
    }
  }

  /** A drag with animation frames, wheel events and ignored touches in
      between its moves: the drag stays in progress, auto-rotation is as it
      was, and the angles turn by 0.01 times the displacement from where the
      drag stood to the last move's target. Frames do not auto-rotate while
      dragging, and the other events leave the angles alone. */
  lemma {:induction false} DragAccumulatesThroughFrames(s: State, evs: seq<Event>)
    requires s.isDragging
    requires forall i :: 0 <= i < |evs| ==> DuringDrag(evs[i])
    ensures var r, last := Run(s, evs), LastTarget(evs, s.previous);
      r.isDragging && r.autoRotate == s.autoRotate && r.previous == last &&
      r.rotation == Point(s.rotation.x + Sensitivity * (last.y - s.previous.y),
                          s.rotation.y + Sensitivity * (last.x - s.previous.x))
    decreases |evs|
  {
    if evs != [] {
      var init, e := evs[..|evs| - 1], evs[|evs| - 1];
      assert evs == init + [e];
      assert forall i :: 0 <= i < |init| ==> init[i] == evs[i];
      DragAccumulatesThroughFrames(s, init);
      RunAppend(s, init, [e]);
      var mid := Run(s, init);
      assert Run(mid, [e]) == Step(mid, e) by {
        assert [e][1..] == [];
      }
      assert DuringDrag(e);
    }
  }

  /** While auto-rotating and idle, `n` frames turn the y-angle by exactly
      n * 0.003 and leave the x-angle alone. */
  lemma {:induction false} IdleFramesAutoRotate(s: State, n: nat)
    requires s.autoRotate && !s.isDragging
    ensures Run(s, Frames(n)).rotation == Point(s.rotation.x, s.rotation.y + n as real * AutoRotateStep)
    ensures Run(s, Frames(n)).autoRotate && !Run(s, Frames(n)).isDragging
    ensures n > 0 ==> Run(s, Frames(n)).modelRotation == Run(s, Frames(n)).rotation
    decreases n
  {
    if n > 0 {
      var s' := Step(s, Frame);
      assert Frames(n)[0] == Frame && Frames(n)[1..] == Frames(n - 1);
      IdleFramesAutoRotate(s', n - 1);
      if n == 1 {
        assert Frames(0) == [];
      }
    }
  }

  /** Once auto-rotation is off, frames without input leave the angles where
      the last drag put them. */
  lemma {:induction false} ManualFramesHoldStill(s: State, n: nat)
    requires !s.autoRotate
    ensures Run(s, Frames(n)).rotation == s.rotation
    decreases n
  {
    if n > 0 {
      assert Frames(n)[0] == Frame && Frames(n)[1..] == Frames(n - 1);
      ManualFramesHoldStill(Step(s, Frame), n - 1);
    }
  }

  /** The controller of one viewer, with the fields its handlers update in place. */
  class InteractiveViewer {
    const modelKind: ModelKind
    var rotationX: real
    var rotationY: real
    var isDragging: bool
    var autoRotate: bool
    var previousX: real
    var previousY: real
    var cameraZ: real
    var modelRotationX: real
    var modelRotationY: real

    /** The abstract state of this controller. */
    function Snapshot(): State
      reads this
    {
      State(Point(rotationX, rotationY), isDragging, autoRotate,
            Point(previousX, previousY), cameraZ, Point(modelRotationX, modelRotationY))
    }

    /** Initialises the fields, places the camera at distance 5 and renders
        the first frame, which already auto-rotates once. */
    constructor (kind: ModelKind)
      ensures modelKind == kind
      ensures Snapshot() == Step(Initial, Event.Frame)
      ensures rotationX == 0.0 && rotationY == AutoRotateStep
      ensures !isDragging && autoRotate && cameraZ == InitialDistance && InRange(cameraZ)
    {
      modelKind := kind;
      rotationX, rotationY := 0.0, 0.0;
      isDragging := false;
      previousX, previousY := 0.0, 0.0;
      autoRotate := true;
      modelRotationX, modelRotationY := 0.0, 0.0;
      cameraZ := InitialDistance;
      new;
      Frame();
    }

    method MouseDown(offset: Point)
      modifies this
      ensures Snapshot() == Step(old(Snapshot()), Event.MouseDown(offset))
      ensures isDragging && !autoRotate && previousX == offset.x && previousY == offset.y
      ensures rotationX == old(rotationX) && rotationY == old(rotationY) && cameraZ == old(cameraZ)
      ensures modelRotationX == old(modelRotationX) && modelRotationY == old(modelRotationY)
    {
      isDragging := true;
      autoRotate := false;
      previousX, previousY := offset.x, offset.y;
    }

    method MouseMove(offset: Point)
      modifies this
      ensures Snapshot() == Step(old(Snapshot()), Event.MouseMove(offset))
      ensures !old(isDragging) ==> Snapshot() == old(Snapshot())
      ensures old(isDragging) ==>
        rotationY == old(rotationY) + Sensitivity * (offset.x - old(previousX)) &&
        rotationX == old(rotationX) + Sensitivity * (offset.y - old(previousY)) &&
        previousX == offset.x && previousY == offset.y
    {
      if isDragging {
        var deltaX := offset.x - previousX;
        var deltaY := offset.y - previousY;
        rotationY := rotationY + deltaX * Sensitivity;
        rotationX := rotationX + deltaY * Sensitivity;
        previousX, previousY := offset.x, offset.y;
      }
    }

    method MouseUp()
      modifies this
      ensures Snapshot() == Step(old(Snapshot()), Event.MouseUp)
      ensures Snapshot() == old(Snapshot()).(isDragging := false)
    {
      isDragging := false;
    }

    method MouseLeave()
      modifies this
      ensures Snapshot() == Step(old(Snapshot()), Event.MouseLeave)
      ensures Snapshot() == old(Snapshot()).(isDragging := false)
    {
      isDragging := false;
    }

    method Wheel(deltaY: real)
      modifies this
      ensures Snapshot() == Step(old(Snapshot()), Event.Wheel(deltaY))
      ensures cameraZ == Clamp(old(cameraZ) + deltaY * ZoomFactor) && InRange(cameraZ)
      ensures Snapshot() == old(Snapshot()).(cameraZ := cameraZ)
    {
      cameraZ := cameraZ + deltaY * ZoomFactor;
      cameraZ := Clamp(cameraZ);
    }

    method TouchStart(touches: seq<Point>, rect: Point)
      modifies this
      ensures Snapshot() == Step(old(Snapshot()), Event.TouchStart(touches, rect))
      ensures |touches| != 1 ==> Snapshot() == old(Snapshot())
      ensures |touches| == 1 ==>
        isDragging && !autoRotate &&
        previousX == touches[0].x - rect.x && previousY == touches[0].y - rect.y
    {
      if |touches| == 1 {
        isDragging := true;
        autoRotate := false;
        var touch := touches[0];
        previousX, previousY := touch.x - rect.x, touch.y - rect.y;
      }
    }

    method TouchMove(touches: seq<Point>, rect: Point)
      modifies this
      ensures Snapshot() == Step(old(Snapshot()), Event.TouchMove(touches, rect))
      ensures !(old(isDragging) && |touches| == 1) ==> Snapshot() == old(Snapshot())
      ensures old(isDragging) && |touches| == 1 ==>
        rotationY == old(rotationY) + Sensitivity * (touches[0].x - rect.x - old(previousX)) &&
        rotationX == old(rotationX) + Sensitivity * (touches[0].y - rect.y - old(previousY)) &&
        previousX == touches[0].x - rect.x && previousY == touches[0].y - rect.y
      ensures isDragging == old(isDragging) && autoRotate == old(autoRotate) && cameraZ == old(cameraZ)
      ensures modelRotationX == old(modelRotationX) && modelRotationY == old(modelRotationY)
    {
      if isDragging && |touches| == 1 {
        var touch := touches[0];
        var x := touch.x - rect.x;
        var y := touch.y - rect.y;
        var deltaX := x - previousX;
        var deltaY := y - previousY;
        rotationY := rotationY + deltaX * Sensitivity;
        rotationX := rotationX + deltaY * Sensitivity;
        previousX, previousY := x, y;
      }
    }

    method TouchEnd()
      modifies this
      ensures Snapshot() == Step(old(Snapshot()), Event.TouchEnd)
      ensures Snapshot() == old(Snapshot()).(isDragging := false)
    {
      isDragging := false;
    }

    /** The state part of one animation frame. */
    method Frame()
      modifies this
      ensures Snapshot() == Step(old(Snapshot()), Event.Frame)
      ensures modelRotationX == rotationX && modelRotationY == rotationY
      ensures rotationY == if old(autoRotate) && !old(isDragging) then old(rotationY) + AutoRotateStep else old(rotationY)
      ensures rotationX == old(rotationX)
      ensures isDragging == old(isDragging) && autoRotate == old(autoRotate)
      ensures previousX == old(previousX) && previousY == old(previousY) && cameraZ == old(cameraZ)
    {
      if autoRotate && !isDragging {
        rotationY := rotationY + AutoRotateStep;
      }
      modelRotationX := rotationX;
      modelRotationY := rotationY;
    }
  }
}
