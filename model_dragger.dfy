/** `AircraftModelDragger`: the 3D model spawned from a detail card. A press on
    the model turns into a drag after a long press or enough movement; a short,
    still, single-finger press deletes it; a second finger pinches and twists it.
    Time, distances, angles and raycasts are inputs. */
module ModelDragging {
  import opened Common

  /** The static `AnyModelInGesture`, shared by every dragger so that plot
      placement and point selection can ignore touches during a model gesture. */
  class GestureFlag {
    var anyModelInGesture: bool

    constructor ()
      ensures !anyModelInGesture
    {
      anyModelInGesture := false;
    }
  }

  /** The Inspector settings. */
  datatype DragSettings = DragSettings(
    longPressTime: real,
    dragStartPixels: real,
    tapDeletesModel: bool,
    tapMaxTime: real,
    tapMaxMovement: real)

  /** The field initialisers of the component: 0.35 s, 15 px, tap-to-delete on, 0.25 s, 10 px. */
  const DefaultDragSettings := DragSettings(0.35, 15.0, true, 0.25, 10.0)

  /** What the engine answers for a screen position: whether a physics ray hits
      this model, the plane pose an AR raycast finds (`None` without a raycast
      manager or a plane), the point half a metre along the camera ray, the
      pixel distance between two points, and the twist angle (`Atan2` in
      degrees) of the line between two touches. */
  datatype Environment = Environment(
    hitsModel: Vec2 -> bool,
    planeAt: Vec2 -> Option<Pose>,
    rayPointAt: Vec2 -> Vec3,
    distance: (Vec2, Vec2) -> real,
    twistAngle: (Vec2, Vec2) -> real)

  /** The press / drag fields of a dragger. */
  datatype Press = Press(
    isPressing: bool,
    isDragging: bool,
    dragStarted: bool,
    fingerId: int,
    pressStartTime: real,
    pressStartPos: Vec2,
    lastTouchPos: Vec2,
    hadMultiTouch: bool)

  /** The pinch / rotate fields of a dragger: whether a pinch runs, and its baseline. */
  datatype Pinch = Pinch(
    active: bool,
    initialDistance: real,
    initialScale: Vec3,
    initialTwistAngle: real,
    initialYRotation: real)

  /** A dragger, its transform and game object, and the shared gesture flag. */
  datatype DragState = DragState(
    press: Press,
    pinch: Pinch,
    position: Vec3,
    rotation: Vec3,
    localScale: Vec3,
    detached: bool,
    destroyed: bool,
    anyModelInGesture: bool)

  /** No press in progress, and nothing left over from the last one. */
  predicate Idle(s: DragState)
  {
    && !s.press.isDragging && !s.press.dragStarted && !s.pinch.active && !s.press.hadMultiTouch
    && s.press.fingerId == -1 && s.press.pressStartTime == 0.0
  }

  /** The fields a press and the tap test depend on are the same in both states. */
  predicate SamePress(a: DragState, b: DragState)
  {
    a.press == b.press && a.destroyed == b.destroyed
  }

  /** The dragger's invariant: between presses it is idle, it drags exactly
      when a drag was started, and a pinch only runs during a drag. */
  predicate Consistent(s: DragState)
  {
    && (!s.press.isPressing ==> Idle(s))
    && (s.press.isDragging <==> s.press.dragStarted)
    && (s.pinch.active ==> s.press.isDragging)
  }

  /** `BeginDrag`. */
  function BeginDragStep(s: DragState): DragState
  {
    s.(press := s.press.(dragStarted := true, isDragging := true), pinch := s.pinch.(active := false),
       anyModelInGesture := true, detached := true)
  }

  /** The drag-start rule of a continuing press: held long enough or moved far enough, once. */
  function MaybeBeginDrag(s: DragState, st: DragSettings, env: Environment, now: real): DragState
  {
    if !s.press.dragStarted
       && (now - s.press.pressStartTime >= st.longPressTime
           || env.distance(s.press.pressStartPos, s.press.lastTouchPos) >= st.dragStartPixels)
    then BeginDragStep(s)
    else s
  }

  /** `UpdateDrag`: onto the plane the AR raycast hits, else half a metre along the camera ray. */
  function UpdateDragStep(s: DragState, env: Environment, screenPos: Vec2): DragState
  {
    match env.planeAt(screenPos)
    case Some(pose) => s.(position := pose.position, rotation := pose.rotation)
    case None => s.(position := env.rayPointAt(screenPos))
  }

  /** The tap test of `EndPress`. */
  predicate WasTap(s: DragState, st: DragSettings, env: Environment, now: real)
  {
    && !s.press.dragStarted
    && !s.press.hadMultiTouch
    && st.tapDeletesModel
    && now - s.press.pressStartTime <= st.tapMaxTime
    && env.distance(s.press.pressStartPos, s.press.lastTouchPos) <= st.tapMaxMovement
  }

  /** `EndPress`: a tap destroys the model; every press field is reset. */
  function EndPressStep(s: DragState, st: DragSettings, env: Environment, now: real): DragState
  {
    s.(destroyed := s.destroyed || WasTap(s, st, env, now),
       press := s.press.(isPressing := false, isDragging := false, dragStarted := false, fingerId := -1,
                         pressStartTime := 0.0, hadMultiTouch := false),
       pinch := s.pinch.(active := false),
       anyModelInGesture := false)
  }

  /** The touches of one frame have different finger ids, as Unity reports them. */
  predicate DistinctFingers(touches: seq<Touch>)
  {
    forall i, j :: 0 <= i < j < |touches| ==> touches[i].fingerId != touches[j].fingerId
  }

  /** The `foreach` of `HandlePinchAndRotate`: the primary touch is the last one
      with the drag finger, the secondary the first one with another finger. */
  function PinchPair(touches: seq<Touch>, fingerId: int): (Option<Touch>, Option<Touch>)
  {
    if touches == [] then (None, None)
    else
      var (primary, secondary) := PinchPair(touches[..|touches| - 1], fingerId);
      var t := touches[|touches| - 1];
      if t.fingerId == fingerId then (Some(t), secondary)
      else if secondary.None? then (primary, Some(t))
      else (primary, secondary)
  }

  /** `HandlePinchAndRotate`: without two touches, or without both a primary
      and a secondary touch, the pinch stops. */
  function PinchStep(s: DragState, env: Environment, touches: seq<Touch>): DragState
  {
    if |touches| < 2 then s.(pinch := s.pinch.(active := false))
    else
      match PinchPair(touches, s.press.fingerId)
      case (Some(t0), Some(t1)) =>
        PinchWith(s, env.distance(t0.position, t1.position), env.twistAngle(t0.position, t1.position))
      case _ => s.(pinch := s.pinch.(active := false))
  }

  /** The pinch proper, given the fingers' current distance and twist angle: the
      first active frame records the baseline; later frames scale by the
      distance ratio (when the baseline distance exceeds one pixel) and turn to
      the baseline yaw plus the change in twist angle. */
  function PinchWith(s: DragState, currentDistance: real, currentAngle: real): DragState
  {
    if !s.pinch.active then
      s.(pinch := Pinch(true, currentDistance, s.localScale, currentAngle, s.rotation.y))
    else
      var scaled := if s.pinch.initialDistance > 1.0
                    then s.pinch.initialScale.Scale(currentDistance / s.pinch.initialDistance)
                    else s.localScale;
      s.(localScale := scaled, rotation := YawOnly(s.pinch.initialYRotation + (currentAngle - s.pinch.initialTwistAngle)))
  }

  /** One iteration of the `foreach` in `HandleTouch`. */
  function TouchStep(s: DragState, st: DragSettings, env: Environment, touches: seq<Touch>, t: Touch, now: real): DragState
  {
    if t.phase == Began && !s.press.isPressing then
      if env.hitsModel(t.position) then
        s.(press := s.press.(isPressing := true, fingerId := t.fingerId, pressStartTime := now,
                             pressStartPos := t.position, lastTouchPos := t.position,
                             dragStarted := false, hadMultiTouch := false))
      else s
    else if s.press.isPressing && t.fingerId == s.press.fingerId then
      if t.phase == Moved || t.phase == Stationary then
        var s1 := MaybeBeginDrag(s.(press := s.press.(lastTouchPos := t.position)), st, env, now);
        if s1.press.isDragging then PinchStep(UpdateDragStep(s1, env, t.position), env, touches) else s1
      else if t.phase == Ended || t.phase == Canceled then EndPressStep(s, st, env, now)
      else s
    else s
  }

  /** The touches of `done`, handled in order. */
  function TouchesFold(s: DragState, st: DragSettings, env: Environment, touches: seq<Touch>, done: seq<Touch>, now: real): DragState
  {
    if done == [] then s
    else TouchStep(TouchesFold(s, st, env, touches, done[..|done| - 1], now), st, env, touches, done[|done| - 1], now)
  }

  /** The multi-touch mark at the top of `HandleTouch`. */
  function MarkMultiTouch(s: DragState, touches: seq<Touch>): DragState
  {
    if s.press.isPressing && |touches| > 1 then s.(press := s.press.(hadMultiTouch := true)) else s
  }

  /** `HandleTouch`, one frame. */
  function TouchFrame(s: DragState, st: DragSettings, env: Environment, touches: seq<Touch>, now: real, hasCamera: bool): DragState
  {
    if !hasCamera || |touches| == 0 then s
    else TouchesFold(MarkMultiTouch(s, touches), st, env, touches, touches, now)
  }

  /** `HandleMouse`, one frame: press on the model, drag while held, end on release. */
  function MouseFrame(s: DragState, st: DragSettings, env: Environment, buttonDown: bool, buttonHeld: bool,
                      buttonUp: bool, mousePos: Vec2, now: real, hasCamera: bool): DragState
  {
    if !hasCamera then s
    else MouseRelease(MouseHold(MousePress(s, env, buttonDown, mousePos, now), st, env, buttonHeld, mousePos, now),
                      st, env, buttonUp, now)
  }

  /** A button press on the model starts a press when none is in progress. */
  function MousePress(s: DragState, env: Environment, buttonDown: bool, mousePos: Vec2, now: real): DragState
  {
    if buttonDown && !s.press.isPressing && env.hitsModel(mousePos)
    then s.(press := s.press.(isPressing := true, pressStartTime := now, pressStartPos := mousePos,
                              lastTouchPos := mousePos, dragStarted := false))
    else s
  }

  /** A held button follows the mouse, may start the drag, and drags. */
  function MouseHold(s: DragState, st: DragSettings, env: Environment, buttonHeld: bool, mousePos: Vec2, now: real): DragState
  {
    if s.press.isPressing && buttonHeld
    then (var a := MaybeBeginDrag(s.(press := s.press.(lastTouchPos := mousePos)), st, env, now);
          if a.press.isDragging then UpdateDragStep(a, env, mousePos) else a)
    else s
  }

  /** Releasing the button ends the press. */
  function MouseRelease(s: DragState, st: DragSettings, env: Environment, buttonUp: bool, now: real): DragState
  {
    if s.press.isPressing && buttonUp then EndPressStep(s, st, env, now) else s
  }

  // ---------------------------------------------------------------------------
  // Properties of the specification functions

  /** Once a drag has started, the drag-start rule leaves the state alone; before,
      it starts the drag exactly when the press was held or moved enough. */
  lemma DragStartsOnce(s: DragState, st: DragSettings, env: Environment, now: real)
    ensures s.press.dragStarted ==> MaybeBeginDrag(s, st, env, now) == s
    ensures MaybeBeginDrag(s, st, env, now).press.dragStarted <==>
              (s.press.dragStarted
               || now - s.press.pressStartTime >= st.longPressTime
               || env.distance(s.press.pressStartPos, s.press.lastTouchPos) >= st.dragStartPixels)
    ensures MaybeBeginDrag(s, st, env, now).press.dragStarted && !s.press.dragStarted ==>
              MaybeBeginDrag(s, st, env, now).press.isDragging && MaybeBeginDrag(s, st, env, now).anyModelInGesture
              && !MaybeBeginDrag(s, st, env, now).pinch.active
  {
  }

  /** A touch press starts only when none is in progress and the touch begins on
      this model; it then tracks that finger from a clean slate. */
  lemma TouchPressStartsOnHit(s: DragState, st: DragSettings, env: Environment, touches: seq<Touch>, t: Touch, now: real)
    requires t.phase == Began && !s.press.isPressing
    ensures !env.hitsModel(t.position) ==> TouchStep(s, st, env, touches, t, now) == s
    ensures env.hitsModel(t.position) ==>
              var p := TouchStep(s, st, env, touches, t, now).press;
              && p.isPressing && p.fingerId == t.fingerId && p.pressStartTime == now
              && p.pressStartPos == t.position && p.lastTouchPos == t.position
              && !p.dragStarted && !p.hadMultiTouch
  {
  }

  /** A mouse press starts only when none is in progress and the click is on this model. */
  lemma MousePressStartsOnHit(s: DragState, env: Environment, mousePos: Vec2, now: real)
    ensures s.press.isPressing || !env.hitsModel(mousePos) ==> MousePress(s, env, true, mousePos, now) == s
    ensures !s.press.isPressing && env.hitsModel(mousePos) ==>
              var p := MousePress(s, env, true, mousePos, now).press;
              && p.isPressing && p.pressStartTime == now && p.pressStartPos == mousePos
              && p.lastTouchPos == mousePos && !p.dragStarted
  {
  }

  /** The tap classification: ending a press destroys a live model exactly when the
      drag never started, no second finger was seen, tap-to-delete is on, and the
      press was short and still enough. */
  lemma EndPressDeletesIffTap(s: DragState, st: DragSettings, env: Environment, now: real)
    requires !s.destroyed
    ensures EndPressStep(s, st, env, now).destroyed <==>
              && !s.press.dragStarted
              && !s.press.hadMultiTouch
              && st.tapDeletesModel
              && now - s.press.pressStartTime <= st.tapMaxTime
              && env.distance(s.press.pressStartPos, s.press.lastTouchPos) <= st.tapMaxMovement
  {
  }

  /** The mouse path applies the same tap test: releasing a short, still click
      on the model deletes it in the editor too. */
  lemma MouseTapDeletes(s: DragState, st: DragSettings, env: Environment, mousePos: Vec2, now: real)
    requires s.press.isPressing && WasTap(s, st, env, now)
    ensures MouseFrame(s, st, env, false, false, true, mousePos, now, true).destroyed
  {
  }

  /** `EndPress` always leaves the dragger idle and consistent, with the gesture flag down. */
  lemma EndPressIdles(s: DragState, st: DragSettings, env: Environment, now: real)
    ensures Idle(EndPressStep(s, st, env, now)) && Consistent(EndPressStep(s, st, env, now))
    ensures !EndPressStep(s, st, env, now).press.isPressing && !EndPressStep(s, st, env, now).anyModelInGesture
  {
  }

  /** A press that became a drag, or that saw a second finger, never deletes the model. */
  lemma DragOrMultiTouchKeepsModel(s: DragState, st: DragSettings, env: Environment, now: real)
    requires s.press.dragStarted || s.press.hadMultiTouch
    ensures EndPressStep(s, st, env, now).destroyed == s.destroyed
  {
  }

  /** The primary touch is the last touch of the drag finger and the secondary
      the first touch of any other finger; each is missing only when no such touch exists. */
  lemma {:induction false} PinchPairFinds(touches: seq<Touch>, fingerId: int)
    ensures PinchPair(touches, fingerId).0.Some? <==> (exists i :: 0 <= i < |touches| && touches[i].fingerId == fingerId)
    ensures PinchPair(touches, fingerId).0.Some? ==>
              exists i :: 0 <= i < |touches| && touches[i] == PinchPair(touches, fingerId).0.value
                          && touches[i].fingerId == fingerId
                          && forall j :: i < j < |touches| ==> touches[j].fingerId != fingerId
    ensures PinchPair(touches, fingerId).1.Some? <==> (exists i :: 0 <= i < |touches| && touches[i].fingerId != fingerId)
    ensures PinchPair(touches, fingerId).1.Some? ==>
              exists i :: 0 <= i < |touches| && touches[i] == PinchPair(touches, fingerId).1.value
                          && touches[i].fingerId != fingerId
                          && forall j :: 0 <= j < i ==> touches[j].fingerId == fingerId
  {
    if touches != [] {
      var init := touches[..|touches| - 1];
      PinchPairFinds(init, fingerId);
      var n := |touches| - 1;
      assert forall i :: 0 <= i < n ==> touches[i] == init[i];
      var (primary, secondary) := PinchPair(init, fingerId);
      if primary.Some? {
        var i :| 0 <= i < |init| && init[i] == primary.value && init[i].fingerId == fingerId
                 && forall j :: i < j < |init| ==> init[j].fingerId != fingerId;
        assert touches[i] == primary.value;
      }
      if secondary.Some? {
        var i :| 0 <= i < |init| && init[i] == secondary.value && init[i].fingerId != fingerId
                 && forall j :: 0 <= j < i ==> init[j].fingerId == fingerId;
        assert touches[i] == secondary.value;
      }
    }
  }

  /** Without two touches, or without both the drag finger and another one, the
      pinch stops and the model is left as it is. */
  lemma PinchNeedsTwoFingers(s: DragState, env: Environment, touches: seq<Touch>)
    requires |touches| < 2 || PinchPair(touches, s.press.fingerId).0.None?
             || PinchPair(touches, s.press.fingerId).1.None?
    ensures PinchStep(s, env, touches) == s.(pinch := s.pinch.(active := false))
  {
  }

  /** The first frame of a pinch only records the baseline: scale, rotation and
      position are untouched. */
  lemma PinchBaselineChangesNothing(s: DragState, env: Environment, touches: seq<Touch>)
    requires !s.pinch.active
    ensures PinchStep(s, env, touches).localScale == s.localScale
    ensures PinchStep(s, env, touches).rotation == s.rotation
    ensures PinchStep(s, env, touches).position == s.position
    ensures PinchStep(s, env, touches).pinch.active ==>
              PinchStep(s, env, touches).pinch.initialScale == s.localScale
              && PinchStep(s, env, touches).pinch.initialYRotation == s.rotation.y
  {
  }

  /** While the two fingers keep the baseline distance and angle, a running pinch
      holds the baseline yaw and, for a baseline over one pixel, the baseline
      scale; over a shorter baseline the scale stays where it is. */
  lemma PinchAtBaselineHolds(s: DragState)
    requires s.pinch.active
    ensures s.pinch.initialDistance > 1.0 ==>
              PinchWith(s, s.pinch.initialDistance, s.pinch.initialTwistAngle).localScale == s.pinch.initialScale
    ensures s.pinch.initialDistance <= 1.0 ==>
              PinchWith(s, s.pinch.initialDistance, s.pinch.initialTwistAngle).localScale == s.localScale
    ensures PinchWith(s, s.pinch.initialDistance, s.pinch.initialTwistAngle).rotation == YawOnly(s.pinch.initialYRotation)
    ensures PinchWith(s, s.pinch.initialDistance, s.pinch.initialTwistAngle).pinch.active
  {
    if s.pinch.initialDistance > 1.0 {
      assert s.pinch.initialDistance / s.pinch.initialDistance == 1.0;
    }
  }

  /** A running pinch turns the model to a pure yaw: the baseline yaw turned by
      the change in twist angle. Over a baseline of more than one pixel it scales
      the baseline scale by the ratio of distances; otherwise the scale stays. */
  lemma PinchFollowsFingers(s: DragState, currentDistance: real, currentAngle: real)
    requires s.pinch.active
    ensures PinchWith(s, currentDistance, currentAngle).rotation
            == YawOnly(s.pinch.initialYRotation + (currentAngle - s.pinch.initialTwistAngle))
    ensures PinchWith(s, currentDistance, currentAngle).rotation.y - s.pinch.initialYRotation == currentAngle - s.pinch.initialTwistAngle
    ensures s.pinch.initialDistance <= 1.0 ==> PinchWith(s, currentDistance, currentAngle).localScale == s.localScale
    ensures s.pinch.initialDistance > 1.0 ==>
              var scaled := PinchWith(s, currentDistance, currentAngle).localScale;
              && scaled.x * s.pinch.initialDistance == s.pinch.initialScale.x * currentDistance
              && scaled.y * s.pinch.initialDistance == s.pinch.initialScale.y * currentDistance
              && scaled.z * s.pinch.initialDistance == s.pinch.initialScale.z * currentDistance
  {
  }

  /** Dragging only moves and turns the model: the press and the tap test are left as they were. */
  lemma UpdateDragKeepsPress(s: DragState, env: Environment, screenPos: Vec2)
    ensures SamePress(UpdateDragStep(s, env, screenPos), s)
  {
    match env.planeAt(screenPos)
    case Some(pose) => assert UpdateDragStep(s, env, screenPos) == s.(position := pose.position, rotation := pose.rotation);
    case None => assert UpdateDragStep(s, env, screenPos) == s.(position := env.rayPointAt(screenPos));
  }

  /** Pinching only scales and turns the model and tracks the pinch; a pinch
      during a drag keeps the dragger consistent. */
  lemma PinchKeepsPress(s: DragState, env: Environment, touches: seq<Touch>)
    ensures SamePress(PinchStep(s, env, touches), s)
    ensures Consistent(s) && s.press.isDragging ==> Consistent(PinchStep(s, env, touches))
  {
    if |touches| >= 2 {
      match PinchPair(touches, s.press.fingerId)
      case (Some(t0), Some(t1)) =>
        PinchWithKeepsPress(s, env.distance(t0.position, t1.position), env.twistAngle(t0.position, t1.position));
      case _ =>
    }
  }

  /** Once the pinch proper runs, it is active, and the press is untouched. */
  lemma PinchWithKeepsPress(s: DragState, currentDistance: real, currentAngle: real)
    ensures SamePress(PinchWith(s, currentDistance, currentAngle), s)
    ensures PinchWith(s, currentDistance, currentAngle).pinch.active
  {
  }

  /** Every touch keeps the dragger consistent. */
  lemma TouchStepConsistent(s: DragState, st: DragSettings, env: Environment, touches: seq<Touch>, t: Touch, now: real)
    requires Consistent(s)
    ensures Consistent(TouchStep(s, st, env, touches, t, now))
  {
    if t.phase == Began && !s.press.isPressing {
    } else if s.press.isPressing && t.fingerId == s.press.fingerId {
      if t.phase == Moved || t.phase == Stationary {
        var s1 := MaybeBeginDrag(s.(press := s.press.(lastTouchPos := t.position)), st, env, now);
        assert Consistent(s1);
        if s1.press.isDragging {
          UpdateDragKeepsPress(s1, env, t.position);
          PinchKeepsPress(UpdateDragStep(s1, env, t.position), env, touches);
        }
      } else if t.phase == Ended || t.phase == Canceled {
        EndPressIdles(s, st, env, now);
      }
    }
  }

  /** A whole touch frame keeps the dragger consistent. */
  lemma {:induction false} TouchFrameConsistent(s: DragState, st: DragSettings, env: Environment, touches: seq<Touch>, now: real, hasCamera: bool)
    requires Consistent(s)
    ensures Consistent(TouchFrame(s, st, env, touches, now, hasCamera))
  {
    if hasCamera && |touches| > 0 {
      FoldConsistent(MarkMultiTouch(s, touches), st, env, touches, touches, now);
    }
  }

  /** Handling any run of touches keeps the dragger consistent. */
  lemma {:induction false} FoldConsistent(s: DragState, st: DragSettings, env: Environment, touches: seq<Touch>, done: seq<Touch>, now: real)
    requires Consistent(s)
    ensures Consistent(TouchesFold(s, st, env, touches, done, now))
  {
    if done != [] {
      FoldConsistent(s, st, env, touches, done[..|done| - 1], now);
      TouchStepConsistent(TouchesFold(s, st, env, touches, done[..|done| - 1], now), st, env, touches, done[|done| - 1], now);
    }
  }

  /** A mouse frame keeps the dragger consistent. */
  lemma MouseFrameConsistent(s: DragState, st: DragSettings, env: Environment, buttonDown: bool, buttonHeld: bool,
                             buttonUp: bool, mousePos: Vec2, now: real, hasCamera: bool)
    requires Consistent(s)
    ensures Consistent(MouseFrame(s, st, env, buttonDown, buttonHeld, buttonUp, mousePos, now, hasCamera))
  {
  }

  /** A frame that sees two or more fingers while a press is in progress cannot
      delete the model: the press is marked as multi-touch before any touch is
      handled, and a press begun later in the same frame cannot end in it. */
  lemma MultiTouchFrameKeepsModel(s: DragState, st: DragSettings, env: Environment, touches: seq<Touch>, now: real, hasCamera: bool)
    requires s.press.isPressing && |touches| > 1 && DistinctFingers(touches)
    ensures TouchFrame(s, st, env, touches, now, hasCamera).destroyed == s.destroyed
  {
    if hasCamera {
      MarkedFoldKeepsModel(MarkMultiTouch(s, touches), st, env, touches, |touches|, now);
      assert touches[..|touches|] == touches;
    }
  }

  /** One touch of a marked press: the model survives, and a press still in
      progress afterwards is the same press or one begun by this touch. */
  lemma TouchStepKeepsModel(s: DragState, st: DragSettings, env: Environment, touches: seq<Touch>, t: Touch, now: real)
    requires s.press.isPressing && t.fingerId == s.press.fingerId ==> s.press.hadMultiTouch
    ensures TouchStep(s, st, env, touches, t, now).destroyed == s.destroyed
    ensures TouchStep(s, st, env, touches, t, now).press.isPressing ==>
              (s.press.isPressing && TouchStep(s, st, env, touches, t, now).press.hadMultiTouch == s.press.hadMultiTouch
               && TouchStep(s, st, env, touches, t, now).press.fingerId == s.press.fingerId)
              || TouchStep(s, st, env, touches, t, now).press.fingerId == t.fingerId
  {
    if t.phase == Began && !s.press.isPressing {
    } else if s.press.isPressing && t.fingerId == s.press.fingerId {
      if t.phase == Moved || t.phase == Stationary {
        var s1 := MaybeBeginDrag(s.(press := s.press.(lastTouchPos := t.position)), st, env, now);
        if s1.press.isDragging {
          UpdateDragKeepsPress(s1, env, t.position);
          PinchKeepsPress(UpdateDragStep(s1, env, t.position), env, touches);
        }
      }
    }
  }

  /** The touches of a frame, from a press already marked as multi-touch: the
      model survives, and a press in progress is still marked or was begun by
      one of the touches handled. */
  lemma {:induction false} MarkedFoldKeepsModel(s: DragState, st: DragSettings, env: Environment, touches: seq<Touch>, k: nat, now: real)
    requires s.press.isPressing && s.press.hadMultiTouch && DistinctFingers(touches) && k <= |touches|
    ensures TouchesFold(s, st, env, touches, touches[..k], now).destroyed == s.destroyed
    ensures TouchesFold(s, st, env, touches, touches[..k], now).press.isPressing ==>
              TouchesFold(s, st, env, touches, touches[..k], now).press.hadMultiTouch
              || exists j :: 0 <= j < k && touches[j].fingerId == TouchesFold(s, st, env, touches, touches[..k], now).press.fingerId
  {
    if k > 0 {
      MarkedFoldKeepsModel(s, st, env, touches, k - 1, now);
      assert touches[..k][..k - 1] == touches[..k - 1];
      var before := TouchesFold(s, st, env, touches, touches[..k - 1], now);
      TouchStepKeepsModel(before, st, env, touches, touches[k - 1], now);
    }
  }

  // ---------------------------------------------------------------------------
  // The component

  class AircraftModelDragger {
    const longPressTime: real
    const dragStartPixels: real
    const tapDeletesModel: bool
    const tapMaxTime: real
    const tapMaxMovement: real
    /** `mainCamera != null`. */
    const hasCamera: bool
    /** The holder of the static `AnyModelInGesture`. */
    const gesture: GestureFlag

    /** `_isPressing`, `_isDragging`, `_dragStarted`, `_fingerId`, `_pressStartTime`,
        `_pressStartPos`, `_lastTouchPos` and `_hadMultiTouch`. */
    var press: Press
    /** `_pinchActive` and the pinch baseline. */
    var pinch: Pinch
    /** `transform.position`, `transform.rotation` (as Euler angles) and `transform.localScale`. */
    var position: Vec3
    var rotation: Vec3
    var localScale: Vec3
    /** The model was detached from its detail card by `SetParent(null, true)`. */
    var detached: bool
    /** `Destroy(gameObject)` was called. */
    var destroyed: bool

    function Settings(): DragSettings
    {
      DragSettings(longPressTime, dragStartPixels, tapDeletesModel, tapMaxTime, tapMaxMovement)
    }

    function State(): DragState
      reads this, gesture
    {
      DragState(press, pinch, position, rotation, localScale, detached, destroyed, gesture.anyModelInGesture)
    }

    /** A model spawned under a detail card with the Inspector settings `st`
        (`DefaultDragSettings` unless the prefab overrides them): no press in progress. */
    constructor (st: DragSettings, gesture: GestureFlag, hasCamera: bool, position: Vec3, rotation: Vec3, localScale: Vec3)
      ensures this.gesture == gesture && this.hasCamera == hasCamera
      ensures Settings() == st
      ensures !press.isPressing && Idle(State()) && Consistent(State())
      ensures this.position == position && this.rotation == rotation && this.localScale == localScale
      ensures !detached && !destroyed
    {
      longPressTime := st.longPressTime;
      dragStartPixels := st.dragStartPixels;
      tapDeletesModel := st.tapDeletesModel;
      tapMaxTime := st.tapMaxTime;
      tapMaxMovement := st.tapMaxMovement;
      this.hasCamera := hasCamera;
      this.gesture := gesture;
      press := Press(false, false, false, -1, 0.0, Vec2(0.0, 0.0), Vec2(0.0, 0.0), false);
      pinch := Pinch(false, 0.0, Vec3(0.0, 0.0, 0.0), 0.0, 0.0);
      this.position := position;
      this.rotation := rotation;
      this.localScale := localScale;
      detached := false;
      destroyed := false;
    }

    /** `HandleMouse`, the editor build's `Update`. */
    method HandleMouse(env: Environment, buttonDown: bool, buttonHeld: bool, buttonUp: bool, mousePos: Vec2, now: real)
      modifies this, gesture
      ensures State() == MouseFrame(old(State()), Settings(), env, buttonDown, buttonHeld, buttonUp, mousePos, now, hasCamera)
    {
      if !hasCamera {
        return;
      }
      if buttonDown && !press.isPressing {
        if env.hitsModel(mousePos) {
          press := press.(isPressing := true, pressStartTime := now, pressStartPos := mousePos,
                          lastTouchPos := mousePos, dragStarted := false);
        }
      }
      ghost var pressed := State();
      assert pressed == MousePress(old(State()), env, buttonDown, mousePos, now);
      if press.isPressing && buttonHeld {
        press := press.(lastTouchPos := mousePos);
        ContinuePress(env, now);
        if press.isDragging {
          UpdateDrag(env, mousePos);
        }
      }
      assert State() == MouseHold(pressed, Settings(), env, buttonHeld, mousePos, now);
      if press.isPressing && buttonUp {
        EndPress(env, now);
      }
    }

    /** `HandleTouch`, the device build's `Update`. */
    method HandleTouch(env: Environment, touches: seq<Touch>, now: real)
      modifies this, gesture
      ensures State() == TouchFrame(old(State()), Settings(), env, touches, now, hasCamera)
    {
      if !hasCamera {
        return;
      }
      if |touches| == 0 {
        return;
      }
      if press.isPressing && |touches| > 1 {
        press := press.(hadMultiTouch := true);
      }
      ghost var marked := State();
      for i := 0 to |touches|
        invariant State() == TouchesFold(marked, Settings(), env, touches, touches[..i], now)
      {
        assert touches[..i + 1][..i] == touches[..i];
        HandleTouchEvent(env, touches, touches[i], now);
      }
      assert touches[..|touches|] == touches;
    }

    /** The body of the `foreach` in `HandleTouch`. */
    method HandleTouchEvent(env: Environment, touches: seq<Touch>, touch: Touch, now: real)
      modifies this, gesture
      ensures State() == TouchStep(old(State()), Settings(), env, touches, touch, now)
    {
      if touch.phase == Began && !press.isPressing {
        if env.hitsModel(touch.position) {
          press := press.(isPressing := true, fingerId := touch.fingerId, pressStartTime := now,
                          pressStartPos := touch.position, lastTouchPos := touch.position,
                          dragStarted := false, hadMultiTouch := false);
        }
      } else if press.isPressing && touch.fingerId == press.fingerId {
        if touch.phase == Moved || touch.phase == Stationary {
          press := press.(lastTouchPos := touch.position);
          ContinuePress(env, now);
          if press.isDragging {
            UpdateDrag(env, touch.position);
            HandlePinchAndRotate(env, touches);
          }
        } else if touch.phase == Ended || touch.phase == Canceled {
          EndPress(env, now);
        }
      }
    }

    /** The drag-start test of a continuing press. */
    method ContinuePress(env: Environment, now: real)
      modifies this, gesture
      ensures State() == MaybeBeginDrag(old(State()), Settings(), env, now)
    {
      if !press.dragStarted {
        var held := now - press.pressStartTime;
        var moved := env.distance(press.pressStartPos, press.lastTouchPos);
        if held >= longPressTime || moved >= dragStartPixels {
          BeginDrag();
        }
      }
    }

    /** `BeginDrag`. */
    method BeginDrag()
      modifies this, gesture
      ensures State() == BeginDragStep(old(State()))
    {
      press := press.(dragStarted := true, isDragging := true);
      gesture.anyModelInGesture := true;
      detached := true;
      pinch := pinch.(active := false);
    }

    /** `UpdateDrag`. */
    method UpdateDrag(env: Environment, screenPos: Vec2)
      modifies this
      ensures State() == UpdateDragStep(old(State()), env, screenPos)
    {
      var hit := env.planeAt(screenPos);
      if hit.Some? {
        position := hit.value.position;
        rotation := hit.value.rotation;
      } else {
        position := env.rayPointAt(screenPos);
      }
    }

    /** The `foreach` of `HandlePinchAndRotate` that picks the two touches. */
    method FindPinchPair(touches: seq<Touch>) returns (primary: Option<Touch>, secondary: Option<Touch>)
      ensures (primary, secondary) == PinchPair(touches, press.fingerId)
    {
      primary, secondary := None, None;
      for i := 0 to |touches|
        invariant (primary, secondary) == PinchPair(touches[..i], press.fingerId)
      {
        assert touches[..i + 1][..i] == touches[..i];
        var t := touches[i];
        if t.fingerId == press.fingerId {
          primary := Some(t);
        } else if secondary.None? {
          secondary := Some(t);
        }
      }
      assert touches[..|touches|] == touches;
    }

    /** `HandlePinchAndRotate`. */
    method HandlePinchAndRotate(env: Environment, touches: seq<Touch>)
      modifies this
      ensures State() == PinchStep(old(State()), env, touches)
    {
      if |touches| < 2 {
        pinch := pinch.(active := false);
        return;
      }
      var primary, secondary := FindPinchPair(touches);
      if primary.None? || secondary.None? {
        pinch := pinch.(active := false);
        return;
      }
      var t0, t1 := primary.value, secondary.value;
      var currentDistance := env.distance(t0.position, t1.position);
      var currentAngle := env.twistAngle(t0.position, t1.position);
      if !pinch.active {
        pinch := Pinch(true, currentDistance, localScale, currentAngle, rotation.y);
        return;
      }
      if pinch.initialDistance > 1.0 {
        var scaleFactor := currentDistance / pinch.initialDistance;
        localScale := pinch.initialScale.Scale(scaleFactor);
      }
      var angleDelta := currentAngle - pinch.initialTwistAngle;
      var targetY := pinch.initialYRotation + angleDelta;
      rotation := YawOnly(targetY);
    }

    /** `EndPress`. */
    method EndPress(env: Environment, now: real)
      modifies this, gesture
      ensures State() == EndPressStep(old(State()), Settings(), env, now)
    {
      var moved := env.distance(press.pressStartPos, press.lastTouchPos);
      var wasTap := !press.dragStarted && !press.hadMultiTouch && tapDeletesModel
                    && now - press.pressStartTime <= tapMaxTime
                    && moved <= tapMaxMovement;
      if wasTap {
        destroyed := true;
      }
      press := press.(isPressing := false, isDragging := false, dragStarted := false, fingerId := -1,
                      pressStartTime := 0.0, hadMultiTouch := false);
      pinch := pinch.(active := false);
      gesture.anyModelInGesture := false;
    }
  }
}
