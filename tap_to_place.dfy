/** `TapToPlaceRoot`: places the plot on an AR plane with the first tap, moves it
    under a finger held still long enough, and scales and turns it with two
    fingers. Time, distances, angles, UI hit tests and plane raycasts are inputs. */
module TapToPlace {
  import opened Common

  /** The long-press candidate: `_holdCandidate`, `_holdFingerId`, `_touchStartTime`, `_touchStartPos`. */
  datatype Hold = Hold(candidate: bool, fingerId: int, startTime: real, startPos: Vec2)

  /** The two-finger baseline: `_initialDistance`, `_initialScale`, `_initialRotationOffsetY`. */
  datatype TwoFinger = TwoFinger(initialDistance: real, initialScale: Vec3, initialRotationOffsetY: real)

  /** The transform of the placed plot; `rotation` holds Euler angles. */
  datatype PlotTransform = PlotTransform(position: Vec3, rotation: Vec3, localScale: Vec3)

  /** The Inspector settings and the prefab's own scale. */
  datatype PlaceSettings = PlaceSettings(
    hasObjectToPlace: bool,
    prefabScale: Vec3,
    longPressDuration: real,
    maxTapMove: real)

  /** The field initialisers of `longPressDuration` (seconds) and `maxTapMove` (pixels). */
  const DefaultLongPressDuration: real := 2.0
  const DefaultMaxTapMove: real := 15.0

  /** What the engine answers: the plane pose an AR raycast at a screen
      position finds, whether a finger is over UI, the pixel distance between
      two points, and the twist angle (`Atan2` in degrees) of two touches. */
  datatype ArInputs = ArInputs(
    planeAt: Vec2 -> Option<Pose>,
    overUI: int -> bool,
    distance: (Vec2, Vec2) -> real,
    twistAngle: (Vec2, Vec2) -> real)

  /** The component's state: the hold candidate, the two-finger baseline, the
      placed plot, how many times the prefab was instantiated, and whether the
      scanning visuals were hidden and point selection scheduled. */
  datatype PlaceState = PlaceState(
    hold: Hold,
    twoFinger: TwoFinger,
    spawned: Option<PlotTransform>,
    instantiations: nat,
    scanningHidden: bool,
    selectionScheduled: bool)

  /** Forget the long-press candidate. */
  function CancelHold(s: PlaceState): PlaceState
  {
    s.(hold := s.hold.(candidate := false, fingerId := -1))
  }

  /** `TryPlace`: with a prefab, a plane under the finger and nothing placed
      yet, instantiate the plot on the plane, schedule point selection and hide
      the scanning visuals. */
  function TryPlaceStep(s: PlaceState, c: PlaceSettings, env: ArInputs, screenPos: Vec2): PlaceState
  {
    if !c.hasObjectToPlace then s
    else
      match env.planeAt(screenPos)
      case Some(pose) =>
        if s.spawned.None?
        then s.(spawned := Some(PlotTransform(pose.position, pose.rotation, c.prefabScale)),
                instantiations := s.instantiations + 1, scanningHidden := true, selectionScheduled := true)
        else s
      case None => s
  }

  /** `HandleTouchBegan`: place if nothing is placed, and arm a hold candidate for this finger. */
  function BeganStep(s: PlaceState, c: PlaceSettings, env: ArInputs, t: Touch, now: real): PlaceState
  {
    var placed := if s.spawned.None? then TryPlaceStep(s, c, env, t.position) else s;
    placed.(hold := Hold(true, t.fingerId, now, t.position))
  }

  /** `MoveRootTo`: onto the plane under the finger, keeping rotation and scale. */
  function MoveRootStep(s: PlaceState, env: ArInputs, screenPos: Vec2): PlaceState
  {
    match env.planeAt(screenPos)
    case Some(pose) =>
      if s.spawned.Some? then s.(spawned := Some(s.spawned.value.(position := pose.position))) else s
    case None => s
  }

  /** `HandleTouchHold`: only the tracked finger of an armed candidate, and only
      once something is placed; moving too far cancels, holding long enough moves the plot. */
  function HoldStep(s: PlaceState, c: PlaceSettings, env: ArInputs, t: Touch, now: real): PlaceState
  {
    if !s.hold.candidate || t.fingerId != s.hold.fingerId then s
    else if s.spawned.None? then s
    else if env.distance(t.position, s.hold.startPos) > c.maxTapMove then CancelHold(s)
    else if now - s.hold.startTime >= c.longPressDuration then MoveRootStep(s, env, t.position)
    else s
  }

  /** `HandleTouchEnd`: the tracked finger lifting ends the candidate. */
  function EndStep(s: PlaceState, t: Touch): PlaceState
  {
    if t.fingerId == s.hold.fingerId then CancelHold(s) else s
  }

  /** `HandleTwoFingerGesture`: a frame where either finger begins records the
      baseline; later frames scale by the distance ratio (for a baseline over
      0.01 pixels) and turn to the twist angle minus the baseline offset. */
  function TwoFingerStep(s: PlaceState, env: ArInputs, t0: Touch, t1: Touch): PlaceState
  {
    if s.spawned.None? then s
    else
      var plot := s.spawned.value;
      var distance := env.distance(t0.position, t1.position);
      var angle := env.twistAngle(t0.position, t1.position);
      if t0.phase == Began || t1.phase == Began then
        s.(twoFinger := TwoFinger(distance, plot.localScale, angle - plot.rotation.y))
      else
        var scaled := if s.twoFinger.initialDistance > 0.01
                      then s.twoFinger.initialScale.Scale(distance / s.twoFinger.initialDistance)
                      else plot.localScale;
        s.(spawned := Some(plot.(localScale := scaled, rotation := YawOnly(angle - s.twoFinger.initialRotationOffsetY))))
  }

  /** `Update`, one frame: no touches reset the candidate; two touches over a
      placed plot cancel it and scale or turn the plot; one touch is dispatched
      on its phase, unless it begins over UI. */
  function UpdateStep(s: PlaceState, c: PlaceSettings, env: ArInputs, touches: seq<Touch>, now: real): PlaceState
  {
    if |touches| == 0 then CancelHold(s)
    else if |touches| == 2 && s.spawned.Some? then TwoFingerStep(CancelHold(s), env, touches[0], touches[1])
    else if |touches| == 1 then
      var t := touches[0];
      if t.phase == Began && env.overUI(t.fingerId) then s
      else
        match t.phase
        case Began => BeganStep(s, c, env, t, now)
        case Moved => HoldStep(s, c, env, t, now)
        case Stationary => HoldStep(s, c, env, t, now)
        case Ended => EndStep(s, t)
        case Canceled => EndStep(s, t)
    else s
  }

  /** One frame of input: the touches and `Time.time`. */
  datatype Frame = Frame(touches: seq<Touch>, now: real)

  /** A run of frames, in order. */
  function Run(s: PlaceState, c: PlaceSettings, env: ArInputs, frames: seq<Frame>): PlaceState
  {
    if frames == [] then s
    else
      var f := frames[|frames| - 1];
      UpdateStep(Run(s, c, env, frames[..|frames| - 1]), c, env, f.touches, f.now)
  }

  // ---------------------------------------------------------------------------
  // Properties of the specification functions

  /** The prefab was instantiated once if a plot is placed, and never otherwise;
      a candidate is armed exactly when a finger is tracked. */
  predicate Coherent(s: PlaceState)
  {
    && s.instantiations == (if s.spawned.Some? then 1 else 0)
    && (s.hold.candidate <==> s.hold.fingerId >= 0)
  }

  /** Unity's finger ids are never negative. */
  predicate RealFingers(touches: seq<Touch>)
  {
    forall i :: 0 <= i < |touches| ==> touches[i].fingerId >= 0
  }

  /** A frame keeps the component coherent and never removes a placed plot. */
  lemma UpdateKeepsCoherent(s: PlaceState, c: PlaceSettings, env: ArInputs, touches: seq<Touch>, now: real)
    requires Coherent(s) && RealFingers(touches)
    ensures Coherent(UpdateStep(s, c, env, touches, now))
    ensures s.spawned.Some? ==> UpdateStep(s, c, env, touches, now).spawned.Some?
    ensures s.spawned.Some? ==> UpdateStep(s, c, env, touches, now).instantiations == s.instantiations
  {
    if |touches| == 1 {
      var t := touches[0];
      assert t.fingerId >= 0;
    }
  }

  /** However many frames pass, the plot is instantiated at most once, and once placed it stays placed. */
  lemma {:induction false} PlacedAtMostOnce(s: PlaceState, c: PlaceSettings, env: ArInputs, frames: seq<Frame>)
    requires Coherent(s)
    requires forall i :: 0 <= i < |frames| ==> RealFingers(frames[i].touches)
    ensures Coherent(Run(s, c, env, frames))
    ensures Run(s, c, env, frames).instantiations <= 1
    ensures s.spawned.Some? ==> Run(s, c, env, frames).spawned.Some?
                                && Run(s, c, env, frames).instantiations == s.instantiations
  {
    if frames != [] {
      var init := frames[..|frames| - 1];
      assert forall i :: 0 <= i < |init| ==> init[i] == frames[i];
      PlacedAtMostOnce(s, c, env, init);
      var f := frames[|frames| - 1];
      UpdateKeepsCoherent(Run(s, c, env, init), c, env, f.touches, f.now);
    }
  }

  /** A frame without touches forgets the long-press candidate and changes nothing else. */
  lemma NoTouchResetsHold(s: PlaceState, c: PlaceSettings, env: ArInputs, now: real)
    ensures UpdateStep(s, c, env, [], now) == s.(hold := s.hold.(candidate := false, fingerId := -1))
  {
  }

  /** A held finger does nothing unless it is the armed candidate's finger and a plot is placed. */
  lemma HoldIgnoredUnlessTracked(s: PlaceState, c: PlaceSettings, env: ArInputs, t: Touch, now: real)
    requires !s.hold.candidate || t.fingerId != s.hold.fingerId || s.spawned.None?
    ensures HoldStep(s, c, env, t, now) == s
  {
  }

  /** A touch that begins over UI leaves everything as it was. */
  lemma TouchOverUIIgnored(s: PlaceState, c: PlaceSettings, env: ArInputs, t: Touch, now: real)
    requires t.phase == Began && env.overUI(t.fingerId)
    ensures UpdateStep(s, c, env, [t], now) == s
  {
  }

  /** A second finger over a placed plot cancels the long-press candidate. */
  lemma SecondFingerCancelsHold(s: PlaceState, c: PlaceSettings, env: ArInputs, touches: seq<Touch>, now: real)
    requires |touches| == 2 && s.spawned.Some?
    ensures !UpdateStep(s, c, env, touches, now).hold.candidate
    ensures UpdateStep(s, c, env, touches, now).hold.fingerId == -1
  {
  }

  /** A begun touch arms the candidate for its finger; it places the plot only
      when nothing was placed, and then exactly where the plane was hit. */
  lemma BeganArmsAndPlacesOnce(s: PlaceState, c: PlaceSettings, env: ArInputs, t: Touch, now: real)
    ensures BeganStep(s, c, env, t, now).hold == Hold(true, t.fingerId, now, t.position)
    ensures s.spawned.Some? ==> BeganStep(s, c, env, t, now).spawned == s.spawned
    ensures s.spawned.None? ==>
              (BeganStep(s, c, env, t, now).spawned.Some? <==> c.hasObjectToPlace && env.planeAt(t.position).Some?)
    ensures s.spawned.None? && BeganStep(s, c, env, t, now).spawned.Some? ==>
              BeganStep(s, c, env, t, now).spawned.value.position == env.planeAt(t.position).value.position
  {
  }

  /** A held finger that stayed within `maxTapMove` for `longPressDuration`
      moves the plot onto the plane under it, keeping rotation and scale; one
      that strayed further cancels the candidate and leaves the plot. */
  lemma LongPressMovesPlot(s: PlaceState, c: PlaceSettings, env: ArInputs, t: Touch, now: real)
    requires s.hold.candidate && t.fingerId == s.hold.fingerId && s.spawned.Some?
    ensures env.distance(t.position, s.hold.startPos) > c.maxTapMove ==>
              HoldStep(s, c, env, t, now) == CancelHold(s)
    ensures env.distance(t.position, s.hold.startPos) <= c.maxTapMove
            && now - s.hold.startTime >= c.longPressDuration && env.planeAt(t.position).Some? ==>
              HoldStep(s, c, env, t, now).spawned
              == Some(s.spawned.value.(position := env.planeAt(t.position).value.position))
    ensures now - s.hold.startTime < c.longPressDuration ==> HoldStep(s, c, env, t, now).spawned == s.spawned
  {
  }

  /** Lifting any finger but the tracked one leaves the candidate as it was. */
  lemma OtherFingerEndKeepsHold(s: PlaceState, t: Touch)
    ensures t.fingerId != s.hold.fingerId ==> EndStep(s, t) == s
    ensures t.fingerId == s.hold.fingerId ==> !EndStep(s, t).hold.candidate
  {
  }

  /** After the baseline frame, the plot is turned to a pure yaw: its yaw at the
      baseline turned by the change in twist angle. For a baseline over 0.01
      pixels its scale is the baseline scale times the ratio of finger
      distances; otherwise the scale stays. */
  lemma TwistFollowsFingers(s: PlaceState, env: ArInputs, t0: Touch, t1: Touch, u0: Touch, u1: Touch)
    requires s.spawned.Some? && (t0.phase == Began || t1.phase == Began)
    requires u0.phase != Began && u1.phase != Began
    ensures TwoFingerStep(TwoFingerStep(s, env, t0, t1), env, u0, u1).spawned.value.rotation
            == YawOnly(s.spawned.value.rotation.y
                       + (env.twistAngle(u0.position, u1.position) - env.twistAngle(t0.position, t1.position)))
    ensures env.distance(t0.position, t1.position) <= 0.01 ==>
              TwoFingerStep(TwoFingerStep(s, env, t0, t1), env, u0, u1).spawned.value.localScale
              == s.spawned.value.localScale
    ensures var after := TwoFingerStep(TwoFingerStep(s, env, t0, t1), env, u0, u1).spawned.value;
            after.rotation.y - s.spawned.value.rotation.y
            == env.twistAngle(u0.position, u1.position) - env.twistAngle(t0.position, t1.position)
    ensures var d := env.distance(t0.position, t1.position);
            d > 0.01 ==>
              TwoFingerStep(TwoFingerStep(s, env, t0, t1), env, u0, u1).spawned.value.localScale
              == s.spawned.value.localScale.Scale(env.distance(u0.position, u1.position) / d)
    ensures TwoFingerStep(TwoFingerStep(s, env, t0, t1), env, u0, u1).spawned.value.position
            == s.spawned.value.position
  {
  }

  /** Two fingers that have not moved since the frame that recorded the
      baseline keep the plot's yaw and its scale: over a baseline of more than
      0.01 pixels by a distance ratio of one, otherwise by leaving it alone. */
  lemma TwistAtBaselineKeepsPlot(s: PlaceState, env: ArInputs, t0: Touch, t1: Touch, u0: Touch, u1: Touch)
    requires s.spawned.Some? && (t0.phase == Began || t1.phase == Began)
    requires u0.phase != Began && u1.phase != Began
    requires u0.position == t0.position && u1.position == t1.position
    ensures TwoFingerStep(TwoFingerStep(s, env, t0, t1), env, u0, u1).spawned.value.rotation
            == YawOnly(s.spawned.value.rotation.y)
    ensures TwoFingerStep(TwoFingerStep(s, env, t0, t1), env, u0, u1).spawned.value.localScale
            == s.spawned.value.localScale
  {
    var d := env.distance(t0.position, t1.position);
    if d > 0.01 {
      assert d / d == 1.0;
    }
  }

  // ---------------------------------------------------------------------------
  // The component

  class TapToPlaceRoot {
    /** `objectToPlace != null`. */
    const hasObjectToPlace: bool
    /** The `localScale` of the `objectToPlace` prefab. */
    const prefabScale: Vec3
    const longPressDuration: real
    const maxTapMove: real

    var hold: Hold
    var twoFinger: TwoFinger
    /** `_spawnedObject`, by its transform; `None` while it is null. */
    var spawned: Option<PlotTransform>
    /** How many times `Instantiate(objectToPlace, …)` has run. */
    var instantiations: nat
    /** `DisableScanningVisuals` has hidden the planes and the scanning UI. */
    var scanningHidden: bool
    /** `EnableSelectionNextFrame` has been started. */
    var selectionScheduled: bool

    function Settings(): PlaceSettings
    {
      PlaceSettings(hasObjectToPlace, prefabScale, longPressDuration, maxTapMove)
    }

    function State(): PlaceState
      reads this
    {
      PlaceState(hold, twoFinger, spawned, instantiations, scanningHidden, selectionScheduled)
    }

    /** The component before any touch, with the Inspector settings `c` (the
        long-press time and tap radius default to `DefaultLongPressDuration` and
        `DefaultMaxTapMove` unless the scene overrides them). */
    constructor (c: PlaceSettings)
      ensures Settings() == c
      ensures spawned.None? && !hold.candidate && Coherent(State())
      ensures !scanningHidden && !selectionScheduled
    {
      hasObjectToPlace := c.hasObjectToPlace;
      prefabScale := c.prefabScale;
      longPressDuration := c.longPressDuration;
      maxTapMove := c.maxTapMove;
      hold := Hold(false, -1, 0.0, Vec2(0.0, 0.0));
      twoFinger := TwoFinger(0.0, Vec3(0.0, 0.0, 0.0), 0.0);
      spawned := None;
      instantiations := 0;
      scanningHidden := false;
      selectionScheduled := false;
    }

    /** `Update`, one frame. */
    method Update(env: ArInputs, touches: seq<Touch>, now: real)
      modifies this
      ensures State() == UpdateStep(old(State()), Settings(), env, touches, now)
    {
      var touchCount := |touches|;
      if touchCount == 0 {
        hold := hold.(candidate := false, fingerId := -1);
        return;
      }
      if touchCount == 2 && spawned.Some? {
        hold := hold.(candidate := false, fingerId := -1);
        HandleTwoFingerGesture(env, touches[0], touches[1]);
        return;
      }
      if touchCount == 1 {
        var touch := touches[0];
        if touch.phase == Began && env.overUI(touch.fingerId) {
          return;
        }
        match touch.phase {
          case Began => HandleTouchBegan(env, touch, now);
          case Moved => HandleTouchHold(env, touch, now);
          case Stationary => HandleTouchHold(env, touch, now);
          case Ended => HandleTouchEnd(touch);
          case Canceled => HandleTouchEnd(touch);
        }
      }
    }

    /** `HandleTouchBegan`. */
    method HandleTouchBegan(env: ArInputs, touch: Touch, now: real)
      modifies this
      ensures State() == BeganStep(old(State()), Settings(), env, touch, now)
    {
      if spawned.None? {
        TryPlace(env, touch.position);
      }
      hold := Hold(true, touch.fingerId, now, touch.position);
    }

    /** `HandleTouchHold`. */
    method HandleTouchHold(env: ArInputs, touch: Touch, now: real)
      modifies this
      ensures State() == HoldStep(old(State()), Settings(), env, touch, now)
    {
      if !hold.candidate || touch.fingerId != hold.fingerId {
        return;
      }
      if spawned.None? {
        return;
      }
      if env.distance(touch.position, hold.startPos) > maxTapMove {
        hold := hold.(candidate := false, fingerId := -1);
        return;
      }
      if now - hold.startTime >= longPressDuration {
        MoveRootTo(env, touch.position);
      }
    }

    /** `HandleTouchEnd`. */
    method HandleTouchEnd(touch: Touch)
      modifies this
      ensures State() == EndStep(old(State()), touch)
    {
      if touch.fingerId == hold.fingerId {
        hold := hold.(candidate := false, fingerId := -1);
      }
    }

    /** `TryPlace`. */
    method TryPlace(env: ArInputs, screenPosition: Vec2)
      modifies this
      ensures State() == TryPlaceStep(old(State()), Settings(), env, screenPosition)
    {
      if !hasObjectToPlace {
        return;
      }
      var hit := env.planeAt(screenPosition);
      if hit.Some? {
        var hitPose := hit.value;
        if spawned.None? {
          spawned := Some(PlotTransform(hitPose.position, hitPose.rotation, prefabScale));
          instantiations := instantiations + 1;
          selectionScheduled := true;
          scanningHidden := true;
        }
      }
    }

    /** `MoveRootTo`. */
    method MoveRootTo(env: ArInputs, screenPosition: Vec2)
      modifies this
      ensures State() == MoveRootStep(old(State()), env, screenPosition)
    {
      var hit := env.planeAt(screenPosition);
      if hit.Some? {
        var hitPose := hit.value;
        if spawned.Some? {
          spawned := Some(spawned.value.(position := hitPose.position));
        }
      }
    }

    /** `HandleTwoFingerGesture`. */
    method HandleTwoFingerGesture(env: ArInputs, t0: Touch, t1: Touch)
      modifies this
      ensures State() == TwoFingerStep(old(State()), env, t0, t1)
    {
      if spawned.None? {
        return;
      }
      if t0.phase == Began || t1.phase == Began {
        var initialDistance := env.distance(t0.position, t1.position);
        var touchesAngle := env.twistAngle(t0.position, t1.position);
        twoFinger := TwoFinger(initialDistance, spawned.value.localScale, touchesAngle - spawned.value.rotation.y);
      } else {
        var currentDistance := env.distance(t0.position, t1.position);
        var plot := spawned.value;
        if twoFinger.initialDistance > 0.01 {
          var scaleFactor := currentDistance / twoFinger.initialDistance;
          plot := plot.(localScale := twoFinger.initialScale.Scale(scaleFactor));
        }
        var angle := env.twistAngle(t0.position, t1.position);
        var targetY := angle - twoFinger.initialRotationOffsetY;
        spawned := Some(plot.(rotation := YawOnly(targetY)));
      }
    }
  }
}
