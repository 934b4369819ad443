/**
 * The rotary dial ("disco giratório") that serves as the application's main
 * navigation control: the user flings the disc with the mouse, the disc
 * keeps spinning with friction and a perpetual slow creep, and on release the
 * needle selects the navigation button it points at.
 *
 * The trigonometry of the browser (the pointer angle from `atan2`, and the
 * dot product between the needle direction and each button direction) is not
 * modelled: pointer angles arrive as numbers in [-180, 180], and the dot
 * products of the buttons at a given disc rotation come from a caller-supplied
 * function `dotsAt`.
 */
module Dial {
  import opened Wrappers
  import opened Numbers

  /** Per-frame velocity multiplier while spinning freely. */
  const Friction: real := 0.985
  /** Speed (degrees per frame) of the perpetual creep. */
  const MinSpin: real := 0.25
  /** Factor from a pointer angle change to the disc velocity while dragging. */
  const DragGain: real := 1.5
  /** Viewports this wide or narrower ignore the mouse and never highlight. */
  const NarrowViewport: int := 768
  /** cos 15°: `acos(dot) <= 15°` holds exactly when `Cos15 <= dot <= 1`. */
  const Cos15: real := 0.9659258262890683

  /** JavaScript's Math.sign on a number that is not NaN. */
  function Sign(x: real): real { if x > 0.0 then 1.0 else if x < 0.0 then -1.0 else 0.0 }

  predicate ValidSign(s: real) { s == 1.0 || s == -1.0 }

  // ---------------------------------------------------------------------------
  // Button detection
  // ---------------------------------------------------------------------------

  /** The acos test of the source: an angle of at most 15° between needle and
      button. A dot product above 1 (a rounding artefact) makes acos NaN and
      the test false, hence the upper bound. */
  predicate WithinTolerance(dot: real) { Cos15 <= dot <= 1.0 }

  /** The scan of `detectButton`: visits the buttons in order, keeping the
      button with the best dot product so far among those within tolerance;
      `bestDot` starts at -2 and a later button replaces it only when strictly
      better. The requires clause is the scan's invariant over dots[..i]. */
  function Scan(dots: seq<real>, i: nat, found: Option<nat>, bestDot: real): (r: Option<nat>)
    requires i <= |dots|
    requires found.None? ==> bestDot == -2.0 && forall k :: 0 <= k < i ==> !WithinTolerance(dots[k])
    requires found.Some? ==>
      found.value < i && WithinTolerance(dots[found.value]) && bestDot == dots[found.value] &&
      (forall k :: 0 <= k < i && WithinTolerance(dots[k]) ==> dots[k] <= bestDot) &&
      (forall k :: 0 <= k < found.value && WithinTolerance(dots[k]) ==> dots[k] < bestDot)
    ensures r.None? <==> forall k :: 0 <= k < |dots| ==> !WithinTolerance(dots[k])
    ensures r.Some? ==>
      r.value < |dots| && WithinTolerance(dots[r.value]) &&
      (forall k :: 0 <= k < |dots| && WithinTolerance(dots[k]) ==> dots[k] <= dots[r.value]) &&
      (forall k :: 0 <= k < r.value && WithinTolerance(dots[k]) ==> dots[k] < dots[r.value])
    decreases |dots| - i
  {
    if i == |dots| then found
    else if WithinTolerance(dots[i]) && dots[i] > bestDot then Scan(dots, i + 1, Some(i), dots[i])
    else Scan(dots, i + 1, found, bestDot)
  }

  /** `detectButton`: the index of the button the needle points at, if any.
      None exactly when no button is within 15°; otherwise a button within
      15° whose dot product is maximal among those within 15°, and the
      earliest such button on ties. */
  function DetectButton(dots: seq<real>): (r: Option<nat>)
    ensures r.None? <==> forall k :: 0 <= k < |dots| ==> !WithinTolerance(dots[k])
    ensures r.Some? ==>
      r.value < |dots| && WithinTolerance(dots[r.value]) &&
      (forall k :: 0 <= k < |dots| && WithinTolerance(dots[k]) ==> dots[k] <= dots[r.value]) &&
      (forall k :: 0 <= k < r.value && WithinTolerance(dots[k]) ==> dots[k] < dots[r.value])
  {
    Scan(dots, 0, None, -2.0)
  }

  /** The maximal within-tolerance button that comes first is unique, so the
      contract of DetectButton fixes its answer. */
  lemma DetectButtonIsEarliestBest(dots: seq<real>, j: nat)
    requires j < |dots| && WithinTolerance(dots[j])
    requires forall k :: 0 <= k < |dots| && WithinTolerance(dots[k]) ==> dots[k] <= dots[j]
    requires forall k :: 0 <= k < j && WithinTolerance(dots[k]) ==> dots[k] < dots[j]
    ensures DetectButton(dots) == Some(j)
  {
  }

  // ---------------------------------------------------------------------------
  // Navigation
  // ---------------------------------------------------------------------------

  /** The sections the four compass buttons lead to (tab ids in the page). */
  datatype Tab = Afinador | Cursos | Instrumentos | Ranking

  /** The class that marks the button leading to a tab. */
  function CompassClass(t: Tab): string
  {
    match t
    case Afinador => "norte"
    case Cursos => "sul"
    case Instrumentos => "sudoeste"
    case Ranking => "oeste"
  }

  /** The order in which `goToTabFromButton` tests the classes. */
  function Rank(t: Tab): nat
  {
    match t
    case Afinador => 0
    case Cursos => 1
    case Instrumentos => 2
    case Ranking => 3
  }

  /** `goToTabFromButton`: the tab a button with these classes switches to.
      None exactly when the button carries no compass class; otherwise the
      button carries the chosen tab's class and no class tested before it. */
  function GoToTabFromButton(classes: set<string>): (r: Option<Tab>)
    ensures r.Some? ==>
      CompassClass(r.value) in classes &&
      forall t: Tab :: Rank(t) < Rank(r.value) ==> CompassClass(t) !in classes
  {
    if "norte" in classes then Some(Afinador)
    else if "sul" in classes then Some(Cursos)
    else if "sudoeste" in classes then Some(Instrumentos)
    else if "oeste" in classes then Some(Ranking)
    else None
  }

  /** A button leads nowhere exactly when it carries no compass class. */
  lemma NoCompassClassNoTab(classes: set<string>)
    ensures GoToTabFromButton(classes).None? <==> forall t: Tab :: CompassClass(t) !in classes
  {
    if GoToTabFromButton(classes).None? {
      forall t: Tab ensures CompassClass(t) !in classes {
        match t
        case Afinador =>
        case Cursos =>
        case Instrumentos =>
        case Ranking =>
      }
    }
  }

  /** Each compass button leads to its own tab, and no two lead to the same. */
  lemma CompassButtonsRoundTrip(t: Tab, u: Tab)
    ensures GoToTabFromButton({CompassClass(t)}) == Some(t)
    ensures t != u ==> CompassClass(t) != CompassClass(u)
  {
    match t
    case Afinador =>
    case Cursos =>
    case Instrumentos =>
    case Ranking =>
  }

  // ---------------------------------------------------------------------------
  // Physics
  // ---------------------------------------------------------------------------

  /** The state the dial's handlers share. */
  datatype DialState = DialState(
    isDragging: bool,
    currentRotation: real,
    velocity: real,
    lastAngle: real,
    lastSpinSign: real,
    activeButton: Option<nat>,
    locked: bool,
    isPaused: bool,
    movedThisFrame: bool)

  const InitialState: DialState :=
    DialState(false, 0.0, 0.0, 0.0, 1.0, None, false, false, false)

  /** Velocity after one frame of free spin: friction while faster than the
      creep, otherwise the creep in the direction last recorded while dragging. */
  function FreeSpinVelocity(v: real, spinSign: real): (w: real)
    requires ValidSign(spinSign)
    ensures Abs(v) > MinSpin ==> w * v > 0.0 && Abs(w) < Abs(v)
    ensures Abs(v) <= MinSpin ==> w == spinSign * MinSpin
    ensures Abs(w) >= Friction * MinSpin
  {
    if Abs(v) > MinSpin then v * Friction else spinSign * MinSpin
  }

  /** `updateRotation`: one frame of the physics. */
  function RotationStep(s: DialState): (t: DialState)
    requires ValidSign(s.lastSpinSign)
    ensures ValidSign(t.lastSpinSign)
    // only the rotation, velocity, recorded direction and movement flag can change
    ensures t == s.(currentRotation := t.currentRotation, velocity := t.velocity,
                    lastSpinSign := t.lastSpinSign, movedThisFrame := t.movedThisFrame)
    // a paused frame changes nothing
    ensures s.isPaused ==> t == s
    // stall guard: a dragging frame without pointer movement stops the disc
    ensures s.isDragging && !s.isPaused && !s.movedThisFrame ==>
      t.velocity == 0.0 && t.currentRotation == s.currentRotation &&
      t.lastSpinSign == s.lastSpinSign
    // a dragging frame with movement turns the disc by the drag velocity and
    // records its direction
    ensures s.isDragging && !s.isPaused && s.movedThisFrame ==>
      t.velocity == s.velocity && t.currentRotation == s.currentRotation + s.velocity &&
      (s.velocity != 0.0 ==> t.lastSpinSign * s.velocity > 0.0) &&
      (s.velocity == 0.0 ==> t.lastSpinSign == s.lastSpinSign)
    ensures s.isDragging && !s.isPaused ==> !t.movedThisFrame
    // a free frame applies friction or creep and turns the disc by the new velocity
    ensures !s.isDragging && !s.isPaused ==>
      t.velocity == FreeSpinVelocity(s.velocity, s.lastSpinSign) &&
      t.currentRotation == s.currentRotation + t.velocity &&
      t.lastSpinSign == s.lastSpinSign && t.movedThisFrame == s.movedThisFrame
  {
    if s.isDragging && !s.isPaused then
      if s.movedThisFrame then
        s.(currentRotation := s.currentRotation + s.velocity,
           lastSpinSign := if s.velocity != 0.0 then Sign(s.velocity) else s.lastSpinSign,
           movedThisFrame := false)
      else
        s.(velocity := 0.0, movedThisFrame := false)
    else if !s.isPaused then
      var v := FreeSpinVelocity(s.velocity, s.lastSpinSign);
      s.(velocity := v, currentRotation := s.currentRotation + v)
    else
      s
  }

  /** `spin`: one animation frame. Unless locked, the physics runs; then the
      highlighted button follows the needle at the new rotation (never on a
      narrow viewport). A locked dial is frozen: nothing changes. */
  function FrameStep(s: DialState, viewportWidth: int, dotsAt: real -> seq<real>): (t: DialState)
    requires ValidSign(s.lastSpinSign)
    ensures ValidSign(t.lastSpinSign)
    ensures s.locked ==> t == s
    ensures !s.locked ==>
      t.(activeButton := s.activeButton) == RotationStep(s) &&
      t.activeButton ==
        (if viewportWidth > NarrowViewport then DetectButton(dotsAt(t.currentRotation)) else None)
  {
    if s.locked then s
    else
      var moved := RotationStep(s);
      var found := if viewportWidth > NarrowViewport then DetectButton(dotsAt(moved.currentRotation)) else None;
      moved.(activeButton := found)
  }

  /** Iterated free frames: the velocity after `n` frames without dragging. */
  function FreeFrames(v: real, spinSign: real, n: nat): real
    requires ValidSign(spinSign)
    decreases n
  {
    if n == 0 then v else FreeFrames(FreeSpinVelocity(v, spinSign), spinSign, n - 1)
  }

  /** `n` frames of `updateRotation` from state `s`. */
  function Frames(s: DialState, n: nat): (t: DialState)
    requires ValidSign(s.lastSpinSign)
    ensures ValidSign(t.lastSpinSign)
    decreases n
  {
    if n == 0 then s else Frames(RotationStep(s), n - 1)
  }

  /** While the disc is neither dragged nor paused, n frames of
      `updateRotation` turn its velocity into FreeFrames of it, keep the
      recorded direction, and leave it undragged and unpaused; so the lemmas
      below about FreeFrames are facts about the frame step itself. */
  lemma {:induction false} FreeFramesAreRotationSteps(s: DialState, n: nat)
    requires ValidSign(s.lastSpinSign) && !s.isDragging && !s.isPaused
    ensures Frames(s, n).velocity == FreeFrames(s.velocity, s.lastSpinSign, n)
    ensures Frames(s, n).lastSpinSign == s.lastSpinSign
    ensures !Frames(s, n).isDragging && !Frames(s, n).isPaused
    decreases n
  {
    if n > 0 {
      var t := RotationStep(s);
      assert t.velocity == FreeSpinVelocity(s.velocity, s.lastSpinSign);
      FreeFramesAreRotationSteps(t, n - 1);
    }
  }

  /** The creep is a fixed point of free spinning. */
  lemma {:induction false} CreepIsFixedPoint(spinSign: real, n: nat)
    requires ValidSign(spinSign)
    ensures FreeFrames(spinSign * MinSpin, spinSign, n) == spinSign * MinSpin
    decreases n
  {
    if n > 0 {
      CreepIsFixedPoint(spinSign, n - 1);
    }
  }

  /** Spinning down in the recorded direction never stops the disc, never
      reverses it and never speeds it up. */
  lemma {:induction false} SpinDownKeepsDirection(v: real, spinSign: real, n: nat)
    requires ValidSign(spinSign) && v * spinSign > 0.0
    ensures FreeFrames(v, spinSign, n) * spinSign > 0.0
    ensures Abs(FreeFrames(v, spinSign, n)) <= if Abs(v) > MinSpin then Abs(v) else MinSpin
    decreases n
  {
    if n > 0 {
      var w := FreeSpinVelocity(v, spinSign);
      if Abs(v) > MinSpin {
        assert w == v * Friction;
        assert w * spinSign == Friction * (v * spinSign);
      }
      SpinDownKeepsDirection(w, spinSign, n - 1);
    }
  }

  /** The friction decay reaches the creep in finitely many frames: a velocity
      of magnitude at most MinSpin * (1 + 0.015 n) has become exactly the
      creep after n + 1 frames. */
  lemma {:induction false} SettlesIntoCreep(v: real, spinSign: real, n: nat)
    requires ValidSign(spinSign)
    requires Abs(v) <= MinSpin * (1.0 + 0.015 * n as real)
    ensures FreeFrames(v, spinSign, n + 1) == spinSign * MinSpin
    decreases n
  {
    var w := FreeSpinVelocity(v, spinSign);
    assert FreeFrames(v, spinSign, n + 1) == FreeFrames(w, spinSign, n);
    if Abs(v) <= MinSpin {
      CreepIsFixedPoint(spinSign, n);
    } else {
      assert n > 0;
      assert Abs(w) == Friction * Abs(v);
      assert Friction * (1.0 + 0.015 * n as real) <= 1.0 + 0.015 * (n - 1) as real;
      assert Abs(w) <= MinSpin * (1.0 + 0.015 * (n - 1) as real);
      SettlesIntoCreep(w, spinSign, n - 1);
    }
  }

  /** From a velocity of 10 degrees per frame the disc slows to the creep in
      its own direction, and is creeping after 2601 frames. */
  lemma SpinDownFromTen(n: nat)
    ensures FreeFrames(10.0, 1.0, n) > 0.0
    ensures n >= 2601 ==> FreeFrames(10.0, 1.0, n) == MinSpin
  {
    SpinDownKeepsDirection(10.0, 1.0, n);
    if n >= 2601 {
      SettlesIntoCreep(10.0, 1.0, n - 1);
    }
  }

  /** The creep follows the direction recorded in dragging frames, not the
      velocity: a disc sent backwards while the recorded direction is forwards
      ends up creeping forwards. */
  lemma CreepFollowsRecordedDirection()
    ensures FreeFrames(-1.0, 1.0, 201) == MinSpin
  {
    SettlesIntoCreep(-1.0, 1.0, 200);
  }

  // ---------------------------------------------------------------------------
  // Mouse handlers
  // ---------------------------------------------------------------------------

  /** The pointer angle change of a drag, corrected by a full turn when it
      exceeds half a turn. For pointer angles in [-180, 180] the change lies in
      [-360, 360], and the corrected change is the shortest turn between them. */
  function WrapDelta(raw: real): (d: real)
    ensures d == raw || d == raw - 360.0 || d == raw + 360.0
    ensures -540.0 <= raw <= 540.0 ==> -180.0 <= d <= 180.0
    ensures -180.0 <= raw <= 180.0 ==> d == raw
  {
    var d := if raw > 180.0 then raw - 360.0 else raw;
    if d < -180.0 then d + 360.0 else d
  }

  /** A pointer move across the ±180° seam counts as the short way round. */
  lemma WrapAcrossSeam()
    ensures WrapDelta(-179.0 - 179.0) == 2.0
    ensures WrapDelta(179.0 - -179.0) == -2.0
  {
  }

  /** `mousedown` on the disc: starts a drag and unlocks, except on a narrow
      viewport, where it does nothing. */
  function MouseDownStep(s: DialState, viewportWidth: int, angle: real): (t: DialState)
    ensures viewportWidth <= NarrowViewport ==> t == s
    ensures viewportWidth > NarrowViewport ==>
      t.isDragging && !t.locked && t.lastAngle == angle &&
      t.(isDragging := s.isDragging, locked := s.locked, lastAngle := s.lastAngle) == s
  {
    if viewportWidth <= NarrowViewport then s
    else s.(isDragging := true, lastAngle := angle, locked := false)
  }

  /** `mousemove`: while dragging, the velocity becomes the drag gain times the
      shortest turn since the last pointer angle, and the move is recorded for
      the next frame. */
  function MouseMoveStep(s: DialState, angle: real): (t: DialState)
    requires -180.0 <= angle <= 180.0 && -180.0 <= s.lastAngle <= 180.0
    ensures !s.isDragging ==> t == s
    ensures s.isDragging ==>
      t.lastAngle == angle && t.movedThisFrame &&
      -180.0 * DragGain <= t.velocity <= 180.0 * DragGain &&
      t.velocity == DragGain * WrapDelta(angle - s.lastAngle) &&
      t.(velocity := s.velocity, lastAngle := s.lastAngle, movedThisFrame := s.movedThisFrame) == s
  {
    if !s.isDragging then s
    else
      var delta := WrapDelta(angle - s.lastAngle);
      s.(velocity := delta * DragGain, lastAngle := angle, movedThisFrame := true)
  }

  /** `mouseup`: ends a drag and locks the dial exactly when the needle points
      at a button; without a drag it does nothing. */
  function MouseUpStep(s: DialState, dots: seq<real>): (t: DialState)
    ensures !s.isDragging ==> t == s
    ensures s.isDragging ==>
      !t.isDragging &&
      (t.locked <==> exists k :: 0 <= k < |dots| && WithinTolerance(dots[k])) &&
      t.(isDragging := s.isDragging, locked := s.locked) == s
  {
    if !s.isDragging then s
    else s.(isDragging := false, locked := DetectButton(dots).Some?)
  }

  // ---------------------------------------------------------------------------
  // The controller
  // ---------------------------------------------------------------------------

  /** The dial's shared state and its event handlers. The dot products of
      the buttons at a rotation come from `dotsAt`, and `buttons` holds each
      button's classes, in the same order. */
  class RotaryDial {
    var isDragging: bool
    var currentRotation: real
    var velocity: real
    var lastAngle: real
    var lastSpinSign: real
    var activeButton: Option<nat>
    var locked: bool
    var isPaused: bool
    var movedThisFrame: bool

    ghost predicate Valid()
      reads this
    {
      ValidSign(lastSpinSign) && -180.0 <= lastAngle <= 180.0
    }

    function State(): DialState
      reads this
    {
      DialState(isDragging, currentRotation, velocity, lastAngle, lastSpinSign,
                activeButton, locked, isPaused, movedThisFrame)
    }

    constructor ()
      ensures Valid() && State() == InitialState
    {
      isDragging, currentRotation, velocity, lastAngle := false, 0.0, 0.0, 0.0;
      lastSpinSign, activeButton, locked := 1.0, None, false;
      isPaused, movedThisFrame := false, false;
    }

    /** `updateRotation` */
    method UpdateRotation()
      requires Valid()
      modifies this
      ensures Valid() && State() == RotationStep(old(State()))
    {
      if isDragging && !isPaused {
        if movedThisFrame {
          currentRotation := currentRotation + velocity;
          if velocity != 0.0 {
            lastSpinSign := Sign(velocity);
          }
        } else {
          velocity := 0.0;
        }
        movedThisFrame := false;
      } else if !isPaused {
        if Abs(velocity) > MinSpin {
          velocity := velocity * Friction;
          currentRotation := currentRotation + velocity;
        } else {
          velocity := lastSpinSign * MinSpin;
          currentRotation := currentRotation + velocity;
        }
      }
    }

    /** `spin`: one animation frame. */
    method Spin(viewportWidth: int, dotsAt: real -> seq<real>)
      requires Valid()
      modifies this
      ensures Valid() && State() == FrameStep(old(State()), viewportWidth, dotsAt)
    {
      if !locked {
        UpdateRotation();
      }
      var foundButton: Option<nat> := None;
      if viewportWidth > NarrowViewport {
        foundButton := DetectButton(dotsAt(currentRotation));
      }
      if !locked && foundButton != activeButton {
        activeButton := foundButton;
      }
    }

    /** The tonearm click: pauses or resumes the physics. */
    method TogglePause()
      requires Valid()
      modifies this
      ensures Valid() && State() == old(State()).(isPaused := !old(isPaused))
    {
      isPaused := !isPaused;
    }

    method OnMouseDown(viewportWidth: int, angle: real)
      requires Valid() && -180.0 <= angle <= 180.0
      modifies this
      ensures Valid() && State() == MouseDownStep(old(State()), viewportWidth, angle)
    {
      if viewportWidth <= NarrowViewport {
        return;
      }
      isDragging := true;
      lastAngle := angle;
      locked := false;
    }

    method OnMouseMove(angle: real)
      requires Valid() && -180.0 <= angle <= 180.0
      modifies this
      ensures Valid() && State() == MouseMoveStep(old(State()), angle)
    {
      if !isDragging {
        return;
      }
      var delta := angle - lastAngle;
      if delta > 180.0 {
        delta := delta - 360.0;
      }
      if delta < -180.0 {
        delta := delta + 360.0;
      }
      velocity := delta * DragGain;
      lastAngle := angle;
      movedThisFrame := true;
    }

    /** `mouseup`: returns the tab the selection navigates to, if any. The
        rotation does not change here, so the dot products are those of the
        buttons at the current rotation. */
    method OnMouseUp(dots: seq<real>, buttons: seq<set<string>>) returns (selected: Option<Tab>)
      requires Valid() && |dots| == |buttons|
      modifies this
      ensures Valid() && State() == MouseUpStep(old(State()), dots)
      ensures selected ==
        (if old(isDragging) && DetectButton(dots).Some?
         then GoToTabFromButton(buttons[DetectButton(dots).value])
         else None)
    {
      selected := None;
      if !isDragging {
        return;
      }
      isDragging := false;
      var targetButton := DetectButton(dots);
      if targetButton.Some? {
        locked := true;
        selected := GoToTabFromButton(buttons[targetButton.value]);
      } else {
        locked := false;
      }
    }
  }

  /** A flick that moves the pointer and releases it within one frame leaves
      the disc spinning against the recorded direction, so it first slows
      down and then creeps the other way. */
  method FlickReleasedWithinFrame() returns (velocity: real, spinSign: real)
    ensures velocity == -15.0 && spinSign == 1.0
    ensures FreeFrames(velocity, spinSign, 3935) == MinSpin
  {
    var dial := new RotaryDial();
    dial.OnMouseDown(1024, 0.0);
    dial.OnMouseMove(-10.0);
    var selected := dial.OnMouseUp([], []);
    velocity, spinSign := dial.velocity, dial.lastSpinSign;
    SettlesIntoCreep(velocity, spinSign, 3934);
  }
}
