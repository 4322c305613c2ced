/** The interactive camera of the viewer: the `Perspective` settings, the
    `Base` snapshot taken when the left button is pressed, the per-frame
    drag and arrow-key update, and the click handler. */
module Camera {

  /** Size of the window and of the pixel buffer, in pixels. */
  const WIDTH: real := 800.0
  const HEIGHT: real := 600.0

  /** Angle steps per frame for the horizontal (theta) and vertical (phi) keys. */
  const HRSPEED: real := 0.05
  const VRSPEED: real := 0.02

  /** The f32 values of Rust's `PI`, `FRAC_PI_3` and `FRAC_PI_6`. */
  const PI: real := 3.1415927410125732421875
  const FRAC_PI_3: real := 1.0471975803375244140625
  const FRAC_PI_6: real := 0.52359879016876220703125
  const TWO_PI: real := 2.0 * PI

  datatype Vector = Vector(x: real, y: real)

  function Add(a: Vector, b: Vector): Vector
  {
    Vector(a.x + b.x, a.y + b.y)
  }

  function Max(a: real, b: real): real
  {
    if a >= b then a else b
  }

  function Min(a: real, b: real): real
  {
    if a <= b then a else b
  }

  /** One coordinate of quicksilver's `Vector::clamp`: `hi.min(lo.max(v))`. */
  function ClampScalar(v: real, lo: real, hi: real): (r: real)
    ensures lo <= hi ==> lo <= r <= hi
    ensures lo <= v <= hi ==> r == v
    ensures lo <= hi && v < lo ==> r == lo
    ensures lo <= hi && hi < v ==> r == hi
  {
    Min(hi, Max(lo, v))
  }

  /** quicksilver's `Vector::clamp`, coordinate by coordinate. */
  function Clamp(v: Vector, lo: Vector, hi: Vector): (r: Vector)
    ensures lo.x <= hi.x && lo.y <= hi.y ==> lo.x <= r.x <= hi.x && lo.y <= r.y <= hi.y
    ensures lo.x <= v.x <= hi.x && lo.y <= v.y <= hi.y ==> r == v
  {
    Vector(ClampScalar(v.x, lo.x, hi.x), ClampScalar(v.y, lo.y, hi.y))
  }

  predicate InUnitSquare(v: Vector)
  {
    0.0 <= v.x <= 1.0 && 0.0 <= v.y <= 1.0
  }

  // ---------------------------------------------------------------------
  // The Base snapshot

  /** Values frozen at the last left-button press: the mouse position then
      and the center, distance and stretch in force then. */
  datatype Base = Base(origin: Vector, center: Vector, dist: real, stretch: real)

  /** `Base::new`. */
  function NewBase(): (b: Base)
    ensures b.origin == Vector(0.5, 0.5) && b.center == b.origin
    ensures b.dist == 2.0 && b.stretch == 0.25
  {
    Base(Vector(0.5, 0.5), Vector(0.5, 0.5), 2.0, 0.25)
  }

  // ---------------------------------------------------------------------
  // Input as the viewer sees it in one frame

  /** The keys the update polls; left and right variants of a modifier count alike. */
  datatype Keyboard = Keyboard(
    lShift: bool, rShift: bool, lControl: bool, rControl: bool,
    left: bool, right: bool, up: bool, down: bool)
  {
    predicate Shift() { lShift || rShift }
    predicate Control() { lControl || rControl }
  }

  datatype MouseButton = LeftButton | RightButton | MiddleButton

  datatype ButtonState = Pressed | Held | Released | NotPressed

  /** The events the handler distinguishes; every other window event is `OtherEvent`. */
  datatype Event = MouseButtonEvent(button: MouseButton, state: ButtonState) | OtherEvent

  // ---------------------------------------------------------------------
  // The three drag channels, each computed from the snapshot

  /** Mouse displacement since the snapshot, as a fraction of the screen. */
  function Delta(base: Base, mouse: Vector): (d: Vector)
    ensures base.origin.x + d.x * WIDTH == mouse.x && base.origin.y + d.y * HEIGHT == mouse.y
  {
    Vector((mouse.x - base.origin.x) / WIDTH, (mouse.y - base.origin.y) / HEIGHT)
  }

  /** Shift-drag: the snapshot distance moved by the vertical displacement,
      never below 1. */
  function DraggedDist(base: Base, mouse: Vector): (d: real)
    ensures d >= 1.0 && d >= base.dist + Delta(base, mouse).y
    ensures d == 1.0 || d == base.dist + Delta(base, mouse).y
  {
    Max(base.dist + (mouse.y - base.origin.y) / HEIGHT, 1.0)
  }

  /** Control-drag: one screen height of vertical travel changes the
      stretch by exactly 1, in either direction, with no bound. */
  function DraggedStretch(base: Base, mouse: Vector): (s: real)
    ensures (s - base.stretch) * HEIGHT == mouse.y - base.origin.y
  {
    base.stretch + (mouse.y - base.origin.y) / HEIGHT
  }

  /** Plain drag: the snapshot center moved by the displacement and kept in
      the unit square; inside the square it follows the mouse exactly. */
  function DraggedCenter(base: Base, mouse: Vector): (c: Vector)
    ensures InUnitSquare(c)
    ensures InUnitSquare(Add(base.center, Delta(base, mouse))) ==> c == Add(base.center, Delta(base, mouse))
  {
    Clamp(Add(base.center, Delta(base, mouse)), Vector(0.0, 0.0), Vector(1.0, 1.0))
  }

  // ---------------------------------------------------------------------
  // Arrow keys

  /** Left arrow on theta: step down, adding a turn when the result is negative. */
  function TurnLeft(theta: real): (r: real)
    ensures 0.0 <= theta < TWO_PI ==> 0.0 <= r < TWO_PI
    ensures theta - HRSPEED >= 0.0 ==> r == theta - HRSPEED
    ensures theta - HRSPEED < 0.0 ==> r == theta - HRSPEED + TWO_PI
  {
    var t := theta - HRSPEED;
    if t < 0.0 then t + TWO_PI else t
  }

  /** Right arrow on theta: step up, removing a turn when the result reaches 2*pi. */
  function TurnRight(theta: real): (r: real)
    ensures 0.0 <= theta < TWO_PI ==> 0.0 <= r < TWO_PI
    ensures theta + HRSPEED < TWO_PI ==> r == theta + HRSPEED
    ensures theta + HRSPEED >= TWO_PI ==> r == theta + HRSPEED - TWO_PI
  {
    var t := theta + HRSPEED;
    if t - TWO_PI >= 0.0 then t - TWO_PI else t
  }

  /** Up arrow on phi: step up, removing a turn when the result reaches 2*pi. */
  function TurnUp(phi: real): (r: real)
    ensures phi < TWO_PI ==> r < TWO_PI
    ensures 0.0 <= phi < TWO_PI ==> 0.0 <= r < TWO_PI
    ensures phi + VRSPEED < TWO_PI ==> r == phi + VRSPEED
    ensures phi + VRSPEED >= TWO_PI ==> r == phi + VRSPEED - TWO_PI
  {
    var p := phi + VRSPEED;
    if p - TWO_PI >= 0.0 then p - TWO_PI else p
  }

  /** Down arrow: phi steps down and is never wrapped, because the wrap test
      that follows reads theta; that test adds a turn to theta when theta is
      negative, which never happens while theta is in range. */
  function TurnDown(angles: (real, real)): (r: (real, real))
    ensures r.1 == angles.1 - VRSPEED
    ensures 0.0 <= angles.0 ==> r.0 == angles.0
    ensures angles.0 < 0.0 ==> r.0 == angles.0 + TWO_PI
  {
    var a := (angles.0, angles.1 - VRSPEED);
    if a.0 < 0.0 then (a.0 + TWO_PI, a.1) else a
  }

  /** One frame of arrow keys, applied in the order Left, Right, Up, Down. */
  function Turn(keys: Keyboard, angles: (real, real)): (r: (real, real))
    ensures 0.0 <= angles.0 < TWO_PI ==> 0.0 <= r.0 < TWO_PI
    ensures angles.1 < TWO_PI ==> r.1 < TWO_PI
    ensures !keys.left && !keys.right && !keys.up && !keys.down ==> r == angles
  {
    var a1 := if keys.left then (TurnLeft(angles.0), angles.1) else angles;
    var a2 := if keys.right then (TurnRight(a1.0), a1.1) else a1;
    var a3 := if keys.up then (a2.0, TurnUp(a2.1)) else a2;
    if keys.down then TurnDown(a3) else a3
  }

  /** Holding only Down lowers phi by the full step whatever phi was: there
      is no wrap at 0, so phi leaves [0, 2*pi) from below. */
  lemma DownNeverWrapsPhi(keys: Keyboard, angles: (real, real))
    requires keys.down && !keys.up && !keys.left && !keys.right
    requires 0.0 <= angles.0 < TWO_PI
    ensures Turn(keys, angles) == (angles.0, angles.1 - VRSPEED)
    ensures 0.0 <= angles.1 < VRSPEED ==> Turn(keys, angles).1 < 0.0
  {
  }

  /** Arrow keys over any number of frames. */
  function Frames(frames: seq<Keyboard>, angles: (real, real)): (real, real)
  {
    if frames == [] then angles else Frames(frames[1..], Turn(frames[0], angles))
  }

  /** However long the arrow keys are used, theta stays in [0, 2*pi) and phi
      stays below 2*pi (but has no lower bound). */
  lemma {:induction false} FramesKeepAngles(frames: seq<Keyboard>, angles: (real, real))
    requires 0.0 <= angles.0 < TWO_PI
    requires angles.1 < TWO_PI
    ensures 0.0 <= Frames(frames, angles).0 < TWO_PI
    ensures Frames(frames, angles).1 < TWO_PI
  {
    if frames != [] {
      FramesKeepAngles(frames[1..], Turn(frames[0], angles));
    }
  }

  // ---------------------------------------------------------------------
  // The camera settings object

  class Perspective {
    var clicked: bool
    var base: Base
    var center: Vector
    var angles: (real, real)  // (theta, phi)
    var dist: real
    var stretch: real

    /** What every reachable state satisfies: a distance of at least 1, a
        center in the unit square, theta in [0, 2*pi), phi below 2*pi; the
        snapshot holds past values and so satisfies the same bounds. */
    ghost predicate Valid()
      reads this
    {
      dist >= 1.0 && InUnitSquare(center)
      && 0.0 <= angles.0 < TWO_PI && angles.1 < TWO_PI
      && base.dist >= 1.0 && InUnitSquare(base.center)
    }

    /** The values `Perspective::new` gives. */
    predicate HasDefaults()
      reads this
    {
      !clicked && base == NewBase()
      && center == Vector(0.5, 0.5) && angles == (FRAC_PI_3, FRAC_PI_6)
      && dist == 2.0 && stretch == 0.25
    }

    /** `Perspective::new`. */
    constructor ()
      ensures !clicked && base == NewBase()
      ensures center == Vector(0.5, 0.5) && angles == (FRAC_PI_3, FRAC_PI_6)
      ensures dist == 2.0 && stretch == 0.25
      ensures HasDefaults() && Valid()
    {
      clicked := false;
      base := NewBase();
      center := Vector(0.5, 0.5);
      angles := (FRAC_PI_3, FRAC_PI_6);
      dist := 2.0;
      stretch := 0.25;
    }

    /** The click handler: a left-button press toggles `clicked` and takes a
        fresh snapshot; every other event leaves the settings alone. */
    method HandleEvent(event: Event, mouse: Vector)
      modifies this
      ensures event == MouseButtonEvent(LeftButton, Pressed) ==>
        clicked == !old(clicked)
        && base == Base(mouse, old(center), old(dist), old(stretch))
        && center == old(center) && angles == old(angles)
        && dist == old(dist) && stretch == old(stretch)
      ensures event != MouseButtonEvent(LeftButton, Pressed) ==> unchanged(this)
      ensures old(Valid()) ==> Valid()
    {
      if event == MouseButtonEvent(LeftButton, Pressed) {
        clicked := !clicked;
        base := base.(origin := mouse);
        base := base.(center := center);
        base := base.(dist := dist);
        base := base.(stretch := stretch);
      }
    }

    /** The per-frame update: while clicked, exactly one drag channel is
        recomputed from the snapshot (Shift before Control before none); then
        the arrow keys turn the angles. */
    method Update(keys: Keyboard, mouse: Vector)
      modifies this
      ensures clicked == old(clicked) && base == old(base)
      ensures dist == if old(clicked) && keys.Shift() then DraggedDist(base, mouse) else old(dist)
      ensures stretch == if old(clicked) && !keys.Shift() && keys.Control()
                         then DraggedStretch(base, mouse) else old(stretch)
      ensures center == if old(clicked) && !keys.Shift() && !keys.Control()
                        then DraggedCenter(base, mouse) else old(center)
      ensures angles == Turn(keys, old(angles))
      ensures old(Valid()) ==> Valid()
    {
      Drag(keys, mouse);
      Rotate(keys);
    }

    /** The drag part of the update. */
    method Drag(keys: Keyboard, mouse: Vector)
      modifies this
      ensures clicked == old(clicked) && base == old(base) && angles == old(angles)
      ensures dist == if old(clicked) && keys.Shift() then DraggedDist(base, mouse) else old(dist)
      ensures stretch == if old(clicked) && !keys.Shift() && keys.Control()
                         then DraggedStretch(base, mouse) else old(stretch)
      ensures center == if old(clicked) && !keys.Shift() && !keys.Control()
                        then DraggedCenter(base, mouse) else old(center)
    {
      if clicked {
        if keys.Shift() {
          dist := Max(base.dist + (mouse.y - base.origin.y) / HEIGHT, 1.0);
        } else if keys.Control() {
          stretch := base.stretch + (mouse.y - base.origin.y) / HEIGHT;
        } else {
          center := Clamp(Add(base.center, Vector((mouse.x - base.origin.x) / WIDTH, (mouse.y - base.origin.y) / HEIGHT)),
                          Vector(0.0, 0.0), Vector(1.0, 1.0));
        }
      }
    }

    /** The arrow-key part of the update: Left, Right, Up, Down in that order. */
    method Rotate(keys: Keyboard)
      modifies this
      ensures clicked == old(clicked) && base == old(base) && center == old(center)
      ensures dist == old(dist) && stretch == old(stretch)
      ensures angles == Turn(keys, old(angles))
    {
      var a := angles;
      if keys.left {
        a := (a.0 - HRSPEED, a.1);
        if a.0 < 0.0 {
          a := (a.0 + TWO_PI, a.1);
        }
      }
      if keys.right {
        a := (a.0 + HRSPEED, a.1);
        if a.0 - TWO_PI >= 0.0 {
          a := (a.0 - TWO_PI, a.1);
        }
      }
      if keys.up {
        a := (a.0, a.1 + VRSPEED);
        if a.1 - TWO_PI >= 0.0 {
          a := (a.0, a.1 - TWO_PI);
        }
      }
      if keys.down {
        a := (a.0, a.1 - VRSPEED);
        if a.0 < 0.0 {
          a := (a.0 + TWO_PI, a.1);
        }
      }
      angles := a;
    }
  }
}
