/** The per-frame movement with collision rollback of utils/movement.js:
    `updateMovement` and `checkCollision`, together with the camera, the
    pointer-lock controls and the walls they act on. */
module Movement {
  import opened Wrappers
  import opened Geometry
  import opened KeyState

  /** `speed = 5 * delta`: units per second. */
  const BaseSpeed: real := 5.0

  /** The user's collision box is 10 units along every axis. */
  const UserSize: Vec3 := Vec3(10.0, 10.0, 10.0)

  /** The camera's up vector (the library default). */
  const Up: Vec3 := Vec3(0.0, 1.0, 0.0)

  /** The speed of one frame. */
  function Speed(delta: real): real {
    BaseSpeed * delta
  }

  /** One call into the pointer-lock controls. */
  datatype Call = MoveRight(distance: real) | MoveForward(distance: real)

  /** The four directions, each held when its arrow key or its letter key is held. */
  datatype Directions = Directions(left: bool, right: bool, forward: bool, back: bool)

  /** The four directions of travel, as names. */
  datatype Direction = Left | Right | Forward | Back

  /** The direction each tracked key moves the user. */
  function DirectionOf(k: Key): Direction {
    match k
    case ArrowLeft => Left
    case LowerA => Left
    case ArrowRight => Right
    case LowerD => Right
    case ArrowUp => Forward
    case LowerW => Forward
    case ArrowDown => Back
    case LowerS => Back
  }

  /** Whether a direction is among those held. */
  function IsHeld(held: Directions, dir: Direction): bool {
    match dir
    case Left => held.left
    case Right => held.right
    case Forward => held.forward
    case Back => held.back
  }

  /** The directions a frame moves in: a direction is held exactly when some
      key that moves in it is held. */
  function HeldDirections(flags: map<Key, bool>): (held: Directions)
    requires WellFormed(flags)
    ensures forall dir :: IsHeld(held, dir) <==> exists k :: DirectionOf(k) == dir && flags[k]
  {
    Directions(flags[ArrowLeft] || flags[LowerA], flags[ArrowRight] || flags[LowerD],
               flags[ArrowUp] || flags[LowerW], flags[ArrowDown] || flags[LowerS])
  }

  /** The calls issued so far, extended by `call` when `cond` holds. */
  function Issue(cond: bool, call: Call, calls: seq<Call>): seq<Call> {
    if cond then calls + [call] else calls
  }

  /** `calls` followed by the calls of one frame, in the order left, right,
      forward, back. */
  function IssueAll(held: Directions, speed: real, calls: seq<Call>): seq<Call> {
    Issue(held.back, MoveForward(-speed),
      Issue(held.forward, MoveForward(speed),
        Issue(held.right, MoveRight(speed),
          Issue(held.left, MoveRight(-speed), calls))))
  }

  /** The calls one frame issues. */
  function Calls(held: Directions, speed: real): seq<Call> {
    IssueAll(held, speed, [])
  }

  /** moveForward travels parallel to the ground, along up × right; with the
      default up vector that is the right vector turned a quarter about y. */
  function ForwardOf(right: Vec3): (f: Vec3)
    ensures f == Cross(Up, right)
  {
    Vec3(right.z, 0.0, -right.x)
  }

  /** Where one control call takes the camera; `right` is the first column of
      the camera's matrix, fixed for the frame. */
  function Step(pos: Vec3, call: Call, right: Vec3): Vec3 {
    match call
    case MoveRight(d) => Add(pos, Scale(right, d))
    case MoveForward(d) => Add(pos, Scale(ForwardOf(right), d))
  }

  /** Where a sequence of control calls takes the camera. */
  function Apply(pos: Vec3, calls: seq<Call>, right: Vec3): Vec3
    decreases |calls|
  {
    if calls == [] then pos else Apply(Step(pos, calls[0], right), calls[1..], right)
  }

  /** One guarded translation of updateMovement. */
  function StepIf(cond: bool, pos: Vec3, call: Call, right: Vec3): Vec3 {
    if cond then Step(pos, call, right) else pos
  }

  /** The camera position after the four guarded translations of a frame,
      before the collision test. */
  function MovedBy(pos: Vec3, held: Directions, speed: real, right: Vec3): Vec3 {
    StepIf(held.back, StepIf(held.forward, StepIf(held.right, StepIf(held.left,
      pos, MoveRight(-speed), right), MoveRight(speed), right), MoveForward(speed), right),
      MoveForward(-speed), right)
  }

  /** The camera position after this frame's control calls, for the flags held. */
  function Moved(pos: Vec3, flags: map<Key, bool>, delta: real, right: Vec3): Vec3
    requires WellFormed(flags)
  {
    MovedBy(pos, HeldDirections(flags), Speed(delta), right)
  }

  /** The user's collision box around a camera position. */
  function UserBox(center: Vec3): Box {
    FromCenterAndSize(center, UserSize)
  }

  /** The index of the first wall box the user box intersects, if any. */
  function FirstHit(user: Box, walls: seq<Box>): (r: Option<nat>)
    ensures r.Some? ==> r.value < |walls| && Intersects(user, walls[r.value])
    ensures r.Some? ==> forall j :: 0 <= j < r.value ==> !Intersects(user, walls[j])
    ensures r.None? <==> forall j :: 0 <= j < |walls| ==> !Intersects(user, walls[j])
    decreases |walls|
  {
    if walls == [] then None
    else if Intersects(user, walls[0]) then Some(0)
    else match FirstHit(user, walls[1..])
      case None => None
      case Some(k) => Some(k + 1)
  }

  /** Whether the user box collides with any wall. */
  predicate Collides(user: Box, walls: seq<Box>) {
    FirstHit(user, walls).Some?
  }

  /** How many walls the collision loop looks at before it stops. */
  function Visited(user: Box, walls: seq<Box>): (n: nat)
    ensures n <= |walls|
  {
    match FirstHit(user, walls)
    case Some(k) => k + 1
    case None => |walls|
  }

  /** The camera position at the end of the frame: the moved position, or the
      snapshot when the moved user box hits a wall. */
  function FrameOutcome(pos: Vec3, flags: map<Key, bool>, delta: real, right: Vec3,
                        walls: seq<Box>): Vec3
    requires WellFormed(flags)
  {
    var moved := Moved(pos, flags, delta, right);
    if Collides(UserBox(moved), walls) then pos else moved
  }

  lemma {:induction false} ApplyAppend(pos: Vec3, calls: seq<Call>, call: Call, right: Vec3)
    ensures Apply(pos, calls + [call], right) == Step(Apply(pos, calls, right), call, right)
    decreases |calls|
  {
    if calls == [] {
      assert [call][1..] == [];
    } else {
      assert (calls + [call])[1..] == calls[1..] + [call];
      ApplyAppend(Step(pos, calls[0], right), calls[1..], call, right);
    }
  }

  /** Issuing a frame's calls after `calls` appends them to `calls`. */
  lemma IssueAllAppend(held: Directions, speed: real, calls: seq<Call>)
    ensures IssueAll(held, speed, calls) == calls + Calls(held, speed)
  {
    var c1 := Issue(held.left, MoveRight(-speed), []);
    var c2 := Issue(held.right, MoveRight(speed), c1);
    var c3 := Issue(held.forward, MoveForward(speed), c2);
    assert Issue(held.left, MoveRight(-speed), calls) == calls + c1;
    assert Issue(held.right, MoveRight(speed), calls + c1) == calls + c2;
    assert Issue(held.forward, MoveForward(speed), calls + c2) == calls + c3;
  }

  /** The first hit is determined by the walls before it and the wall itself. */
  lemma FirstHitAt(user: Box, walls: seq<Box>, i: nat)
    requires i < |walls| && Intersects(user, walls[i])
    requires forall j :: 0 <= j < i ==> !Intersects(user, walls[j])
    ensures FirstHit(user, walls) == Some(i)
  {
  }

  /** The camera; a direct child of the scene, so its position is its world position. */
  class Camera {
    var position: Vec3

    constructor (position: Vec3)
      ensures this.position == position
    {
      this.position := position;
    }
  }

  /** The pointer-lock controls wrapping the camera. `log` records the calls
      made to them. */
  class Controls {
    const camera: Camera
    const right: Vec3
    ghost var log: seq<Call>

    constructor (camera: Camera, right: Vec3)
      ensures this.camera == camera && this.right == right && log == []
    {
      this.camera := camera;
      this.right := right;
      log := [];
    }

    /** moveRight: translate the camera by `distance` along its right vector. */
    method MoveRight(distance: real)
      modifies camera, this`log
      ensures camera.position == Step(old(camera.position), Call.MoveRight(distance), right)
      ensures log == old(log) + [Call.MoveRight(distance)]
    {
      camera.position := Add(camera.position, Scale(right, distance));
      log := log + [Call.MoveRight(distance)];
    }

    /** moveForward: translate the camera by `distance` along up × right. */
    method MoveForward(distance: real)
      modifies camera, this`log
      ensures camera.position == Step(old(camera.position), Call.MoveForward(distance), right)
      ensures log == old(log) + [Call.MoveForward(distance)]
    {
      camera.position := Add(camera.position, Scale(ForwardOf(right), distance));
      log := log + [Call.MoveForward(distance)];
    }
  }

  /** The wall group. `children` holds, in insertion order, the world-space
      box the library computes for each wall from its geometry and transform
      (the walls never move, so it is the same every frame); `boxes` holds
      each wall's `BBox` property, which the collision loop rewrites. */
  class WallGroup {
    const children: seq<Box>
    var boxes: seq<Option<Box>>

    ghost predicate Valid()
      reads this
    {
      |boxes| == |children|
    }

    constructor (children: seq<Box>)
      ensures Valid() && this.children == children
      ensures forall i :: 0 <= i < |boxes| ==> boxes[i] == None
    {
      this.children := children;
      boxes := seq(|children|, _ => None);
    }
  }

  /** checkCollision: test the user box around the camera against each wall
      in order, refreshing each wall's `BBox` before its test and stopping at
      the first intersection. */
  method CheckCollision(camera: Camera, wallGroup: WallGroup) returns (hit: bool)
    requires wallGroup.Valid()
    modifies wallGroup`boxes
    ensures wallGroup.Valid()
    ensures hit == Collides(UserBox(camera.position), wallGroup.children)
    ensures var n := Visited(UserBox(camera.position), wallGroup.children);
      (forall i :: 0 <= i < n ==> wallGroup.boxes[i] == Some(wallGroup.children[i])) &&
      (forall i :: n <= i < |wallGroup.boxes| ==> wallGroup.boxes[i] == old(wallGroup.boxes[i]))
  {
    var userBoundingBox := UserBox(camera.position);
    var i := 0;
    while i < |wallGroup.children|
      invariant 0 <= i <= |wallGroup.children|
      invariant wallGroup.Valid()
      invariant forall j :: 0 <= j < i ==> !Intersects(userBoundingBox, wallGroup.children[j])
      invariant forall j :: 0 <= j < i ==> wallGroup.boxes[j] == Some(wallGroup.children[j])
      invariant forall j :: i <= j < |wallGroup.boxes| ==> wallGroup.boxes[j] == old(wallGroup.boxes[j])
    {
      wallGroup.boxes := wallGroup.boxes[i := Some(wallGroup.children[i])];
      if Intersects(userBoundingBox, wallGroup.boxes[i].value) {
        FirstHitAt(userBoundingBox, wallGroup.children, i);
        return true;
      }
      i := i + 1;
    }
    return false;
  }

  /** The four guarded control calls of updateMovement, in the order left,
      right, forward, back. */
  method MoveByHeldKeys(input: InputState, speed: real, controls: Controls)
    requires input.Valid()
    modifies controls.camera, controls`log
    ensures controls.camera.position ==
      MovedBy(old(controls.camera.position), HeldDirections(input.pressed), speed, controls.right)
    ensures controls.log == old(controls.log) + Calls(HeldDirections(input.pressed), speed)
  {
    ghost var held := HeldDirections(input.pressed);
    ghost var log0 := controls.log;
    ghost var pos0 := controls.camera.position;
    if input.Held(ArrowLeft) || input.Held(LowerA) {
      controls.MoveRight(-speed);
    }
    ghost var p1 := StepIf(held.left, pos0, Call.MoveRight(-speed), controls.right);
    ghost var l1 := Issue(held.left, Call.MoveRight(-speed), log0);
    assert controls.camera.position == p1 && controls.log == l1;
    if input.Held(ArrowRight) || input.Held(LowerD) {
      controls.MoveRight(speed);
    }
    ghost var p2 := StepIf(held.right, p1, Call.MoveRight(speed), controls.right);
    ghost var l2 := Issue(held.right, Call.MoveRight(speed), l1);
    assert controls.camera.position == p2 && controls.log == l2;
    if input.Held(ArrowUp) || input.Held(LowerW) {
      controls.MoveForward(speed);
    }
    ghost var p3 := StepIf(held.forward, p2, Call.MoveForward(speed), controls.right);
    ghost var l3 := Issue(held.forward, Call.MoveForward(speed), l2);
    assert controls.camera.position == p3 && controls.log == l3;
    if input.Held(ArrowDown) || input.Held(LowerS) {
      controls.MoveForward(-speed);
    }
    assert controls.log == IssueAll(held, speed, log0);
    IssueAllAppend(held, speed, log0);
  }

  /** updateMovement: move the camera by the held keys through the controls,
      then put it back where it was if its box now hits a wall. */
  method UpdateMovement(input: InputState, delta: real, controls: Controls, camera: Camera,
                        wallGroup: WallGroup)
    requires input.Valid() && wallGroup.Valid()
    requires controls.camera == camera
    modifies camera, controls`log, wallGroup`boxes
    ensures wallGroup.Valid()
    ensures controls.log == old(controls.log) + Calls(HeldDirections(input.pressed), Speed(delta))
    ensures camera.position ==
      FrameOutcome(old(camera.position), input.pressed, delta, controls.right, wallGroup.children)
    ensures var n := Visited(UserBox(Moved(old(camera.position), input.pressed, delta, controls.right)),
                             wallGroup.children);
      (forall i :: 0 <= i < n ==> wallGroup.boxes[i] == Some(wallGroup.children[i])) &&
      (forall i :: n <= i < |wallGroup.boxes| ==> wallGroup.boxes[i] == old(wallGroup.boxes[i]))
  {
    var speed := BaseSpeed * delta;
    var previousPosition := camera.position;
    MoveByHeldKeys(input, speed, controls);
    var collided := CheckCollision(camera, wallGroup);
    if collided {
      camera.position := previousPosition;
    }
  }
}
