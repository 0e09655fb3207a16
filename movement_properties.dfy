/** What a frame of updateMovement promises, stated over the functions that
    specify it, and two clients that drive the classes together. */
module MovementProperties {
  import opened Wrappers
  import opened Geometry
  import opened KeyState
  import opened Movement

  /** One guarded call, seen through the call trace. */
  lemma ApplyIssue(pos: Vec3, cond: bool, call: Call, calls: seq<Call>, right: Vec3)
    ensures Apply(pos, Issue(cond, call, calls), right) == StepIf(cond, Apply(pos, calls, right), call, right)
  {
    if cond {
      ApplyAppend(pos, calls, call, right);
    }
  }

  /** The guarded translations take the camera exactly where the issued
      control calls, applied in order, take it. */
  lemma MovedIsApplyOfCalls(pos: Vec3, held: Directions, speed: real, right: Vec3)
    ensures MovedBy(pos, held, speed, right) == Apply(pos, Calls(held, speed), right)
  {
    var c1 := Issue(held.left, MoveRight(-speed), []);
    var c2 := Issue(held.right, MoveRight(speed), c1);
    var c3 := Issue(held.forward, MoveForward(speed), c2);
    ApplyIssue(pos, held.left, MoveRight(-speed), [], right);
    ApplyIssue(pos, held.right, MoveRight(speed), c1, right);
    ApplyIssue(pos, held.forward, MoveForward(speed), c2, right);
    ApplyIssue(pos, held.back, MoveForward(-speed), c3, right);
  }

  /** A frame ends either exactly at the snapshot (on a collision) or at the
      position after all of the frame's control calls (otherwise); never
      anywhere in between. */
  lemma FrameIsAllOrNothing(pos: Vec3, flags: map<Key, bool>, delta: real, right: Vec3,
                            walls: seq<Box>)
    requires WellFormed(flags)
    ensures var full := Apply(pos, Calls(HeldDirections(flags), Speed(delta)), right);
      (Collides(UserBox(full), walls) ==> FrameOutcome(pos, flags, delta, right, walls) == pos) &&
      (!Collides(UserBox(full), walls) ==> FrameOutcome(pos, flags, delta, right, walls) == full)
  {
    MovedIsApplyOfCalls(pos, HeldDirections(flags), Speed(delta), right);
  }

  /** A frame issues no control call exactly when no direction is held. */
  lemma NoCallsIffNothingHeld(held: Directions, speed: real)
    ensures Calls(held, speed) == [] <==> !held.left && !held.right && !held.forward && !held.back
  {
    if held.left || held.right || held.forward || held.back {
      assert |Calls(held, speed)| > 0;
    }
  }

  /** With no key held nothing moves, whatever the elapsed time and the walls. */
  lemma NothingHeldNothingMoves(pos: Vec3, flags: map<Key, bool>, delta: real, right: Vec3,
                                walls: seq<Box>)
    requires WellFormed(flags) && forall k :: !flags[k]
    ensures Calls(HeldDirections(flags), Speed(delta)) == []
    ensures FrameOutcome(pos, flags, delta, right, walls) == pos
  {
    assert !flags[ArrowLeft] && !flags[LowerA] && !flags[ArrowRight] && !flags[LowerD];
    assert !flags[ArrowUp] && !flags[LowerW] && !flags[ArrowDown] && !flags[LowerS];
  }

  /** Each held direction issues one call, whichever of its two keys hold it. */
  lemma OneCallPerHeldDirection(held: Directions, speed: real)
    ensures |Calls(held, speed)| ==
      (if held.left then 1 else 0) + (if held.right then 1 else 0) +
      (if held.forward then 1 else 0) + (if held.back then 1 else 0)
    ensures forall i :: 0 <= i < |Calls(held, speed)| ==>
      Calls(held, speed)[i].distance == speed || Calls(held, speed)[i].distance == -speed
  {
  }

  /** Aliases do not stack: with an arrow key held, its letter key changes
      neither the held directions nor the calls. */
  lemma AliasesDoNotStack(flags: map<Key, bool>, speed: real, b: bool)
    requires WellFormed(flags)
    ensures flags[ArrowLeft] ==>
      Calls(HeldDirections(flags[LowerA := b]), speed) == Calls(HeldDirections(flags), speed)
    ensures flags[ArrowRight] ==>
      Calls(HeldDirections(flags[LowerD := b]), speed) == Calls(HeldDirections(flags), speed)
    ensures flags[ArrowUp] ==>
      Calls(HeldDirections(flags[LowerW := b]), speed) == Calls(HeldDirections(flags), speed)
    ensures flags[ArrowDown] ==>
      Calls(HeldDirections(flags[LowerS := b]), speed) == Calls(HeldDirections(flags), speed)
  {
    if flags[ArrowLeft] {
      assert HeldDirections(flags[LowerA := b]) == HeldDirections(flags);
    }
    if flags[ArrowRight] {
      assert HeldDirections(flags[LowerD := b]) == HeldDirections(flags);
    }
    if flags[ArrowUp] {
      assert HeldDirections(flags[LowerW := b]) == HeldDirections(flags);
    }
    if flags[ArrowDown] {
      assert HeldDirections(flags[LowerS := b]) == HeldDirections(flags);
    }
  }

  /** Calls come in the order left, right, forward, back: with every
      direction held, the trace is exactly that, each of magnitude `speed`. */
  lemma CallOrder(speed: real)
    ensures Calls(Directions(true, true, true, true), speed) ==
      [MoveRight(-speed), MoveRight(speed), MoveForward(speed), MoveForward(-speed)]
  {
  }

  /** The user box is collided exactly when some wall's box intersects it. */
  lemma CollidesIffSomeWall(user: Box, walls: seq<Box>)
    ensures Collides(user, walls) <==> exists i :: 0 <= i < |walls| && Intersects(user, walls[i])
  {
    if Collides(user, walls) {
      var i := FirstHit(user, walls).value;
      assert 0 <= i < |walls| && Intersects(user, walls[i]);
    }
  }

  /** The loop stops right after the first wall that intersects, and looks at
      every wall when none does. */
  lemma VisitedStopsAtFirstHit(user: Box, walls: seq<Box>)
    ensures Collides(user, walls) ==>
      Intersects(user, walls[Visited(user, walls) - 1]) &&
      forall j :: 0 <= j < Visited(user, walls) - 1 ==> !Intersects(user, walls[j])
    ensures !Collides(user, walls) ==> Visited(user, walls) == |walls|
  {
  }

  /** The order of the walls decides which one is hit first, not whether one
      is: any reordering of the group gives the same answer. */
  lemma CollidesOrderIndependent(user: Box, a: seq<Box>, b: seq<Box>)
    requires multiset(a) == multiset(b)
    ensures Collides(user, a) <==> Collides(user, b)
  {
    CollidesIffSomeWall(user, a);
    CollidesIffSomeWall(user, b);
    if exists i :: 0 <= i < |a| && Intersects(user, a[i]) {
      var i :| 0 <= i < |a| && Intersects(user, a[i]);
      assert a[i] in multiset(b);
      var j :| 0 <= j < |b| && b[j] == a[i];
    }
    if exists i :: 0 <= i < |b| && Intersects(user, b[i]) {
      var i :| 0 <= i < |b| && Intersects(user, b[i]);
      assert b[i] in multiset(a);
      var j :| 0 <= j < |a| && a[j] == b[i];
    }
  }

  /** An empty wall group never collides, so the frame keeps the full move. */
  lemma EmptyWallGroupNeverCollides(pos: Vec3, flags: map<Key, bool>, delta: real, right: Vec3)
    requires WellFormed(flags)
    ensures forall user :: !Collides(user, [])
    ensures FrameOutcome(pos, flags, delta, right, []) ==
      Apply(pos, Calls(HeldDirections(flags), Speed(delta)), right)
  {
    MovedIsApplyOfCalls(pos, HeldDirections(flags), Speed(delta), right);
  }

  /** The user box is 10 units along each axis and centred on the camera. */
  lemma UserBoxAroundCamera(center: Vec3)
    ensures Sub(UserBox(center).max, UserBox(center).min) == Vec3(10.0, 10.0, 10.0)
    ensures NonEmpty(UserBox(center)) && ContainsPoint(UserBox(center), center)
  {
    CenteredBoxContainsCenter(center, UserSize);
  }

  /** The forward direction of the controls lies in the ground plane, at a
      right angle to the right vector and as long as its ground part. */
  lemma ForwardIsHorizontal(right: Vec3)
    ensures ForwardOf(right).y == 0.0
    ensures Dot(ForwardOf(right), right) == 0.0
    ensures NormSquared(ForwardOf(right)) == right.x * right.x + right.z * right.z
  {
  }

  /** Diagonal movement is not normalised: with a level unit right vector,
      holding forward and right together displaces by speed times the square
      root of two (its square is twice the square of the speed). */
  lemma DiagonalIsFaster(pos: Vec3, speed: real, right: Vec3)
    requires right.y == 0.0 && right.x * right.x + right.z * right.z == 1.0
    ensures var d := Sub(MovedBy(pos, Directions(false, true, true, false), speed, right), pos);
      NormSquared(d) == 2.0 * speed * speed
  {
    var f := ForwardOf(right);
    var d := Sub(MovedBy(pos, Directions(false, true, true, false), speed, right), pos);
    assert d == Vec3(right.x * speed + f.x * speed, 0.0, right.z * speed + f.z * speed);
    assert f.x == right.z && f.z == -right.x;
    calc {
      NormSquared(d);
      (right.x * speed + right.z * speed) * (right.x * speed + right.z * speed)
        + (right.z * speed - right.x * speed) * (right.z * speed - right.x * speed);
      2.0 * (right.x * right.x + right.z * right.z) * speed * speed;
    }
  }

  /** The record with only the up arrow held. */
  lemma OnlyUpArrowHeld()
    ensures WellFormed(InitialFlags()[ArrowUp := true])
    ensures HeldDirections(InitialFlags()[ArrowUp := true]) == Directions(false, false, true, false)
  {
    var flags := InitialFlags();
    assert !flags[LowerW] && !flags[ArrowLeft] && !flags[LowerA];
    assert !flags[ArrowRight] && !flags[LowerD] && !flags[ArrowDown] && !flags[LowerS];
  }

  /** With only the up arrow held, a frame moves straight ahead by its speed. */
  lemma OnlyUpArrowMovesForward(pos: Vec3, delta: real, right: Vec3)
    ensures WellFormed(InitialFlags()[ArrowUp := true])
    ensures Moved(pos, InitialFlags()[ArrowUp := true], delta, right) ==
      Add(pos, Scale(ForwardOf(right), Speed(delta)))
  {
    OnlyUpArrowHeld();
  }

  /** With only the up arrow held, a frame ends straight ahead by its speed,
      or where it started when that position meets a wall. */
  lemma UpArrowFrame(pos: Vec3, delta: real, right: Vec3, walls: seq<Box>)
    ensures WellFormed(InitialFlags()[ArrowUp := true])
    ensures var ahead := Add(pos, Scale(ForwardOf(right), Speed(delta)));
      FrameOutcome(pos, InitialFlags()[ArrowUp := true], delta, right, walls) ==
        if Collides(UserBox(ahead), walls) then pos else ahead
  {
    OnlyUpArrowMovesForward(pos, delta, right);
  }

  /** Against a single wall, a frame collides exactly when that wall's box
      intersects the moved user box. */
  lemma CollidesWithOneWall(user: Box, wall: Box)
    ensures Collides(user, [wall]) <==> Intersects(user, wall)
  {
  }

  /** Letters are matched in lower case only, so a key released with Shift
      held is not released: after `w` goes down and `W` comes up, `w` is
      still held and the frame still moves forward. */
  lemma ShiftedReleaseKeepsWalking()
    ensures WellFormed(SetFlag(SetFlag(InitialFlags(), "w", true), "W", false))
    ensures SetFlag(SetFlag(InitialFlags(), "w", true), "W", false)[LowerW]
    ensures HeldDirections(SetFlag(SetFlag(InitialFlags(), "w", true), "W", false)).forward
  {
    LookupName(LowerW);
    UpperCaseLettersUntracked();
  }

  /** Pressing and releasing forward before a frame leaves nothing to move. */
  lemma ReleasedBeforeFrameDoesNotMove(pos: Vec3, delta: real, right: Vec3, walls: seq<Box>)
    ensures FrameOutcome(pos, SetFlag(SetFlag(InitialFlags(), "ArrowUp", true), "ArrowUp", false),
                   delta, right, walls) == pos
  {
    var flags := SetFlag(SetFlag(InitialFlags(), "ArrowUp", true), "ArrowUp", false);
    LookupName(ArrowUp);
    assert flags == InitialFlags();
    NothingHeldNothingMoves(pos, flags, delta, right, walls);
  }

  /** The classes together: pressing the up arrow on a fresh record and
      running one frame moves the camera straight ahead by the frame's
      distance, unless that position meets a wall, in which case it stays. */
  method WalkForwardOneFrame(start: Vec3, delta: real, right: Vec3, walls: seq<Box>) returns (position: Vec3)
    ensures var ahead := Add(start, Scale(ForwardOf(right), Speed(delta)));
            position == if Collides(UserBox(ahead), walls) then start else ahead
  {
    var input := new InputState();
    var camera := new Camera(start);
    var controls := new Controls(camera, right);
    var wallGroup := new WallGroup(walls);
    input.MoveUser("ArrowUp");
    TrackedKeySetsOnlyItsFlag(InitialFlags(), ArrowUp, true);
    OnlyUpArrowHeld();
    UpdateMovement(input, delta, controls, camera, wallGroup);
    position := camera.position;
  }

  /** Pressing upper-case W (forward with Shift held) on a fresh record and
      running a frame leaves the camera where it was. */
  method ShiftedKeyDoesNotMove(start: Vec3, delta: real, right: Vec3, walls: seq<Box>) returns (position: Vec3)
    ensures position == start
  {
    var input := new InputState();
    var camera := new Camera(start);
    var controls := new Controls(camera, right);
    var wallGroup := new WallGroup(walls);
    input.MoveUser("W");
    UpperCaseLettersUntracked();
    NothingHeldNothingMoves(start, InitialFlags(), delta, right, walls);
    UpdateMovement(input, delta, controls, camera, wallGroup);
    position := camera.position;
  }
}
