/** Worked examples in the gallery's room: its camera start and its three
    walls, with the up arrow held for frames of different lengths. */
module GalleryScenarios {
  import opened Wrappers
  import opened Geometry
  import opened KeyState
  import opened Movement
  import opened MovementProperties

  /** The camera's right vector when it looks down the negative z axis, as
      the gallery's camera does before the mouse turns it. */
  const LookingDownZ: Vec3 := Vec3(1.0, 0.0, 0.0)

  /** The gallery camera's starting position. */
  const GalleryStart: Vec3 := Vec3(0.0, 0.0, 5.0)

  /** The world boxes of the gallery's three walls, in the order they are
      added to the group: each is a 50 by 20 by 0.01 box, the front one
      pushed to z = -20, the left and right ones turned a quarter about y and
      pushed to x = -20 and x = 20. */
  const FrontWall: Box := Box(Vec3(-25.0, -10.0, -20.005), Vec3(25.0, 10.0, -19.995))
  const LeftWall: Box := Box(Vec3(-20.005, -10.0, -25.0), Vec3(-19.995, 10.0, 25.0))
  const RightWall: Box := Box(Vec3(19.995, -10.0, -25.0), Vec3(20.005, 10.0, 25.0))
  const GalleryWalls: seq<Box> := [FrontWall, LeftWall, RightWall]

  /** The front wall's box is that of a 50 by 20 by 0.01 box centred at z = -20. */
  lemma FrontWallBox()
    ensures FrontWall == FromCenterAndSize(Vec3(0.0, 0.0, -20.0), Vec3(50.0, 20.0, 0.01))
  {
  }

  /** The left wall's box is that of the same box turned a quarter about y
      and centred at x = -20. */
  lemma LeftWallBox()
    ensures LeftWall == FromCenterAndSize(Vec3(-20.0, 0.0, 0.0), Vec3(0.01, 20.0, 50.0))
  {
  }

  /** The right wall's box is that of the same box turned a quarter about y
      and centred at x = 20. */
  lemma RightWallBox()
    ensures RightWall == FromCenterAndSize(Vec3(20.0, 0.0, 0.0), Vec3(0.01, 20.0, 50.0))
  {
  }

  /** Collision against a group of three walls, wall by wall. */
  lemma FirstHitOfThree(user: Box, a: Box, b: Box, c: Box)
    ensures FirstHit(user, [a, b, c]) ==
      if Intersects(user, a) then Some(0) else if Intersects(user, b) then Some(1)
      else if Intersects(user, c) then Some(2) else None
  {
    var walls := [a, b, c];
    if Intersects(user, a) {
      FirstHitAt(user, walls, 0);
    } else if Intersects(user, b) {
      FirstHitAt(user, walls, 1);
    } else if Intersects(user, c) {
      FirstHitAt(user, walls, 2);
    } else {
      assert forall j :: 0 <= j < |walls| ==> !Intersects(user, walls[j]);
    }
  }

  /** A camera more than 5 units (plus half a wall's thickness) from each
      wall, on the room's side of the front wall, is clear of all three. */
  lemma InsideRoomIsClear(c: Vec3)
    requires -14.995 < c.x < 14.995 && -14.995 < c.z
    ensures !Collides(UserBox(c), GalleryWalls)
  {
    FirstHitOfThree(UserBox(c), FrontWall, LeftWall, RightWall);
  }

  /** A camera within 5 units (plus half a wall's thickness) of the front
      wall, and in front of it, collides with it first. */
  lemma NearFrontWallHitsIt(c: Vec3)
    requires -25.005 <= c.z <= -14.995 && -30.0 <= c.x <= 30.0 && -15.0 <= c.y <= 15.0
    ensures FirstHit(UserBox(c), GalleryWalls) == Some(0)
  {
    FirstHitOfThree(UserBox(c), FrontWall, LeftWall, RightWall);
  }

  /** Looking down the negative z axis, forward is that axis. */
  lemma ForwardLookingDownZ(pos: Vec3, distance: real)
    ensures Add(pos, Scale(ForwardOf(LookingDownZ), distance)) == Vec3(pos.x, pos.y, pos.z - distance)
  {
  }

  /** Walking forward, looking down the negative z axis, to a point still
      clear of the walls completes the whole move. */
  lemma ForwardStaysClear(start: Vec3, delta: real)
    requires -14.995 < start.x < 14.995 && -14.995 < start.z - Speed(delta)
    ensures WellFormed(InitialFlags()[ArrowUp := true])
    ensures FrameOutcome(start, InitialFlags()[ArrowUp := true], delta, LookingDownZ, GalleryWalls) ==
      Vec3(start.x, start.y, start.z - Speed(delta))
  {
    UpArrowFrame(start, delta, LookingDownZ, GalleryWalls);
    ForwardLookingDownZ(start, Speed(delta));
    InsideRoomIsClear(Vec3(start.x, start.y, start.z - Speed(delta)));
  }

  /** Walking forward, looking down the negative z axis, to a point whose
      user box reaches the front wall undoes the whole move. */
  lemma ForwardIntoFrontWallRollsBack(start: Vec3, delta: real)
    requires -30.0 <= start.x <= 30.0 && -15.0 <= start.y <= 15.0
    requires -25.005 <= start.z - Speed(delta) <= -14.995
    ensures WellFormed(InitialFlags()[ArrowUp := true])
    ensures FrameOutcome(start, InitialFlags()[ArrowUp := true], delta, LookingDownZ, GalleryWalls) == start
  {
    UpArrowFrame(start, delta, LookingDownZ, GalleryWalls);
    ForwardLookingDownZ(start, Speed(delta));
    NearFrontWallHitsIt(Vec3(start.x, start.y, start.z - Speed(delta)));
  }

  /** From the start, holding forward for one second moves the camera 5 units,
      to the centre of the room, clear of the walls. */
  lemma ForwardOneSecondIsClear()
    ensures WellFormed(InitialFlags()[ArrowUp := true])
    ensures FrameOutcome(GalleryStart, InitialFlags()[ArrowUp := true], 1.0,
                         LookingDownZ, GalleryWalls) == Vec3(0.0, 0.0, 0.0)
  {
    ForwardStaysClear(GalleryStart, 1.0);
  }

  /** Holding forward for four seconds would end 20 units ahead, where the
      user box meets the front wall, so the whole move is undone. */
  lemma ForwardFourSecondsRollsBack()
    ensures WellFormed(InitialFlags()[ArrowUp := true])
    ensures FrameOutcome(GalleryStart, InitialFlags()[ArrowUp := true], 4.0,
                         LookingDownZ, GalleryWalls) == GalleryStart
  {
    ForwardIntoFrontWallRollsBack(GalleryStart, 4.0);
  }
}
