# First-person movement with collision rollback (learn-three-js)

This project models the movement core of the learn-three-js gallery
(`utils/movement.js`). It has three parts:

- **Key-state record.** `keysPressed` holds one "held" flag for each of the
  eight tracked key names: the four arrows plus lower-case `w`, `a`, `s`, `d`.
  The key-down handler `moveUser` sets the flag of a tracked key, the key-up
  handler `stopUser` clears it, and any other key name is ignored.
- **Per-frame update.** `updateMovement` computes `speed = 5 * delta` and
  snapshots the camera position. It then makes up to four pointer-lock control
  calls in the order left, right, forward, back. Each direction fires when its
  arrow key or its letter key is held. Finally it restores the snapshot if the
  camera now collides with a wall.
- **Collision test.** `checkCollision` builds a 10×10×10 box around the camera.
  It refreshes each wall's bounding box in turn and tests it against that box,
  stopping at the first box that intersects.

The Dafny modules follow that structure:

- `Geometry`: the Vector3/Box3 arithmetic the core relies on. This covers
  `setFromCenterAndSize` and the closed separating-plane test of
  `intersectsBox`, under which boxes that only touch intersect. Reals are exact.
- `KeyState`: the `Key` datatype of tracked keys. `Lookup` models the check
  `e.key in keysPressed`. `SetFlag` is the effect one event has on the record.
  The class `InputState` holds the record, with `MoveUser` and `StopUser` as
  methods that update it in place.
- `Movement` contains the classes:
  - `Camera`.
  - `Controls`: the pointer-lock controls. `moveRight` translates along the
    camera's right vector. `moveForward` translates along up × right. A ghost
    log records every call.
  - `WallGroup`: each wall's world box, plus each wall's `BBox` property, which
    the loop writes.

  It also contains the methods `CheckCollision`, `MoveByHeldKeys` and
  `UpdateMovement`. Each is proved against a specification function:
  `FirstHit`/`Collides`/`Visited`, `MovedBy`/`Calls` and `FrameOutcome`.
- `MovementProperties`: lemmas that relate these functions, and two clients
  that drive the classes together.
- `GalleryScenarios`: worked examples in the room `main.js` builds: the
  camera's start at z = 5 and the world boxes of its three walls, walked
  forward for frames of different lengths.

The record's letter keys are lower-case `w`, `a`, `s`, `d`
(utils/movement.js:8-11), so a letter typed with Shift held ("W") is not
tracked and does not move the user, as `KeyState.UpperCaseLettersUntracked`
and `MovementProperties.ShiftedKeyDoesNotMove` state. The same holds for
releases (utils/movement.js:21): if `w` goes down and Shift is pressed
before it comes up, the key-up event carries "W" and is ignored, so `w`
stays held and the camera keeps walking forward, as
`MovementProperties.ShiftedReleaseKeepsWalking` states.

## Model

| member | source | states |
|---|---|---|
| KeyState.InitialFlags | utils/movement.js:3-12 | the record starts with a flag for every one of the eight tracked keys, and every flag is false |
| KeyState.Lookup | utils/movement.js:15 | a key name is tracked only if it is exactly the name of the key it is found as |
| KeyState.LookupName | utils/movement.js:3-12 | each of the eight tracked keys is found under its own name |
| KeyState.LookupFindsOnlyNames | utils/movement.js:15 | a key name is tracked if and only if it is one of the eight names |
| KeyState.UpperCaseLettersUntracked | utils/movement.js:8-11 | the upper-case letters W, A, S, D are not tracked |
| KeyState.EveryKeyIsListed | utils/movement.js:3-12 | a record that names all eight keys has a flag for every key |
| KeyState.SetFlag | utils/movement.js:14-24 | an event sets the flag of the key it names to the given value, keeps every flag, and changes no other flag; an untracked name changes nothing |
| KeyState.InputState.MoveUser | utils/movement.js:14-18 | the key-down handler updates the record in place to SetFlag(old record, key, true) and keeps it well formed |
| KeyState.InputState.StopUser | utils/movement.js:20-24 | the key-up handler updates the record in place to SetFlag(old record, key, false) and keeps it well formed |
| KeyState.UntrackedKeyIgnored | utils/movement.js:15-17 | an event for an untracked key name leaves the record unchanged |
| KeyState.TrackedKeySetsOnlyItsFlag | utils/movement.js:16 | an event for a tracked key changes exactly that key's flag |
| KeyState.PressThenRelease | utils/movement.js:14-24 | a press followed by a release of the same key leaves it released and the other flags as they were |
| KeyState.LastEventWins | utils/movement.js:14-24 | of two events for one key only the later one counts, so repeating a press or a release has no further effect |
| Movement.HeldDirections | utils/movement.js:36-48 | a direction is held exactly when some key that moves in it (its arrow or its letter) is held |
| Movement.ForwardOf | utils/movement.js:45 | the forward direction of the controls is up × right |
| Movement.FirstHit | utils/movement.js:80-94 | the result is the index of the first wall whose box intersects the user box, and no earlier wall intersects; it is none exactly when no wall intersects |
| Movement.Visited | utils/movement.js:80-92 | the loop looks at no more walls than there are |
| Movement.ApplyAppend | utils/movement.js:35-49 | applying one more control call moves the camera one more step from where the earlier calls left it |
| Movement.IssueAllAppend | utils/movement.js:35-49 | a frame's calls are appended, in order, to the calls already made |
| Movement.FirstHitAt | utils/movement.js:89-90 | a wall that intersects after only non-intersecting walls is the first hit |
| Movement.Controls.MoveRight | utils/movement.js:37 | moveRight(d) translates the camera by d along its right vector and logs the call |
| Movement.Controls.MoveForward | utils/movement.js:45 | moveForward(d) translates the camera by d along up × right and logs the call |
| Movement.CheckCollision | utils/movement.js:64-95 | returns true exactly when some wall box intersects the 10-unit box around the camera; the BBox of each wall up to the first hit (of all walls, when nothing is hit) is rewritten to that wall's box, and the later ones are untouched |
| Movement.MoveByHeldKeys | utils/movement.js:35-49 | the four guarded calls move the camera to MovedBy(start, held directions, speed) and add exactly Calls(held directions, speed) to the controls' log |
| Movement.UpdateMovement | utils/movement.js:26-56 | the frame ends at FrameOutcome: the moved position, or the snapshot when the moved box hits a wall; the log gains the frame's calls at speed 5·delta; the walls' BBox properties are refreshed up to the first hit |
| MovementProperties.ApplyIssue | utils/movement.js:36-49 | one guarded call, seen as a call trace, moves the camera as that guarded translation does |
| MovementProperties.MovedIsApplyOfCalls | utils/movement.js:35-49 | the guarded translations end where the frame's call trace, applied in order, ends |
| MovementProperties.FrameIsAllOrNothing | utils/movement.js:33-55 | a frame ends either exactly at the snapshot (on a collision) or at the position after all of its calls, never partway |
| MovementProperties.NoCallsIffNothingHeld | utils/movement.js:35-49 | a frame makes no control call if and only if no direction is held |
| MovementProperties.NothingHeldNothingMoves | utils/movement.js:35-55 | with no key held, a frame makes no call and the camera does not move, whatever delta and the walls are |
| MovementProperties.OneCallPerHeldDirection | utils/movement.js:29-49 | each held direction makes exactly one call, of magnitude 5·delta |
| MovementProperties.AliasesDoNotStack | utils/movement.js:36-48 | with an arrow key held, the state of its letter alias changes neither the held directions nor the calls |
| MovementProperties.CallOrder | utils/movement.js:35-49 | with every direction held the calls are moveRight(-s), moveRight(s), moveForward(s), moveForward(-s), in that order |
| MovementProperties.CollidesIffSomeWall | utils/movement.js:80-94 | a collision is reported if and only if some wall's box intersects the user box |
| MovementProperties.VisitedStopsAtFirstHit | utils/movement.js:89-91 | the loop stops right after the first intersecting wall, and looks at every wall when none intersects |
| MovementProperties.CollidesOrderIndependent | utils/movement.js:80-94 | the order of the walls decides which wall is hit first, not whether one is: any two wall groups holding the same walls, in any order, give the same answer |
| MovementProperties.ShiftedReleaseKeepsWalking | utils/movement.js:20-24 | after `w` goes down and `W` comes up, `w` is still held and the forward direction is still held |
| MovementProperties.EmptyWallGroupNeverCollides | utils/movement.js:80-94 | an empty wall group never collides, so the frame keeps the full move |
| MovementProperties.UserBoxAroundCamera | utils/movement.js:72-77 | the user box is 10 units along each axis and contains the camera position |
| MovementProperties.ForwardIsHorizontal | utils/movement.js:45-49 | forward movement stays in the ground plane, at a right angle to the right vector |
| MovementProperties.DiagonalIsFaster | utils/movement.js:40-45 | diagonal movement is not normalised: forward plus right displaces by speed·√2 |
| MovementProperties.OnlyUpArrowHeld | utils/movement.js:44 | with only the up arrow held, only the forward direction is held |
| MovementProperties.OnlyUpArrowMovesForward | utils/movement.js:44-45 | with only the up arrow held, the moved position is the start plus the forward direction times 5·delta |
| MovementProperties.UpArrowFrame | utils/movement.js:44-55 | with only the up arrow held, the frame ends straight ahead by 5·delta, or at the start when that position hits a wall |
| MovementProperties.CollidesWithOneWall | utils/movement.js:80-94 | against one wall, a collision happens exactly when that wall's box intersects |
| MovementProperties.ReleasedBeforeFrameDoesNotMove | utils/movement.js:14-56 | a key pressed and released before a frame moves nothing |
| MovementProperties.WalkForwardOneFrame | utils/movement.js:14-56 | pressing the up arrow on a fresh record and running one frame moves the camera straight ahead by 5·delta, or leaves it where it was when that position hits a wall |
| MovementProperties.ShiftedKeyDoesNotMove | utils/movement.js:14-56 | pressing upper-case W and running a frame leaves the camera where it was |
| GalleryScenarios.FrontWallBox | main.js:79-85 | the front wall's box is that of a 50 by 20 by 0.01 box centred at z = -20 |
| GalleryScenarios.LeftWallBox | main.js:88-96 | the left wall's box is that of the same box turned a quarter about y and centred at x = -20 |
| GalleryScenarios.RightWallBox | main.js:98-106 | the right wall's box is that of the same box turned a quarter about y and centred at x = 20 |
| GalleryScenarios.FirstHitOfThree | utils/movement.js:80-94 | against a group of three walls the first hit is the first of them, in group order, whose box intersects |
| GalleryScenarios.InsideRoomIsClear | utils/movement.js:77-94 | a camera more than 5 units plus half a wall's thickness from each wall, on the room's side of the front wall, collides with none of the gallery's walls |
| GalleryScenarios.NearFrontWallHitsIt | utils/movement.js:77-94 | a camera whose box reaches the front wall collides, and the front wall is the first hit |
| GalleryScenarios.ForwardLookingDownZ | utils/movement.js:45 | looking down the negative z axis, moving forward by d decreases z by d and leaves x and y |
| GalleryScenarios.ForwardStaysClear | utils/movement.js:26-56 | walking forward to a point still clear of the walls completes the whole move |
| GalleryScenarios.ForwardIntoFrontWallRollsBack | utils/movement.js:26-56 | walking forward to a point whose box reaches the front wall leaves the camera where it started |
| GalleryScenarios.ForwardOneSecondIsClear | utils/movement.js:26-56 | from the gallery's start, one second of forward movement ends 5 units ahead at the room's centre |
| GalleryScenarios.ForwardFourSecondsRollsBack | utils/movement.js:26-56 | four seconds of forward movement would bring the box to the front wall, so the camera stays at the start |
| Geometry.FromCenterAndSize | utils/movement.js:77 | the box spans exactly the given size and is centred on the given point |
| Geometry.Intersects | utils/movement.js:89 | the six-plane separation test holds exactly when the two boxes' closed extents overlap on every axis, so touching boxes intersect |
| Geometry.IntersectsSymmetric | utils/movement.js:89 | the intersection test gives the same answer whichever box asks |
| Geometry.IntersectsIffCommonPoint | utils/movement.js:89 | the separating-plane test holds for two non-empty boxes exactly when some point lies in both |
| Geometry.CenteredBoxContainsCenter | utils/movement.js:77 | a box built from a centre and a non-negative size is non-empty and contains its centre |

## Left out

- Scene setup, rendering, and the DOM and pointer-lock wiring (`main.js`, `js/main.js`) are outside the movement core. The same goes for the painting, wall and texture factories (`utils/painting.js`, `utils/walls.js`, `utils/texture.js`).
- The bounding-box setup loop at `main.js:137-140` runs once at startup. The loop of `checkCollision` overwrites the same property every frame anyway.
- `Box3.setFromObject` is not modelled as geometry. The world box of each wall is given as `WallGroup.children`, in the group's order. The walls never move, so the box is the same every frame.
- `camera.getWorldPosition` is taken to equal `camera.position`, because the camera is a direct child of the scene.
- Coordinates are exact reals. IEEE-754 rounding of the positions and of `5 * delta` is not modelled.
- Mouse look is not modelled. The camera's right vector is fixed for the frame, as `Controls.right`.
- The controls' up vector is the library default (0, 1, 0).
- The JavaScript `in` operator also finds inherited names such as `toString`. `KeyState.Lookup` tracks only the eight own names.
- Movement.MoveByHeldKeys: the four guarded calls of `updateMovement` are factored into a helper method, with the same order and the same guards.
- Movement.UpdateMovement: the body reads the flags at each of the four guards, as the code does, while the contract reads them once through `HeldDirections(input.pressed)`; nothing can change the flags during a frame, so the two agree. Key events arriving concurrently with a frame are not modelled.
- Movement.WallGroup: a three.js `Group` holds distinct children, so the walls are modelled as values in a sequence inside the group, with no aliasing between walls.
- Movement.UpdateMovement: the controls are assumed to wrap the camera passed in (`controls.camera == camera`); the code never checks this, and the controls translate the camera they were built on.
- The gallery has no tests. The worked examples in `GalleryScenarios` use the room of `main.js`, with the walls' world boxes written out as exact reals.
