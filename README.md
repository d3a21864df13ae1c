# Office simulator: the game scene, modelled in Dafny

The office simulator is a small Phaser game, `js/game.js`. You walk a player
around an office and press space to sit on chairs or to open and close
meeting-room doors. This project models the scene that `create()` builds and
that `update()` changes once per frame, and it proves properties of that
model.

The model covers:

- **Player state**: position, velocity, facing, the walk clip being played,
  whether the player is sitting, which chair it sits on, and the help text.
- **Doors**: their open/closed flag, their texture and whether their physics
  body is enabled.
- **Level layout**: the arithmetic that places the outer walls, the two
  meeting rooms (walls, door, six chairs each) and the chairs at the office
  desks.

Modules:

- `Geometry` (`geometry.dfy`): points and the "within 40 pixels" test. All
  coordinates are whole pixels, so `sqrt(d) < 40` is the same as `d < 1600`,
  and the model compares squared distances.
- `Sprites` (`sprites.dfy`): texture names, and the walk-animation table of
  `createPlayerAnimations`.
- `Layout` (`layout.dfy`): the tiles that the wall loops lay and the chair
  and door positions of the builders, as pure functions, with proved
  properties.
- `Rules` (`rules.dfy`): one call of `update()` as a pure function
  `Step(world, input)` on values, with lemmas about moving, sitting,
  standing and the door toggle.
- `Game` (`game.dfy`): the same scene as objects that change in place.
  - `Door` is a class, and `toggleDoor` is its method `Toggle`.
  - `Scene` holds the module-level variables and the player sprite as
    fields. Its constructor is `create()`, and its methods are `update()`,
    its two halves and the builders.
  - Each method is proved to produce exactly the state that the `Rules` or
    `Layout` function describes.
- `Scenario` (`scenario.dfy`): what these rules mean in the level actually
  built.
  - No chair of the level is in reach from another chair's seat, so the
    chair scan ends on the first chair in reach.
  - The two doors are never both in reach.
  - Three fixed positions are proved to behave as expected: the spawn point
    (nothing in reach), a spot just below a door (only that door in reach)
    and a spot between a chair and a door (the chair wins).

The code behaves in some ways its comments and its documentation do not
describe. The model always follows the code:

- **The chair scan does not stop at the first match.** `update()` visits
  every chair and sits on each one within 40 pixels. Sitting moves the
  player, so later chairs are measured from the seat just taken.
  - `Rules.LaterChairOverrides` shows an arrangement where a later chair wins.
  - `Scenario.LevelSitsOnFirstChairInReach` shows that in the level as built
    the result is the same as a first-match scan.
- **The meeting-room door is on the bottom wall, not the left one.** It
  sits at `y + height - 32`, centred horizontally, positioned by its
  top-left corner.
- **The bottom wall has no gap for the door.** The wall loop lays wall
  tiles under the door's whole width (`Layout.BottomWallHasNoGap`). Opening
  a door changes only the door's own texture and `body.enable`; the wall
  tiles it overlaps stay where they are.
- **The door scan toggles every door within 40 pixels** of the player,
  measured to the door's top-left corner, not to its centre.
- **While sitting, the walk animation is never stopped.** That branch only
  sets the sitting texture and zero velocity.
- **Sitting down does not stop the player at once.** `sitOnChair` leaves the
  velocity alone, so a player who walks into reach of a chair and presses
  space is sitting with speed 160 until the next tick's sitting branch sets
  it to zero (`Rules.SittingDownKeepsVelocity`). Being seated and being
  still hold together only from the tick after sitting down
  (`Rules.StillWhileSitting`).

## Model

| member | source | states |
|---|---|---|
| `Geometry.DistSq` | js/game.js:140 | The squared distance used by both scans is never negative, and it is zero exactly when the two points are equal. |
| `Geometry.Near` | js/game.js:140 | The strict `< 40` test: a point is in reach of itself, and a point exactly 40 pixels away is not. `NearWithinBox` and `DistSqSymmetric` give more. |
| `Geometry.NearWithinBox` | js/game.js:140 | Two points within the interaction radius are less than 40 pixels apart along each axis. |
| `Geometry.DistSqSymmetric` | js/game.js:149 | Distance, and so "in reach", does not depend on the order of the two points. |
| `Sprites.WalkClip` | js/game.js:414-463 | A facing's clip has that facing's walk key, four frames, frame rate 8, and loops (`repeat == -1`). `WalkClipShape` gives the frames. |
| `Sprites.PlayerAnimations` | js/game.js:414-463 | There are four clips, each of four frames at frame rate 8 and looping. `OneClipPerDirection` shows there is one per facing. |
| `Sprites.WalkClipShape` | js/game.js:414-463 | The four frames of each walk clip show its facing's static texture. The frames are offset 0, +2, 0, -2 pixels along the axis of travel and not across it. |
| `Sprites.TexturesDistinct` | js/game.js:122-128 | The four idle textures and the sitting texture are pairwise distinct, and so are the four walk-clip keys. |
| `Sprites.OneClipPerDirection` | js/game.js:414-463 | The animation table holds a clip for every facing, and every clip with a facing's key is that facing's clip. |
| `Layout.OuterWalls` | js/game.js:465-479 | The outer walls are `2 * ceil(width / 32) + 2 * ceil(height / 32)` tiles. `OuterWallsOnEdge` and `OuterWallsCoverEdge` place them. |
| `Layout.RoomWalls` | js/game.js:491-499 | A room's walls are `2 * ceil(w / 32) + 2 * ceil(h / 32)` tiles. `RoomWallsRing` and `BottomWallHasNoGap` place them. |
| `Layout.RoomDoor` | js/game.js:502-503 | The door tile is centred across the room, and its lower edge is the room's lower edge. |
| `Layout.RoomChairs` | js/game.js:514-521 | A room has six chairs. `RoomChairsRows` gives their positions. |
| `Layout.OfficeChairs` | js/game.js:542-549 | There is one office chair per desk. `LevelCounts` places each one 40 pixels below its desk. |
| `Layout.Run` | js/game.js:467-475 | A wall loop of `k` rounds lays `2k` tiles, the first round at the loop's two start positions. `RunExtend`, `RunRound` and `RunTile` place the rest. |
| `Layout.TileCount` | js/game.js:467-475 | A `for (i = 0; i < len; i += 32)` loop runs `ceil(len / 32)` rounds, and none when `len <= 0`. |
| `Layout.RunExtend` | js/game.js:491-494 | One more round of a two-tile wall loop appends exactly its two tiles, offset by `32 * k`. |
| `Layout.RunRound` | js/game.js:467-470 | Round `i` of a wall loop lays tile `2i` at the first position and tile `2i + 1` at the second, both moved `32 * i` along the loop's axis. |
| `Layout.RunTile` | js/game.js:496-499 | Every tile of a wall loop lies on the line of one of its two positions, a whole number of tiles (and at most `k - 1` tiles) along it. |
| `Layout.OuterWallsOnEdge` | js/game.js:465-479 | Every tile `createWalls` lays lies on the 32-pixel grid of the canvas's edge rows or columns. |
| `Layout.OuterWallsCoverEdge` | js/game.js:467-475 | Every grid slot of the top and bottom rows and of the left and right columns holds an outer wall tile. |
| `Layout.RoomWallsRing` | js/game.js:489-499 | Every wall tile of a meeting room lies on the room's outer ring. |
| `Layout.BottomWallHasNoGap` | js/game.js:491-507 | Every pixel column of a room's door lies under a wall tile on the door's own row. |
| `Layout.RoomChairsRows` | js/game.js:514-521 | A room has six chairs: a row of three 30 pixels above its centre and a row of three 30 pixels below, at -50, 0 and +50 pixels across. |
| `Layout.RoomChairsInside` | js/game.js:489-521 | In a room at least 196 by 156 pixels, every chair tile lies inside the ring of walls, possibly touching a wall's inner face. |
| `Layout.LevelChairs` | js/game.js:481-549 | The `chairs` list after `create()` holds 19 chairs. `LevelCounts` gives their order. |
| `Layout.LevelDoors` | js/game.js:481-507 | The `doors` list after `create()` holds 2 doors, each with its lower edge on its room's lower edge. |
| `Layout.LevelCounts` | js/game.js:465-549 | The level's chairs come in builder order (room 1, room 2, then one chair 40 pixels below each desk), and the level has 146 wall tiles. |
| `Layout.LevelPositions` | js/game.js:481-549 | The level's chair centres and door corners, written out. |
| `Rules.Seat` | js/game.js:571-572 | The seat is straight above the chair's centre and within reach of the chair. |
| `Rules.SitOnChair` | js/game.js:568-574 | Sitting puts the player at the chair's seat, 10 pixels above its centre, marks the chair index and shows the sitting help text. Velocity, facing, texture and walk clip are unchanged. `Rules.SitThenStand` and `Rules.LaterChairOverrides` use it. |
| `Rules.StandUp` | js/game.js:576-581 | Standing up moves the player 20 pixels down, clears the chair and restores the default help text. Nothing else changes. |
| `Rules.Held` | js/game.js:92-115 | The selected direction is left when left is held, right when right but not left is held, and so on down the priority order. It is none exactly when no arrow key is held. |
| `Rules.Interact` | js/game.js:131-155 | The interaction half never changes the chairs or the number of doors, and changes nothing without a space press. It changes either the player or the doors, never both. The lemmas `SpaceWhileSittingStandsUp`, `ChairBeforeDoor`, `DoorsWhenNoChair` and `NothingInReach` give each case exactly. |
| `Rules.Step` | js/game.js:87-156 | One tick keeps the chairs and the number of doors. The player's position changes only when the player sits down or stands up. `StepKeepsDoorsConsistent`, `StillWhileSitting` and `SittingDownKeepsVelocity` give more. |
| `Rules.NewDoor` | js/game.js:502-507 | A new door is closed, has its body enabled, shows `door_closed` and sits at the given corner. |
| `Rules.Velocity` | js/game.js:92-115 | A walk moves along exactly one axis at speed 160; a vertical walk has no horizontal component. |
| `Rules.Movement` | js/game.js:88-129 | Moving never changes position, posture, chair or help text, and never gives a diagonal velocity. A sitting player is still and shows the sitting texture. A standing player plays a walk clip exactly when an arrow key is held. |
| `Rules.ToggleDoor` | js/game.js:583-592 | A toggle flips `isOpen`, keeps the door's position, and leaves the texture and body in step with the new state. |
| `Rules.ScanChairs` | js/game.js:138-144 | The scan finds a chair exactly when some chair is within reach of the starting position. If it finds none, the player is unchanged. If it finds one, the player sits on one of the scanned chairs, at that chair's seat. That chair was in reach of the starting position or of an earlier chair's seat, and no later chair is in reach of its seat. `ScanEndsOnChairInReach` states exactly that the chair passed the test from where the scan stood. |
| `Rules.ToggleIfNear` | js/game.js:149-151 | A door keeps its position, flips `isOpen` exactly when its corner is in reach, and stays consistent. |
| `Rules.ScanDoors` | js/game.js:147-153 | The door scan keeps every door's position and flips `isOpen` on exactly the doors within reach. |
| `Rules.SittingIgnoresArrows` | js/game.js:124-129 | While sitting, the arrow keys make no difference: the player stays still with the sitting texture, keeping its facing and its walk clip. |
| `Rules.MovementPriority` | js/game.js:92-115 | Standing, the first held key in the order left, right, up, down sets the speed on its axis, a zero speed on the other axis, and the facing. |
| `Rules.LeftThenUpWalksLeft` | js/game.js:92-97 | Holding left together with up walks left only. |
| `Rules.IdleShowsFacing` | js/game.js:116-123 | Standing with no key held, the player stops, the walk clip stops and the idle texture of the last facing is shown. |
| `Rules.ToggleTwice` | js/game.js:583-592 | Toggling a door twice restores it exactly. |
| `Rules.SitThenStand` | js/game.js:568-581 | Sitting on a chair and then standing leaves the player at the chair's x, 10 pixels below its centre, standing, with no chair and the default help text. |
| `Rules.NoSpaceNoInteraction` | js/game.js:132 | Without a space press the interaction step changes nothing. |
| `Rules.SpaceWhileSittingStandsUp` | js/game.js:133-135 | Sitting, a space press only stands the player up; chairs and doors are untouched. |
| `Rules.ChairBeforeDoor` | js/game.js:137-147 | Standing with a chair in reach, a space press seats the player on a chair, with the sitting help text, and leaves every door as it was. That chair was in reach of the starting position or of an earlier chair's seat. |
| `Rules.DoorsWhenNoChair` | js/game.js:146-153 | Standing with no chair in reach, a space press toggles exactly the doors in reach and leaves the player alone. |
| `Rules.NothingInReach` | js/game.js:137-153 | Standing out of reach of every chair and door, a space press changes nothing. |
| `Rules.StepKeepsDoorsConsistent` | js/game.js:87-156 | A tick keeps every door's texture and body in step with its open flag, and never changes the chairs. |
| `Rules.StepKeepsSeated` | js/game.js:568-581 | If the player sits exactly when it holds a chair of the list, the same holds after any tick: at most one chair is occupied, the one the player refers to. |
| `Rules.StillWhileSitting` | js/game.js:124-129 | A player who is sitting at the start of a tick has zero velocity and the sitting texture after it. |
| `Rules.SittingDownKeepsVelocity` | js/game.js:88-144 | A standing player who holds an arrow key and presses space with a chair in reach ends the tick sitting but still moving at the walk's velocity, because `sitOnChair` does not clear the velocity. |
| `Rules.ScanEndsOnChairInReach` | js/game.js:139-144 | The chair the scan ends on was in reach of the position the scan had reached just before it. |
| `Rules.ScanPrefix` | js/game.js:139-144 | When no seat has another chair in reach, the scan of any prefix holds nothing before the first chair in reach and that chair afterwards. |
| `Rules.FirstChairWinsWhenSpread` | js/game.js:139-144 | When no seat has another chair in reach, the every-chair scan ends on the first chair in reach. |
| `Rules.LaterChairOverrides` | js/game.js:139-144 | When a second chair is in reach of the first chair's seat, the scan sits on the first and then moves on to the second. |
| `Scenario.RoomChairsSpread` | js/game.js:514-527 | From each chair's seat in any meeting room, no other chair of that room is in reach. |
| `Scenario.LevelChairsSpread` | js/game.js:481-549 | From each chair's seat in the level, no other chair of the level is in reach. |
| `Scenario.LevelSitsOnFirstChairInReach` | js/game.js:137-144 | In the level, a space press seats the player on the first chair in list order that is in reach. |
| `Scenario.LevelDoorsNeverBothInReach` | js/game.js:146-153 | No position is in reach of both doors of the level. |
| `Scenario.ChairWinsOverRoomDoor` | js/game.js:137-153 | At (617, 249) both the first room's door and a chair are in reach. Space seats the player on that chair, at (625, 220), and leaves the doors as they were. |
| `Scenario.NothingInReachAtSpawn` | js/game.js:59 | At the spawn point (400, 300) no chair and no door is in reach, so a space press changes nothing. |
| `Scenario.DoorOnlyBelowRoomDoor` | js/game.js:146-153 | At (609, 300), just below the first room's door, no chair is in reach. A space press toggles that door only and leaves the player alone. |
| `Game.Door.constructor` | js/game.js:502-507 | A new door object is in the state `Rules.NewDoor` describes. |
| `Game.Door.Toggle` | js/game.js:583-592 | `toggleDoor` changes the door in place exactly as `Rules.ToggleDoor`. |
| `Game.Scene.constructor` | js/game.js:37-85 | `create()` places the player at (400, 300), standing, still, facing down with the default help text. It builds exactly the level's chairs, its two new closed doors and the outer and room walls for the given canvas size, with no door listed twice and no chair held. |
| `Game.Scene.LayWallRun` | js/game.js:467-475 | A wall loop appends exactly the tiles `Layout.Run` describes, round by round. |
| `Game.Scene.CreateWalls` | js/game.js:465-479 | `createWalls` appends exactly the outer walls. |
| `Game.Scene.CreateMeetingRoom` | js/game.js:489-528 | `createMeetingRoom` appends the room's walls, one new closed door at the door corner and the six chairs in order. It keeps the earlier doors, and no door is listed twice. |
| `Game.Scene.AddDoor` | js/game.js:502-507 | The new door is appended after the existing doors, which are kept. |
| `Game.Scene.AddChairs` | js/game.js:523-527 | The chair loop appends the positions in order. |
| `Game.Scene.CreateMeetingRooms` | js/game.js:481-487 | The two rooms are built in order, with their walls, chairs and two new doors. |
| `Game.Scene.CreateOfficeFurniture` | js/game.js:530-549 | One chair is appended 40 pixels below each desk, in desk order. |
| `Game.Scene.SitOnChair` | js/game.js:568-574 | `sitOnChair` updates the player fields as `Rules.SitOnChair` does. |
| `Game.Scene.StandUp` | js/game.js:576-581 | `standUp` updates the player fields as `Rules.StandUp` does. |
| `Game.Scene.Update` | js/game.js:87-156 | One `update()` changes the scene exactly as `Rules.Step`. It keeps the door list, the walls, door distinctness, and `isSitting` in step with `currentChair`. |
| `Game.Scene.Move` | js/game.js:88-129 | The movement half sets the player fields as `Rules.Movement` does. |
| `Game.Scene.Interact` | js/game.js:131-155 | The interaction half changes the scene exactly as `Rules.Interact`. |
| `Game.Scene.SitOnChairsInReach` | js/game.js:137-144 | The chair loop ends in the state, and with the `foundChair` flag, that `Rules.ScanChairs` gives over all chairs. |
| `Game.Scene.ToggleDoorsInReach` | js/game.js:146-153 | The door loop leaves the doors in the states `Rules.ScanDoors` gives. |

## Left out

- Texture generation (`js/game.js:158-411` and `js/asset-generator.js`) and the floor, desk, conference-table and plant images. Textures are referred to by name only; their bitmaps do not affect the interaction.
- The physics engine.
  - Velocities are set but never integrated into positions.
  - There is no collision with walls, plants or the world bounds, and no body sizes.
  - No collider in `js/game.js` pairs the player with a door. The only colliders are the player against `scene.physics.world.staticBodies` (js/game.js:478) and the player against each plant (js/game.js:564). The model keeps a door's `body.enable` flag as state that a toggle sets, and claims nothing about it stopping the player.
  - Position changes only through `sitOnChair` and `standUp`. The effect of the missing door gap on where the player can walk is therefore not modelled.
- Animation playback. `walk` records which walk clip is playing, or that none is playing. The frames it shows over time are not modelled, nor how a playing clip overrides the texture.
- Keyboard handling. `cursors` and `Phaser.Input.Keyboard.JustDown` become the `Input` record of one tick.
- Floating point.
  - Positions are whole pixels, and `Phaser.Math.Distance.Between` is compared through squared distances.
- Game.Scene.CreateMeetingRoom: requires an even width and height, so that `width / 2` and `height / 2` stay whole pixels. The game accepts odd sizes and then works with half pixels. `Layout.RoomDoor`, `Layout.Center` and `Layout.RoomChairs` carry the same requirement. Both rooms of the level have even sizes.
- `config.width` and `config.height` are parameters of `Game.Scene.constructor`. In the game they are 800 and 600; `Layout.WorldWidth` and `Layout.WorldHeight` hold those values.
- The help-text object is modelled as its string. Its font, position and scroll factor are left out.
- `currentChair` holds the chair's index in the chair list, not the chair object.
- `preload` and the Phaser game configuration.
