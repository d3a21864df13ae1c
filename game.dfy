/** The scene of js/game.js as the game runs it: module-level variables
    and sprite properties become fields, `create()` becomes the
    constructor, and `update()` and its helpers become methods that change
    those fields in place. Each method is proved to do what the pure
    functions of `Rules` and `Layout` describe. */
module Game {
  import opened Geometry
  import opened Sprites
  import opened Rules
  import Layout

  /** A door image; `toggleDoor` changes it in place. */
  class Door {
    const x: int
    const y: int
    var isOpen: bool
    var texture: string
    var bodyEnabled: bool

    /** The door `createMeetingRoom` adds (js/game.js:504-506). */
    constructor (x: int, y: int)
      ensures State() == NewDoor(Point(x, y))
    {
      this.x := x;
      this.y := y;
      isOpen := false;
      texture := DoorClosed;
      bodyEnabled := true;
    }

    function State(): DoorState
      reads this
    {
      DoorState(x, y, isOpen, texture, bodyEnabled)
    }

    /** `toggleDoor` (js/game.js:583-592). */
    method Toggle()
      modifies this
      ensures State() == ToggleDoor(old(State()))
    {
      isOpen := !isOpen;
      if isOpen {
        texture := DoorOpen;
        bodyEnabled := false;
      } else {
        texture := DoorClosed;
        bodyEnabled := true;
      }
    }
  }

  /** The states of a list of doors. */
  function StatesOf(ds: seq<Door>): (r: seq<DoorState>)
    reads set d | d in ds
    ensures |r| == |ds| && forall k :: 0 <= k < |ds| ==> r[k] == ds[k].State()
  {
    if ds == [] then [] else StatesOf(ds[..|ds| - 1]) + [ds[|ds| - 1].State()]
  }

  /** The game scene: the player sprite with the variables `isSitting`,
      `currentChair`, `playerDirection` and the help text, and the lists
      of chairs, doors and wall tiles the builders fill. */
  class Scene {
    var x: int
    var y: int
    var vx: int
    var vy: int
    var direction: Direction
    var texture: string
    var walk: Option<Direction>
    var sitting: bool
    var currentChair: Option<nat>
    var helpText: string
    var chairs: seq<Point>
    var doors: seq<Door>
    var walls: seq<Point>

    /** No door appears twice in the door list, and the player sits exactly
        when it holds a chair of the chair list (`Rules.Seated`). */
    ghost predicate Valid()
      reads this`doors, this`sitting, this`currentChair, this`chairs
    {
      (forall i, j :: 0 <= i < j < |doors| ==> doors[i] != doors[j]) &&
      (sitting <==> currentChair.Some?) &&
      (currentChair.Some? ==> currentChair.value < |chairs|)
    }

    function PlayerState(): Player
      reads this`x, this`y, this`vx, this`vy, this`direction, this`texture, this`walk,
        this`sitting, this`currentChair, this`helpText
    {
      Player(x, y, vx, vy, direction, texture, walk, sitting, currentChair, helpText)
    }

    /** What `update()` works on. */
    function State(): Rules.World
      reads this, set d | d in doors
    {
      Rules.World(PlayerState(), chairs, StatesOf(doors))
    }

    /** `create()` (js/game.js:37-85) without textures, floor tiles, desks,
        plants and input set-up, for a canvas of `width` by `height` pixels
        (`config.width` and `config.height`, 800 by 600 in the game): the
        player at (400, 300) facing down, then the outer walls, the two
        meeting rooms and the office furniture. */
    constructor (width: int, height: int)
      ensures Valid()
      ensures PlayerState() == Player(400, 300, 0, 0, Down, PlayerTexture(Down), None, false, None, DefaultHelp)
      ensures chairs == Layout.LevelChairs()
      ensures |doors| == 2
      ensures doors[0].State() == NewDoor(Layout.LevelDoors()[0]) && doors[1].State() == NewDoor(Layout.LevelDoors()[1])
      ensures walls == Layout.OuterWalls(width, height) + Layout.RoomWalls(Layout.Room1) + Layout.RoomWalls(Layout.Room2)
    {
      x, y, vx, vy := 400, 300, 0, 0;
      direction := Down;
      texture := PlayerTexture(Down);
      walk := None;
      sitting := false;
      currentChair := None;
      helpText := DefaultHelp;
      chairs, doors, walls := [], [], [];
      new;
      CreateWalls(width, height);
      CreateMeetingRooms();
      CreateOfficeFurniture();
    }

    /** One wall loop `for (i = 0; i < len; i += 32)` whose body places a
        tile at `a` and one at `b`, both moved by `i` along the loop's axis. */
    method LayWallRun(a: Point, b: Point, horizontal: bool, len: int)
      modifies this`walls
      ensures walls == old(walls) + Layout.Run(a, b, horizontal, Layout.TileCount(len))
    {
      var i := 0;
      ghost var k: nat := 0;
      while i < len
        invariant i == Layout.Tile * k && k <= Layout.TileCount(len)
        invariant walls == old(walls) + Layout.Run(a, b, horizontal, k)
      {
        walls := walls + [Layout.Shift(a, horizontal, i), Layout.Shift(b, horizontal, i)];
        Layout.RunExtend(a, b, horizontal, k);
        i := i + Layout.Tile;
        k := k + 1;
      }
    }

    /** `createWalls` (js/game.js:465-479): the outer walls of a canvas of
        `width` by `height` pixels. */
    method CreateWalls(width: int, height: int)
      modifies this`walls
      ensures walls == old(walls) + Layout.OuterWalls(width, height)
    {
      LayWallRun(Point(0, 0), Point(0, height - Layout.Tile), true, width);
      LayWallRun(Point(0, 0), Point(width - Layout.Tile, 0), false, height);
    }

    /** `createMeetingRoom` (js/game.js:489-528): a ring of walls, one
        closed door and six chairs. */
    method CreateMeetingRoom(rx: int, ry: int, width: int, height: int)
      requires Valid()
      requires width % 2 == 0 && height % 2 == 0
      modifies this`walls, this`doors, this`chairs
      ensures Valid()
      ensures walls == old(walls) + Layout.RoomWalls(Layout.Rect(rx, ry, width, height))
      ensures |doors| == |old(doors)| + 1 && doors[..|old(doors)|] == old(doors)
      ensures fresh(doors[|old(doors)|])
      ensures doors[|old(doors)|].State() == NewDoor(Layout.RoomDoor(Layout.Rect(rx, ry, width, height)))
      ensures chairs == old(chairs) + Layout.RoomChairs(Layout.Rect(rx, ry, width, height))
    {
      LayWallRun(Point(rx, ry), Point(rx, ry + height - Layout.Tile), true, width);
      LayWallRun(Point(rx, ry), Point(rx + width - Layout.Tile, ry), false, height);
      AddDoor(rx + width / 2 - 16, ry + height - 32);
      var positions := [
        Point(rx + width / 2 - 50, ry + height / 2 - 30),
        Point(rx + width / 2, ry + height / 2 - 30),
        Point(rx + width / 2 + 50, ry + height / 2 - 30),
        Point(rx + width / 2 - 50, ry + height / 2 + 30),
        Point(rx + width / 2, ry + height / 2 + 30),
        Point(rx + width / 2 + 50, ry + height / 2 + 30)];
      assert positions == Layout.RoomChairs(Layout.Rect(rx, ry, width, height));
      AddChairs(positions);
    }

    /** The door of `createMeetingRoom` (js/game.js:502-507): a new closed
        door at the end of the door list. */
    method AddDoor(x: int, y: int)
      requires Valid()
      modifies this`doors
      ensures Valid()
      ensures |doors| == |old(doors)| + 1 && doors[..|old(doors)|] == old(doors)
      ensures fresh(doors[|old(doors)|]) && doors[|old(doors)|].State() == NewDoor(Point(x, y))
    {
      var door := new Door(x, y);
      doors := doors + [door];
      assert forall k :: 0 <= k < |old(doors)| ==> doors[k] == old(doors)[k] != door;
    }

    /** The chair loop of `createMeetingRoom` (js/game.js:514-527): one
        chair per position, in order. */
    method AddChairs(positions: seq<Point>)
      modifies this`chairs
      ensures chairs == old(chairs) + positions
    {
      var i := 0;
      while i < |positions|
        invariant 0 <= i <= |positions|
        invariant chairs == old(chairs) + positions[..i]
      {
        chairs := chairs + [positions[i]];
        i := i + 1;
      }
    }

    /** `createMeetingRooms` (js/game.js:481-487). */
    method CreateMeetingRooms()
      requires Valid()
      modifies this`walls, this`doors, this`chairs
      ensures Valid()
      ensures walls == old(walls) + Layout.RoomWalls(Layout.Room1) + Layout.RoomWalls(Layout.Room2)
      ensures chairs == old(chairs) + Layout.RoomChairs(Layout.Room1) + Layout.RoomChairs(Layout.Room2)
      ensures |doors| == |old(doors)| + 2 && doors[..|old(doors)|] == old(doors)
      ensures fresh(doors[|old(doors)|]) && fresh(doors[|old(doors)| + 1])
      ensures doors[|old(doors)|].State() == NewDoor(Layout.RoomDoor(Layout.Room1))
      ensures doors[|old(doors)| + 1].State() == NewDoor(Layout.RoomDoor(Layout.Room2))
    {
      ghost var before := doors;
      CreateMeetingRoom(500, 100, 250, 200);
      ghost var first := doors[|before|];
      assert first.State() == NewDoor(Layout.RoomDoor(Layout.Room1));
      CreateMeetingRoom(100, 350, 200, 200);
      assert doors[|before|] == first;
    }

    /** The chair half of `createOfficeFurniture` (js/game.js:530-549): one
        chair 40 pixels below each desk. */
    method CreateOfficeFurniture()
      modifies this`chairs
      ensures chairs == old(chairs) + Layout.OfficeChairs()
    {
      var desks := Layout.Desks;
      var i := 0;
      while i < |desks|
        modifies this`chairs
        invariant 0 <= i <= |desks|
        invariant chairs == old(chairs) + Layout.OfficeChairs()[..i]
      {
        chairs := chairs + [Point(desks[i].x, desks[i].y + 40)];
        i := i + 1;
      }
    }

    /** `sitOnChair` (js/game.js:568-574) for the chair at index `i`. */
    method SitOnChair(i: nat)
      requires i < |chairs|
      modifies this`sitting, this`currentChair, this`x, this`y, this`helpText
      ensures PlayerState() == Rules.SitOnChair(old(PlayerState()), i, chairs[i])
    {
      sitting := true;
      currentChair := Some(i);
      x := chairs[i].x;
      y := chairs[i].y - 10;
      helpText := SittingHelp;
    }

    /** `standUp` (js/game.js:576-581). */
    method StandUp()
      modifies this`sitting, this`currentChair, this`y, this`helpText
      ensures PlayerState() == Rules.StandUp(old(PlayerState()))
    {
      sitting := false;
      currentChair := None;
      y := y + 20;
      helpText := DefaultHelp;
    }

    /** `update()` (js/game.js:87-156): movement, then the space-key
        interaction. */
    method Update(inp: Input)
      requires Valid()
      modifies this, set d | d in doors
      ensures Valid() && doors == old(doors) && walls == old(walls)
      ensures State() == Step(old(State()), inp)
    {
      ghost var before := State();
      Move(inp);
      Interact(inp.spaceJustDown);
      StepKeepsSeated(before, inp);
    }

    /** The movement half of `update()` (js/game.js:88-129). */
    method Move(inp: Input)
      modifies this`vx, this`vy, this`walk, this`direction, this`texture
      ensures PlayerState() == Movement(old(PlayerState()), inp)
    {
      if !sitting {
        if inp.left {
          vx, vy := -Speed, 0;
          walk := Some(Left);
          direction := Left;
        } else if inp.right {
          vx, vy := Speed, 0;
          walk := Some(Right);
          direction := Right;
        } else if inp.up {
          vy, vx := -Speed, 0;
          walk := Some(Up);
          direction := Up;
        } else if inp.down {
          vy, vx := Speed, 0;
          walk := Some(Down);
          direction := Down;
        } else {
          vx, vy := 0, 0;
          walk := None;
          texture := PlayerTexture(direction);
        }
      } else {
        vx, vy := 0, 0;
        texture := PlayerSitting;
      }
    }

    /** The interaction half of `update()` (js/game.js:131-155). */
    method Interact(space: bool)
      requires Valid()
      modifies this`sitting, this`currentChair, this`x, this`y, this`helpText, set d | d in doors
      ensures State() == Rules.Interact(old(State()), space)
    {
      if space {
        if sitting {
          StandUp();
        } else {
          var foundChair := SitOnChairsInReach();
          if !foundChair {
            ToggleDoorsInReach();
          }
        }
      }
    }

    /** The chair scan of `update()` (js/game.js:137-144): every chair within
        reach of the player's current position is sat on, in list order. */
    method SitOnChairsInReach() returns (foundChair: bool)
      modifies this`sitting, this`currentChair, this`x, this`y, this`helpText
      ensures Scan(PlayerState(), foundChair) == ScanChairs(old(PlayerState()), chairs, |chairs|)
    {
      foundChair := false;
      var i := 0;
      while i < |chairs|
        invariant 0 <= i <= |chairs|
        invariant Scan(PlayerState(), foundChair) == ScanChairs(old(PlayerState()), chairs, i)
      {
        if Near(Point(x, y), chairs[i]) {
          SitOnChair(i);
          foundChair := true;
        }
        i := i + 1;
      }
    }

    /** The door scan of `update()` (js/game.js:147-153): every door whose
        top-left corner is within reach of the player is toggled. */
    method ToggleDoorsInReach()
      requires Valid()
      modifies set d | d in doors
      ensures StatesOf(doors) == ScanDoors(Point(x, y), old(StatesOf(doors)))
    {
      var j := 0;
      while j < |doors|
        invariant 0 <= j <= |doors|
        invariant forall k :: 0 <= k < j ==> doors[k].State() == ToggleIfNear(Point(x, y), old(doors[k].State()))
        invariant forall k :: j <= k < |doors| ==> doors[k].State() == old(doors[k].State())
      {
        if Near(Point(x, y), Point(doors[j].x, doors[j].y)) {
          doors[j].Toggle();
        }
        j := j + 1;
      }
    }
  }
}
