/** The level layout arithmetic of js/game.js: where the wall builders,
    the meeting rooms and the office furniture put walls, doors and chairs.
    Walls and doors are 32x32 tiles positioned by their top-left corner
    (`setOrigin(0)`); chairs are positioned by their centre (`setOrigin(0.5)`). */
module Layout {
  import opened Geometry

  const WorldWidth: int := 800
  const WorldHeight: int := 600
  const Tile: int := 32

  /** Offsets a point by `i` along the horizontal or the vertical axis. */
  function Shift(p: Point, horizontal: bool, i: int): Point
  {
    if horizontal then Point(p.x + i, p.y) else Point(p.x, p.y + i)
  }

  /** How many rounds a `for (i = 0; i < len; i += 32)` loop makes. */
  function TileCount(len: int): (k: nat)
    ensures len <= 0 ==> k == 0
    ensures len > 0 ==> Tile * (k - 1) < len <= Tile * k
  {
    if len <= 0 then 0 else (len + Tile - 1) / Tile
  }

  /** The tiles laid by the first `k` rounds of a wall loop whose body
      places one tile at `a` and then one at `b`, both moved by the loop
      offset along its axis: round `i` lays tiles `2 * i` and `2 * i + 1`. */
  function Run(a: Point, b: Point, horizontal: bool, k: nat): (r: seq<Point>)
    ensures |r| == 2 * k
    ensures k > 0 ==> r[0] == a && r[1] == b
  {
    seq(2 * k, m requires 0 <= m < 2 * k => Shift(if m % 2 == 0 then a else b, horizontal, Tile * (m / 2)))
  }

  /** One more round of a wall loop appends its two tiles. */
  lemma RunExtend(a: Point, b: Point, horizontal: bool, k: nat)
    ensures Run(a, b, horizontal, k + 1) ==
      Run(a, b, horizontal, k) + [Shift(a, horizontal, Tile * k), Shift(b, horizontal, Tile * k)]
  {
    var r, s := Run(a, b, horizontal, k + 1), Run(a, b, horizontal, k);
    var t := s + [Shift(a, horizontal, Tile * k), Shift(b, horizontal, Tile * k)];
    assert |r| == |t|;
    forall m | 0 <= m < |r|
      ensures r[m] == t[m]
    {
      if m >= 2 * k {
        assert m == 2 * k || m == 2 * k + 1;
        assert m / 2 == k;
      }
    }
  }

  /** Round `i` of a wall loop lays tiles `2 * i` and `2 * i + 1`. */
  lemma RunRound(a: Point, b: Point, horizontal: bool, k: nat, i: nat)
    requires i < k
    ensures Run(a, b, horizontal, k)[2 * i] == Shift(a, horizontal, Tile * i)
    ensures Run(a, b, horizontal, k)[2 * i + 1] == Shift(b, horizontal, Tile * i)
  {
    assert (2 * i) % 2 == 0 && (2 * i) / 2 == i;
    assert (2 * i + 1) % 2 == 1 && (2 * i + 1) / 2 == i;
  }

  /** The tiles of the top/bottom loop followed by the left/right loop of
      `createWalls`, for a world of the given size. */
  function OuterWalls(width: int, height: int): (r: seq<Point>)
    ensures |r| == 2 * TileCount(width) + 2 * TileCount(height)
  {
    Run(Point(0, 0), Point(0, height - Tile), true, TileCount(width)) +
    Run(Point(0, 0), Point(width - Tile, 0), false, TileCount(height))
  }

  /** The rectangle a meeting room is built in. */
  datatype Rect = Rect(x: int, y: int, w: int, h: int)

  /** Halving the size stays on integer pixels. */
  predicate EvenSized(r: Rect)
  {
    r.w % 2 == 0 && r.h % 2 == 0
  }

  /** The tiles of the two wall loops of `createMeetingRoom`. */
  function RoomWalls(r: Rect): (ws: seq<Point>)
    ensures |ws| == 2 * TileCount(r.w) + 2 * TileCount(r.h)
  {
    Run(Point(r.x, r.y), Point(r.x, r.y + r.h - Tile), true, TileCount(r.w)) +
    Run(Point(r.x, r.y), Point(r.x + r.w - Tile, r.y), false, TileCount(r.h))
  }

  function Center(r: Rect): Point
    requires EvenSized(r)
  {
    Point(r.x + r.w / 2, r.y + r.h / 2)
  }

  /** The top-left corner of a meeting room's door: the door tile is
      centred across the room and its lower edge is the room's lower edge. */
  function RoomDoor(r: Rect): (d: Point)
    requires EvenSized(r)
    ensures d.x + Tile / 2 == Center(r).x && d.y + Tile == r.y + r.h
  {
    Point(r.x + r.w / 2 - Tile / 2, r.y + r.h - Tile)
  }

  /** The six chairs around a meeting room's table, in creation order:
      two rows of three around the centre. */
  function RoomChairs(r: Rect): (cs: seq<Point>)
    requires EvenSized(r)
    ensures |cs| == 6
  {
    var c := Center(r);
    [Point(c.x - 50, c.y - 30), Point(c.x, c.y - 30), Point(c.x + 50, c.y - 30),
     Point(c.x - 50, c.y + 30), Point(c.x, c.y + 30), Point(c.x + 50, c.y + 30)]
  }

  const Room1: Rect := Rect(500, 100, 250, 200)
  const Room2: Rect := Rect(100, 350, 200, 200)

  /** The desk centres of the open office area. */
  const Desks: seq<Point> := [Point(100, 100), Point(100, 200), Point(250, 100), Point(250, 200),
                              Point(400, 400), Point(500, 400), Point(600, 400)]

  /** The chair that belongs to a desk. */
  function ChairOf(desk: Point): Point
  {
    Point(desk.x, desk.y + 40)
  }

  /** The chairs of `createOfficeFurniture`, one per desk in desk order. */
  function OfficeChairs(): (cs: seq<Point>)
    ensures |cs| == |Desks|
  {
    seq(|Desks|, i requires 0 <= i < |Desks| => ChairOf(Desks[i]))
  }

  /** Every chair of the level, in the order the builders push them. */
  function LevelChairs(): (cs: seq<Point>)
    ensures |cs| == 19
  {
    RoomChairs(Room1) + RoomChairs(Room2) + OfficeChairs()
  }

  /** Every door corner of the level, in the order the builders push them. */
  function LevelDoors(): (ds: seq<Point>)
    ensures |ds| == 2
    ensures ds[0].y + Tile == Room1.y + Room1.h && ds[1].y + Tile == Room2.y + Room2.h
  {
    [RoomDoor(Room1), RoomDoor(Room2)]
  }

  function LevelWalls(): seq<Point>
  {
    OuterWalls(WorldWidth, WorldHeight) + RoomWalls(Room1) + RoomWalls(Room2)
  }

  /** A tile on the edge of a world: the top or bottom row, or the
      left or right column, on the 32-pixel grid. */
  predicate OnWorldEdge(width: int, height: int, t: Point)
  {
    ((t.y == 0 || t.y == height - Tile) && 0 <= t.x < width && t.x % Tile == 0) ||
    ((t.x == 0 || t.x == width - Tile) && 0 <= t.y < height && t.y % Tile == 0)
  }

  /** Every outer wall tile lies on the world's edge. */
  lemma OuterWallsOnEdge(width: int, height: int)
    ensures forall m :: 0 <= m < |OuterWalls(width, height)| ==>
      OnWorldEdge(width, height, OuterWalls(width, height)[m])
  {
    var rows := Run(Point(0, 0), Point(0, height - Tile), true, TileCount(width));
    var cols := Run(Point(0, 0), Point(width - Tile, 0), false, TileCount(height));
    var w := OuterWalls(width, height);
    assert w == rows + cols;
    forall m | 0 <= m < |w|
      ensures OnWorldEdge(width, height, w[m])
    {
      if m < |rows| {
        RunTile(Point(0, 0), Point(0, height - Tile), true, TileCount(width), m);
        assert w[m] == rows[m];
      } else {
        RunTile(Point(0, 0), Point(width - Tile, 0), false, TileCount(height), m - |rows|);
        assert w[m] == cols[m - |rows|];
      }
    }
  }

  /** Every tile slot of the top and bottom rows and of the side columns
      holds an outer wall. */
  lemma OuterWallsCoverEdge(width: int, height: int)
    ensures forall i :: 0 <= i < TileCount(width) ==>
      Point(Tile * i, 0) in OuterWalls(width, height) && Point(Tile * i, height - Tile) in OuterWalls(width, height)
    ensures forall i :: 0 <= i < TileCount(height) ==>
      Point(0, Tile * i) in OuterWalls(width, height) && Point(width - Tile, Tile * i) in OuterWalls(width, height)
  {
    var rows := Run(Point(0, 0), Point(0, height - Tile), true, TileCount(width));
    var cols := Run(Point(0, 0), Point(width - Tile, 0), false, TileCount(height));
    var w := OuterWalls(width, height);
    assert w == rows + cols;
    forall i | 0 <= i < TileCount(width)
      ensures Point(Tile * i, 0) in w && Point(Tile * i, height - Tile) in w
    {
      RunRound(Point(0, 0), Point(0, height - Tile), true, TileCount(width), i);
      assert w[2 * i] == rows[2 * i];
      assert w[2 * i + 1] == rows[2 * i + 1];
    }
    forall i | 0 <= i < TileCount(height)
      ensures Point(0, Tile * i) in w && Point(width - Tile, Tile * i) in w
    {
      RunRound(Point(0, 0), Point(width - Tile, 0), false, TileCount(height), i);
      assert Point(0, Tile * i) in cols && Point(width - Tile, Tile * i) in cols;
    }
  }

  /** A tile on a room's ring of walls. */
  predicate OnRoomRing(r: Rect, t: Point)
  {
    ((t.y == r.y || t.y == r.y + r.h - Tile) && r.x <= t.x < r.x + r.w) ||
    ((t.x == r.x || t.x == r.x + r.w - Tile) && r.y <= t.y < r.y + r.h)
  }

  /** Every wall tile of a room lies on the room's ring. */
  lemma RoomWallsRing(r: Rect)
    ensures forall m :: 0 <= m < |RoomWalls(r)| ==> OnRoomRing(r, RoomWalls(r)[m])
  {
    var rows := Run(Point(r.x, r.y), Point(r.x, r.y + r.h - Tile), true, TileCount(r.w));
    var cols := Run(Point(r.x, r.y), Point(r.x + r.w - Tile, r.y), false, TileCount(r.h));
    assert RoomWalls(r) == rows + cols;
    forall m | 0 <= m < |RoomWalls(r)|
      ensures OnRoomRing(r, RoomWalls(r)[m])
    {
      if m < |rows| {
        RunTile(Point(r.x, r.y), Point(r.x, r.y + r.h - Tile), true, TileCount(r.w), m);
        assert RoomWalls(r)[m] == rows[m];
      } else {
        RunTile(Point(r.x, r.y), Point(r.x + r.w - Tile, r.y), false, TileCount(r.h), m - |rows|);
        assert RoomWalls(r)[m] == cols[m - |rows|];
      }
    }
  }

  /** Tile `m` of a run of `k` rounds lies on the line of `a` or of `b`,
      a whole number of tiles and at most `k - 1` tiles along from them. */
  lemma RunTile(a: Point, b: Point, horizontal: bool, k: nat, m: nat)
    requires m < 2 * k
    requires horizontal ==> a.x == b.x
    requires !horizontal ==> a.y == b.y
    ensures var t := Run(a, b, horizontal, k)[m];
      (horizontal ==> (t.y == a.y || t.y == b.y) && a.x <= t.x <= a.x + Tile * (k - 1) && (t.x - a.x) % Tile == 0) &&
      (!horizontal ==> (t.x == a.x || t.x == b.x) && a.y <= t.y <= a.y + Tile * (k - 1) && (t.y - a.y) % Tile == 0)
  {
    var i := m / 2;
    assert i < k;
    assert Run(a, b, horizontal, k)[m] == Shift(if m % 2 == 0 then a else b, horizontal, Tile * i);
    assert (Tile * i) % Tile == 0;
  }

  /** The bottom wall of a room has no gap for the door: every pixel column
      of the door's tile lies under a wall tile on the door's own row, so the
      door image overlaps wall tiles, whatever the state of its own body. */
  lemma BottomWallHasNoGap(r: Rect, c: int)
    requires EvenSized(r) && r.w >= Tile
    requires RoomDoor(r).x <= c < RoomDoor(r).x + Tile
    ensures exists m :: (0 <= m < |RoomWalls(r)| &&
      RoomWalls(r)[m].y == RoomDoor(r).y && RoomWalls(r)[m].x <= c < RoomWalls(r)[m].x + Tile)
  {
    var rows := Run(Point(r.x, r.y), Point(r.x, r.y + r.h - Tile), true, TileCount(r.w));
    var k := (c - r.x) / Tile;
    assert Tile * k <= c - r.x < Tile * k + Tile;
    assert k < TileCount(r.w);
    RunRound(Point(r.x, r.y), Point(r.x, r.y + r.h - Tile), true, TileCount(r.w), k);
    assert RoomWalls(r)[2 * k + 1] == rows[2 * k + 1];
  }

  /** In a room at least 196 wide and 156 high every chair's 32x32 tile
      lies inside the ring of walls, possibly touching a wall's inner face. */
  lemma RoomChairsInside(r: Rect)
    requires EvenSized(r) && r.w >= 196 && r.h >= 156
    ensures forall k :: 0 <= k < |RoomChairs(r)| ==>
      r.x + Tile <= RoomChairs(r)[k].x - Tile / 2 && RoomChairs(r)[k].x + Tile / 2 <= r.x + r.w - Tile &&
      r.y + Tile <= RoomChairs(r)[k].y - Tile / 2 && RoomChairs(r)[k].y + Tile / 2 <= r.y + r.h - Tile
  {
    var cs := RoomChairs(r);
    RoomChairsRows(r);
    forall k | 0 <= k < |cs|
      ensures r.x + Tile <= cs[k].x - Tile / 2 && cs[k].x + Tile / 2 <= r.x + r.w - Tile
      ensures r.y + Tile <= cs[k].y - Tile / 2 && cs[k].y + Tile / 2 <= r.y + r.h - Tile
    {
      assert -1 <= k % 3 - 1 <= 1;
      assert -50 <= 50 * (k % 3 - 1) <= 50;
    }
  }

  /** A meeting room has six chairs: a row of three 30 pixels above the
      centre and a row of three 30 pixels below it, the columns 50 pixels
      left of, at and right of the centre. */
  lemma RoomChairsRows(r: Rect)
    requires EvenSized(r)
    ensures |RoomChairs(r)| == 6
    ensures forall k :: 0 <= k < 6 ==>
      RoomChairs(r)[k] == Point(Center(r).x + 50 * (k % 3 - 1), Center(r).y + (if k < 3 then -30 else 30))
  {
    var cs := RoomChairs(r);
    forall k | 0 <= k < 6
      ensures cs[k] == Point(Center(r).x + 50 * (k % 3 - 1), Center(r).y + (if k < 3 then -30 else 30))
    {
      assert k == 0 || k == 1 || k == 2 || k == 3 || k == 4 || k == 5;
    }
  }

  /** The level's chairs come in builder order (six per meeting room, then
      one 40 pixels below each desk), and the level has 146 wall tiles. */
  lemma LevelCounts()
    ensures LevelChairs()[..6] == RoomChairs(Room1) && LevelChairs()[6..12] == RoomChairs(Room2)
    ensures forall i :: 0 <= i < |Desks| ==> LevelChairs()[12 + i] == Point(Desks[i].x, Desks[i].y + 40)
    ensures |LevelWalls()| == 146
  {
    OuterWallsOnEdge(WorldWidth, WorldHeight);
    assert TileCount(WorldWidth) == 25 && TileCount(WorldHeight) == 19;
    RoomWallsRing(Room1);
    RoomWallsRing(Room2);
    assert TileCount(250) == 8 && TileCount(200) == 7;
    var cs := LevelChairs();
    assert cs[..6] == RoomChairs(Room1);
    assert cs[6..12] == RoomChairs(Room2);
  }

  /** The level's chairs and doors, written out. */
  lemma LevelPositions()
    ensures LevelChairs() == [
      Point(575, 170), Point(625, 170), Point(675, 170), Point(575, 230), Point(625, 230), Point(675, 230),
      Point(150, 420), Point(200, 420), Point(250, 420), Point(150, 480), Point(200, 480), Point(250, 480),
      Point(100, 140), Point(100, 240), Point(250, 140), Point(250, 240),
      Point(400, 440), Point(500, 440), Point(600, 440)]
    ensures LevelDoors() == [Point(609, 268), Point(184, 518)]
  {
    assert OfficeChairs() == [Point(100, 140), Point(100, 240), Point(250, 140), Point(250, 240),
      Point(400, 440), Point(500, 440), Point(600, 440)];
  }
}
