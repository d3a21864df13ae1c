/** What the interaction rules mean for the level `create()` builds: its
    chairs are far enough apart that the all-matches chair scan of
    `update()` always settles on the first chair in reach, its two doors
    are never both in reach, and a few concrete positions. */
module Scenario {
  import opened Geometry
  import opened Layout
  import opened Rules

  /** At least the interaction radius apart along one axis. */
  predicate Apart(a: Point, b: Point)
  {
    a.x - b.x >= InteractRadius || b.x - a.x >= InteractRadius ||
    a.y - b.y >= InteractRadius || b.y - a.y >= InteractRadius
  }

  lemma ApartNotNear(a: Point, b: Point)
    ensures Apart(a, b) ==> !Near(a, b)
  {
    if Near(a, b) {
      NearWithinBox(a, b);
    }
  }

  /** From the seat of each chair of one list no chair of the other is in
      reach, and the other way round, by a margin along one axis. */
  predicate SeatsApart(xs: seq<Point>, ys: seq<Point>)
  {
    forall i, j :: 0 <= i < |xs| && 0 <= j < |ys| ==> Apart(Seat(xs[i]), ys[j]) && Apart(Seat(ys[j]), xs[i])
  }

  lemma SpreadConcat(xs: seq<Point>, ys: seq<Point>)
    requires Spread(xs) && Spread(ys) && SeatsApart(xs, ys)
    ensures Spread(xs + ys)
  {
    var zs := xs + ys;
    forall i, j | 0 <= i < |zs| && 0 <= j < |zs| && i != j
      ensures !Near(Seat(zs[i]), zs[j])
    {
      if i < |xs| && j >= |xs| {
        ApartNotNear(Seat(xs[i]), ys[j - |xs|]);
      } else if i >= |xs| && j < |xs| {
        ApartNotNear(Seat(ys[i - |xs|]), xs[j]);
      } else if i < |xs| {
        assert zs[i] == xs[i] && zs[j] == xs[j];
      } else {
        assert zs[i] == ys[i - |xs|] && zs[j] == ys[j - |xs|];
      }
    }
  }

  lemma SeatsApartConcat(xs: seq<Point>, ys: seq<Point>, zs: seq<Point>)
    requires SeatsApart(xs, zs) && SeatsApart(ys, zs)
    ensures SeatsApart(xs + ys, zs)
  {
    var ws := xs + ys;
    forall i, j | 0 <= i < |ws| && 0 <= j < |zs|
      ensures Apart(Seat(ws[i]), zs[j]) && Apart(Seat(zs[j]), ws[i])
    {
      if i < |xs| {
        assert ws[i] == xs[i];
      } else {
        assert ws[i] == ys[i - |xs|];
      }
    }
  }

  /** An axis-aligned box of chair centres, bounds included. */
  datatype Box = Box(x0: int, x1: int, y0: int, y1: int)

  predicate InBox(cs: seq<Point>, b: Box)
  {
    forall i :: 0 <= i < |cs| ==> b.x0 <= cs[i].x <= b.x1 && b.y0 <= cs[i].y <= b.y1
  }

  /** Boxes separated by the radius across, or by the radius and the
      10-pixel seat offset down, hold chairs whose seats are apart. */
  lemma BoxesSeatsApart(xs: seq<Point>, ys: seq<Point>, p: Box, q: Box)
    requires InBox(xs, p) && InBox(ys, q)
    requires p.x1 + InteractRadius <= q.x0 || q.x1 + InteractRadius <= p.x0 ||
      p.y1 + InteractRadius + 10 <= q.y0 || q.y1 + InteractRadius + 10 <= p.y0
    ensures SeatsApart(xs, ys)
  {
  }

  /** The six chairs of any meeting room are spread: chairs in different
      columns are 50 pixels apart across, and from a seat the chair of the
      other row in the same column is 50 or 70 pixels away. */
  lemma RoomChairsSpread(r: Rect)
    requires EvenSized(r)
    ensures Spread(RoomChairs(r))
  {
    var cs := RoomChairs(r);
    RoomChairsRows(r);
    forall i, j | 0 <= i < |cs| && 0 <= j < |cs| && i != j
      ensures !Near(Seat(cs[i]), cs[j])
    {
      ApartNotNear(Seat(cs[i]), cs[j]);
      if i % 3 == j % 3 {
        assert (i < 3) != (j < 3);
      }
    }
  }

  /** The room's chairs lie within 50 pixels across and 30 pixels down of
      its centre. */
  lemma RoomChairsBox(r: Rect)
    requires EvenSized(r)
    ensures InBox(RoomChairs(r), Box(Center(r).x - 50, Center(r).x + 50, Center(r).y - 30, Center(r).y + 30))
  {
    RoomChairsRows(r);
  }

  /** The four chairs at the left desks and the three at the lower desks. */
  lemma OfficeChairGroups()
    ensures OfficeChairs() == OfficeChairs()[..4] + OfficeChairs()[4..]
    ensures OfficeChairs()[..4] == [Point(100, 140), Point(100, 240), Point(250, 140), Point(250, 240)]
    ensures OfficeChairs()[4..] == [Point(400, 440), Point(500, 440), Point(600, 440)]
  {
    assert OfficeChairs() == [Point(100, 140), Point(100, 240), Point(250, 140), Point(250, 240),
      Point(400, 440), Point(500, 440), Point(600, 440)];
  }

  lemma LeftDesksSpread(cs: seq<Point>)
    requires cs == [Point(100, 140), Point(100, 240), Point(250, 140), Point(250, 240)]
    ensures Spread(cs) && InBox(cs, Box(100, 250, 140, 240))
  {
    forall i, j | 0 <= i < |cs| && 0 <= j < |cs| && i != j
      ensures !Near(Seat(cs[i]), cs[j])
    {
      ApartNotNear(Seat(cs[i]), cs[j]);
    }
  }

  lemma LowerDesksSpread(cs: seq<Point>)
    requires cs == [Point(400, 440), Point(500, 440), Point(600, 440)]
    ensures Spread(cs) && InBox(cs, Box(400, 600, 440, 440))
  {
    forall i, j | 0 <= i < |cs| && 0 <= j < |cs| && i != j
      ensures !Near(Seat(cs[i]), cs[j])
    {
      ApartNotNear(Seat(cs[i]), cs[j]);
    }
  }

  /** No seat of the level has another chair of the level in reach. */
  lemma LevelChairsSpread()
    ensures Spread(LevelChairs())
  {
    var r1, r2 := RoomChairs(Room1), RoomChairs(Room2);
    OfficeChairGroups();
    var a, b := OfficeChairs()[..4], OfficeChairs()[4..];
    RoomChairsSpread(Room1);
    RoomChairsSpread(Room2);
    LeftDesksSpread(a);
    LowerDesksSpread(b);
    RoomChairsBox(Room1);
    RoomChairsBox(Room2);
    var b1, b2 := Box(575, 675, 170, 230), Box(150, 250, 420, 480);
    var ba, bb := Box(100, 250, 140, 240), Box(400, 600, 440, 440);
    BoxesSeatsApart(r1, r2, b1, b2);
    BoxesSeatsApart(r1, a, b1, ba);
    BoxesSeatsApart(r2, a, b2, ba);
    BoxesSeatsApart(r1, b, b1, bb);
    BoxesSeatsApart(r2, b, b2, bb);
    BoxesSeatsApart(a, b, ba, bb);
    SpreadConcat(r1, r2);
    SeatsApartConcat(r1, r2, a);
    SpreadConcat(r1 + r2, a);
    SeatsApartConcat(r1, r2, b);
    SeatsApartConcat(r1 + r2, a, b);
    SpreadConcat(r1 + r2 + a, b);
    assert LevelChairs() == r1 + r2 + a + b;
  }

  /** In the level, a space press sits the player on the first chair in
      list order that is in reach, although the scan examines every chair. */
  lemma LevelSitsOnFirstChairInReach(w: World, f: nat)
    requires w.chairs == LevelChairs() && !w.player.sitting
    requires f < |w.chairs| && Near(w.player.Pos(), w.chairs[f])
    requires forall j :: 0 <= j < f ==> !Near(w.player.Pos(), w.chairs[j])
    ensures Interact(w, true) == w.(player := SitOnChair(w.player, f, w.chairs[f]))
  {
    LevelChairsSpread();
    FirstChairWinsWhenSpread(w.player, w.chairs, f);
  }

  /** The two doors of the level are never both within reach, so a space
      press toggles at most one of them. */
  lemma LevelDoorsNeverBothInReach(pos: Point)
    ensures !(Near(pos, LevelDoors()[0]) && Near(pos, LevelDoors()[1]))
  {
    LevelPositions();
    if Near(pos, LevelDoors()[0]) && Near(pos, LevelDoors()[1]) {
      NearWithinBox(pos, LevelDoors()[0]);
      NearWithinBox(pos, LevelDoors()[1]);
      assert false;
    }
  }

  /** Standing at (617, 249), between the first meeting room's door and
      the middle chair of its lower row, both are in reach; a space press
      sits the player on that chair, at (625, 220), and leaves every door
      as it was. */
  lemma ChairWinsOverRoomDoor(w: World)
    requires w.chairs == LevelChairs() && !w.player.sitting && w.player.Pos() == Point(617, 249)
    ensures Near(w.player.Pos(), LevelDoors()[0])
    ensures var r := Interact(w, true);
      r.doors == w.doors && r.player.sitting && r.player.currentChair == Some(4) &&
      r.player.Pos() == Point(625, 220)
  {
    FirstInReachAt617(w.player.Pos(), w.chairs);
    LevelSitsOnFirstChairInReach(w, 4);
    var seated := SitOnChair(w.player, 4, w.chairs[4]);
    assert Interact(w, true) == w.(player := seated);
    assert seated.Pos() == Seat(Point(625, 230));
  }

  /** Seen from (617, 249), the first of the level's chairs in reach is
      chair 4 at (625, 230), and the first room's door is in reach too. */
  lemma FirstInReachAt617(p: Point, cs: seq<Point>)
    requires p == Point(617, 249) && cs == LevelChairs()
    ensures |cs| == 19 && cs[4] == Point(625, 230)
    ensures Near(p, cs[4]) && forall j :: 0 <= j < 4 ==> !Near(p, cs[j])
    ensures Near(p, LevelDoors()[0])
  {
    LevelPositions();
    forall j | 0 <= j < 4
      ensures !Near(p, cs[j])
    {
      ApartNotNear(p, cs[j]);
      assert j == 0 || j == 1 || j == 2 || j == 3;
    }
  }

  /** At the spawn point (400, 300) nothing is in reach: a space press
      right after `create()` changes nothing. */
  lemma NothingInReachAtSpawn(w: World)
    requires w.chairs == LevelChairs() && !w.player.sitting && w.player.Pos() == Point(400, 300)
    requires |w.doors| == 2 && w.doors[0].Pos() == LevelDoors()[0] && w.doors[1].Pos() == LevelDoors()[1]
    ensures Interact(w, true) == w
  {
    LevelPositions();
    var p := w.player.Pos();
    forall j | 0 <= j < |w.chairs|
      ensures DistSq(p, w.chairs[j]) >= InteractRadius * InteractRadius
    {
      // Every chair is more than 40 pixels away along one axis.
      ApartNotNear(p, w.chairs[j]);
      assert Apart(p, w.chairs[j]);
    }
    ApartNotNear(p, w.doors[0].Pos());
    ApartNotNear(p, w.doors[1].Pos());
    NothingInReach(w);
  }

  /** Standing at (609, 300), 32 pixels below the corner of the first
      meeting room's door, no chair is in reach and only that door is: a
      space press toggles it and leaves the player and the other door as
      they were. */
  lemma DoorOnlyBelowRoomDoor(w: World)
    requires w.chairs == LevelChairs() && !w.player.sitting && w.player.Pos() == Point(609, 300)
    requires |w.doors| == 2 && w.doors[0].Pos() == LevelDoors()[0] && w.doors[1].Pos() == LevelDoors()[1]
    ensures Interact(w, true) == w.(doors := [ToggleDoor(w.doors[0]), w.doors[1]])
  {
    LevelPositions();
    var p := w.player.Pos();
    forall j | 0 <= j < |w.chairs|
      ensures !Near(p, w.chairs[j])
    {
      ApartNotNear(p, w.chairs[j]);
      assert Apart(p, w.chairs[j]);
    }
    assert Near(p, w.doors[0].Pos());
    ApartNotNear(p, w.doors[1].Pos());
    DoorsWhenNoChair(w);
    var r := Interact(w, true);
    assert r.doors == [ToggleDoor(w.doors[0]), w.doors[1]];
  }
}
