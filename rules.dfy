/** What one call of `update()` (js/game.js:87-156) does to the player and
    the doors, as pure functions over values. The class `Game.Scene` runs
    the same steps imperatively and is proved to agree with `Step`. */
module Rules {
  import opened Geometry
  import opened Sprites

  datatype Option<T> = None | Some(value: T)

  /** Walking speed in pixels per second. */
  const Speed: int := 160

  const DefaultHelp: string := "Use arrow keys to move. Press SPACE to interact with doors and chairs."
  const SittingHelp: string := "Press SPACE to stand up"

  /** The keys read in one tick: the four arrow keys held down, and
      whether space went down since the previous tick (`JustDown`). */
  datatype Input = Input(left: bool, right: bool, up: bool, down: bool, spaceJustDown: bool)

  /** The player sprite and the game's global player variables.
      `texture` is the texture last set explicitly; `walk` is the walk clip
      being played, `None` once the animation is stopped. `currentChair`
      is the index of the occupied chair in the chair list. */
  datatype Player = Player(
    x: int, y: int, vx: int, vy: int,
    direction: Direction, texture: string, walk: Option<Direction>,
    sitting: bool, currentChair: Option<nat>, helpText: string)
  {
    function Pos(): Point { Point(x, y) }
  }

  /** A door image: its top-left corner, `isOpen`, its texture and whether
      its physics body takes part in collisions (`body.enable`). */
  datatype DoorState = DoorState(x: int, y: int, isOpen: bool, texture: string, bodyEnabled: bool)
  {
    function Pos(): Point { Point(x, y) }

    /** An open door shows `door_open` and has its body disabled; a closed
        door shows `door_closed` and has its body enabled. */
    predicate Consistent()
    {
      bodyEnabled == !isOpen && texture == (if isOpen then DoorOpen else DoorClosed)
    }
  }

  /** A door as `createMeetingRoom` makes it: closed, with an enabled body. */
  function NewDoor(p: Point): (d: DoorState)
    ensures d.Consistent() && !d.isOpen && d.Pos() == p
  {
    DoorState(p.x, p.y, false, DoorClosed, true)
  }

  /** Everything `update()` reads or writes. Chairs never change. */
  datatype World = World(player: Player, chairs: seq<Point>, doors: seq<DoorState>)

  /** The velocity of a walk in a direction. */
  function Velocity(d: Direction): (v: (int, int))
    ensures (v.0 == 0) != (v.1 == 0)
    ensures v.0 * v.0 + v.1 * v.1 == Speed * Speed
    ensures Vertical(d) <==> v.0 == 0
  {
    match d
    case Left => (-Speed, 0)
    case Right => (Speed, 0)
    case Up => (0, -Speed)
    case Down => (0, Speed)
  }

  /** The direction the held arrow keys select: left, then right, then up,
      then down; the first held key wins. */
  function Held(inp: Input): (r: Option<Direction>)
    ensures r == Some(Left) <==> inp.left
    ensures r == Some(Right) <==> !inp.left && inp.right
    ensures r == Some(Up) <==> !inp.left && !inp.right && inp.up
    ensures r == Some(Down) <==> !inp.left && !inp.right && !inp.up && inp.down
    ensures r == None <==> !inp.left && !inp.right && !inp.up && !inp.down
  {
    if inp.left then Some(Left)
    else if inp.right then Some(Right)
    else if inp.up then Some(Up)
    else if inp.down then Some(Down)
    else None
  }

  /** The movement half of `update()` (js/game.js:88-129). */
  function Movement(p: Player, inp: Input): (r: Player)
    ensures r.x == p.x && r.y == p.y && r.sitting == p.sitting
    ensures r.currentChair == p.currentChair && r.helpText == p.helpText
    ensures r.vx == 0 || r.vy == 0
    ensures p.sitting ==> r.vx == 0 && r.vy == 0 && r.texture == PlayerSitting
    ensures !p.sitting ==> (r.walk.Some? <==> Held(inp).Some?)
  {
    if p.sitting then
      p.(vx := 0, vy := 0, texture := PlayerSitting)
    else
      match Held(inp)
      case Some(d) => p.(vx := Velocity(d).0, vy := Velocity(d).1, walk := Some(d), direction := d)
      case None => p.(vx := 0, vy := 0, walk := None, texture := PlayerTexture(p.direction))
  }

  /** Where `sitOnChair` puts the player for a chair. */
  function Seat(c: Point): (s: Point)
    ensures s.x == c.x && s.y < c.y && Near(s, c)
  {
    Point(c.x, c.y - 10)
  }

  /** `sitOnChair` (js/game.js:568-574) for the chair at index `i`: the
      player sits at the chair's seat with the sitting help text, and keeps
      its velocity, facing, texture and walk clip. */
  function SitOnChair(p: Player, i: nat, c: Point): (r: Player)
    ensures r.sitting && r.currentChair == Some(i) && r.Pos() == Seat(c) && r.helpText == SittingHelp
    ensures r.(x := p.x, y := p.y, sitting := p.sitting, currentChair := p.currentChair, helpText := p.helpText) == p
  {
    p.(sitting := true, currentChair := Some(i), x := c.x, y := c.y - 10, helpText := SittingHelp)
  }

  /** `standUp` (js/game.js:576-581): the player stands 20 pixels further
      down with no chair and the default help text; nothing else changes. */
  function StandUp(p: Player): (r: Player)
    ensures !r.sitting && r.currentChair == None && r.Pos() == Point(p.x, p.y + 20) && r.helpText == DefaultHelp
    ensures r.(y := p.y, sitting := p.sitting, currentChair := p.currentChair, helpText := p.helpText) == p
  {
    p.(sitting := false, currentChair := None, y := p.y + 20, helpText := DefaultHelp)
  }

  /** `toggleDoor` (js/game.js:583-592). */
  function ToggleDoor(d: DoorState): (r: DoorState)
    ensures r.isOpen == !d.isOpen && r.Pos() == d.Pos()
    ensures r.Consistent()
  {
    var open := !d.isOpen;
    d.(isOpen := open, texture := if open then DoorOpen else DoorClosed, bodyEnabled := !open)
  }

  /** The state of the chair scan of `update()` (js/game.js:138-144). */
  datatype Scan = Scan(player: Player, found: bool)

  /** The chair scan after its first `k` chairs. Every chair within reach
      of the player's position at the time it is examined is sat on, and
      sitting moves the player, so later chairs are measured from the
      chair last sat on. */
  function ScanChairs(p: Player, chairs: seq<Point>, k: nat): (s: Scan)
    requires k <= |chairs|
    ensures s.found <==> exists j :: 0 <= j < k && Near(p.Pos(), chairs[j])
    ensures !s.found ==> s.player == p
    ensures s.found ==> (s.player.currentChair.Some? && s.player.currentChair.value < k &&
      s.player == SitOnChair(p, s.player.currentChair.value, chairs[s.player.currentChair.value]))
    ensures s.found ==> (s.player.Pos() == Seat(chairs[s.player.currentChair.value]) &&
      forall j :: s.player.currentChair.value < j < k ==> !Near(Seat(chairs[s.player.currentChair.value]), chairs[j]))
    ensures s.found ==> (Near(p.Pos(), chairs[s.player.currentChair.value]) ||
      exists u :: 0 <= u < s.player.currentChair.value && Near(Seat(chairs[u]), chairs[s.player.currentChair.value]))
    decreases k
  {
    if k == 0 then Scan(p, false)
    else
      var s := ScanChairs(p, chairs, k - 1);
      if Near(s.player.Pos(), chairs[k - 1]) then Scan(SitOnChair(s.player, k - 1, chairs[k - 1]), true)
      else s
  }

  /** One door of the door scan: toggled when its corner is in reach. */
  function ToggleIfNear(pos: Point, d: DoorState): (r: DoorState)
    ensures r.Pos() == d.Pos()
    ensures r.isOpen != d.isOpen <==> Near(pos, d.Pos())
    ensures d.Consistent() ==> r.Consistent()
  {
    if Near(pos, d.Pos()) then ToggleDoor(d) else d
  }

  /** The door scan of `update()` (js/game.js:147-153): every door whose
      top-left corner is within reach is toggled. */
  function ScanDoors(pos: Point, ds: seq<DoorState>): (r: seq<DoorState>)
    ensures |r| == |ds|
    ensures forall i :: 0 <= i < |ds| ==> r[i].Pos() == ds[i].Pos()
    ensures forall i :: 0 <= i < |ds| ==> (r[i].isOpen != ds[i].isOpen <==> Near(pos, ds[i].Pos()))
    ensures forall i :: 0 <= i < |ds| ==> ds[i].Consistent() ==> r[i].Consistent()
  {
    seq(|ds|, i requires 0 <= i < |ds| => ToggleIfNear(pos, ds[i]))
  }

  /** The interaction half of `update()` (js/game.js:131-155). It never
      changes the chairs or the number of doors, does nothing without a
      space press, and changes the player or the doors but never both. */
  function Interact(w: World, space: bool): (r: World)
    ensures r.chairs == w.chairs && |r.doors| == |w.doors|
    ensures !space ==> r == w
    ensures r.player == w.player || r.doors == w.doors
  {
    if !space then w
    else if w.player.sitting then w.(player := StandUp(w.player))
    else
      var s := ScanChairs(w.player, w.chairs, |w.chairs|);
      if s.found then w.(player := s.player)
      else w.(doors := ScanDoors(w.player.Pos(), w.doors))
  }

  /** One call of `update()`. The player's position changes only when the
      player sits down or stands up. */
  function Step(w: World, inp: Input): (r: World)
    ensures r.chairs == w.chairs && |r.doors| == |w.doors|
    ensures r.player.Pos() == w.player.Pos() || r.player.sitting != w.player.sitting
  {
    Interact(w.(player := Movement(w.player, inp)), inp.spaceJustDown)
  }

  // ---------------------------------------------------------------------
  // Movement

  /** While sitting the arrow keys are ignored: the player is held still,
      shows the sitting texture, keeps its facing and its walk clip. */
  lemma SittingIgnoresArrows(p: Player, a: Input, b: Input)
    requires p.sitting
    ensures Movement(p, a) == Movement(p, b)
    ensures var r := Movement(p, a);
      r.vx == 0 && r.vy == 0 && r.texture == PlayerSitting &&
      r.direction == p.direction && r.walk == p.walk && r.Pos() == p.Pos()
  {
  }

  /** Standing, the first held key of left, right, up, down decides the
      walk: that axis gets the speed, the other axis 0, and the facing and
      walk clip follow it; the texture is left to the clip. */
  lemma MovementPriority(p: Player, inp: Input)
    requires !p.sitting
    ensures var r := Movement(p, inp);
      (inp.left ==> r.vx == -Speed && r.vy == 0 && r.direction == Left) &&
      (!inp.left && inp.right ==> r.vx == Speed && r.vy == 0 && r.direction == Right) &&
      (!inp.left && !inp.right && inp.up ==> r.vx == 0 && r.vy == -Speed && r.direction == Up) &&
      (!inp.left && !inp.right && !inp.up && inp.down ==> r.vx == 0 && r.vy == Speed && r.direction == Down) &&
      (Held(inp).Some? ==> r.walk == Some(r.direction) && r.texture == p.texture)
  {
  }

  /** Left wins over every other key, so holding left and up together
      walks left only. */
  lemma LeftThenUpWalksLeft(p: Player, inp: Input)
    requires !p.sitting && inp.left && inp.up
    ensures Movement(p, inp) == Movement(p, Input(true, false, false, false, inp.spaceJustDown))
    ensures Movement(p, inp).vy == 0
  {
  }

  /** Standing with no arrow key held: the player stops, the walk clip is
      stopped and the static texture of the last facing is shown. */
  lemma IdleShowsFacing(p: Player, inp: Input)
    requires !p.sitting && !inp.left && !inp.right && !inp.up && !inp.down
    ensures var r := Movement(p, inp);
      r.vx == 0 && r.vy == 0 && r.walk == None && r.direction == p.direction &&
      r.texture == PlayerTexture(p.direction)
  {
  }

  // ---------------------------------------------------------------------
  // Doors, sitting and standing

  /** Toggling a consistent door twice restores it exactly. */
  lemma ToggleTwice(d: DoorState)
    requires d.Consistent()
    ensures ToggleDoor(ToggleDoor(d)) == d
  {
  }

  /** Sitting on a chair and then standing up leaves the player at the
      chair's x, 10 pixels below its centre, with the default help text. */
  lemma SitThenStand(p: Player, i: nat, c: Point)
    ensures var r := StandUp(SitOnChair(p, i, c));
      !r.sitting && r.currentChair == None && r.x == c.x && r.y == c.y + 10 &&
      r.helpText == DefaultHelp && r.vx == p.vx && r.vy == p.vy && r.direction == p.direction
  {
  }

  // ---------------------------------------------------------------------
  // Interaction

  /** Without a space press nothing but movement happens. */
  lemma NoSpaceNoInteraction(w: World)
    ensures Interact(w, false) == w
  {
  }

  /** Sitting, a space press only stands the player up; no chair or door
      is looked at. */
  lemma SpaceWhileSittingStandsUp(w: World)
    requires w.player.sitting
    ensures Interact(w, true) == World(StandUp(w.player), w.chairs, w.doors)
  {
  }

  /** Standing, a space press sits down exactly when some chair is within
      reach of where the player stands; then no door is toggled. */
  lemma ChairBeforeDoor(w: World)
    requires !w.player.sitting
    requires exists j :: 0 <= j < |w.chairs| && Near(w.player.Pos(), w.chairs[j])
    ensures var r := Interact(w, true);
      r.doors == w.doors && r.chairs == w.chairs && r.player.sitting &&
      r.player.currentChair.Some? && r.player.currentChair.value < |w.chairs| &&
      r.player.Pos() == Seat(w.chairs[r.player.currentChair.value]) &&
      r.player.helpText == SittingHelp &&
      (Near(w.player.Pos(), w.chairs[r.player.currentChair.value]) ||
       exists u :: 0 <= u < r.player.currentChair.value && Near(Seat(w.chairs[u]), w.chairs[r.player.currentChair.value]))
  {
  }

  /** Standing with no chair in reach, a space press toggles exactly the
      doors in reach and leaves the player where it is. */
  lemma DoorsWhenNoChair(w: World)
    requires !w.player.sitting
    requires forall j :: 0 <= j < |w.chairs| ==> !Near(w.player.Pos(), w.chairs[j])
    ensures var r := Interact(w, true);
      r.player == w.player && r.chairs == w.chairs && |r.doors| == |w.doors| &&
      forall i :: 0 <= i < |w.doors| ==>
        r.doors[i] == (if Near(w.player.Pos(), w.doors[i].Pos()) then ToggleDoor(w.doors[i]) else w.doors[i])
  {
  }

  /** Out of reach of every chair and every door, a space press changes
      nothing: for instance exactly 41 pixels from each. */
  lemma NothingInReach(w: World)
    requires !w.player.sitting
    requires forall j :: 0 <= j < |w.chairs| ==> DistSq(w.player.Pos(), w.chairs[j]) >= InteractRadius * InteractRadius
    requires forall i :: 0 <= i < |w.doors| ==> DistSq(w.player.Pos(), w.doors[i].Pos()) >= InteractRadius * InteractRadius
    ensures Interact(w, true) == w
  {
    var r := ScanDoors(w.player.Pos(), w.doors);
    assert r == w.doors;
  }

  /** Doors that start consistent stay consistent through any tick. */
  lemma StepKeepsDoorsConsistent(w: World, inp: Input)
    requires forall i :: 0 <= i < |w.doors| ==> w.doors[i].Consistent()
    ensures |Step(w, inp).doors| == |w.doors|
    ensures forall i :: 0 <= i < |w.doors| ==> Step(w, inp).doors[i].Consistent()
    ensures Step(w, inp).chairs == w.chairs
  {
  }

  /** The player sits exactly when it holds a chair, and that chair is in
      the chair list: so at most one chair is occupied, the one the player
      refers to. */
  predicate Seated(w: World)
  {
    (w.player.sitting <==> w.player.currentChair.Some?) &&
    (w.player.currentChair.Some? ==> w.player.currentChair.value < |w.chairs|)
  }

  /** `sitOnChair` sets `isSitting` and `currentChair` together and
      `standUp` clears them together, so every tick keeps them in step. */
  lemma StepKeepsSeated(w: World, inp: Input)
    requires Seated(w)
    ensures Seated(Step(w, inp))
  {
  }

  /** A player who is sitting when a tick starts is still after it. */
  lemma StillWhileSitting(w: World, inp: Input)
    requires w.player.sitting
    ensures var r := Step(w, inp).player;
      r.vx == 0 && r.vy == 0 && r.texture == PlayerSitting
  {
  }

  /** A player who sits down during a tick keeps the velocity the movement
      half just gave it: `sitOnChair` does not stop the player, so walking
      into a chair's reach and pressing space leaves it sitting with speed
      160 along the walk. Only the next tick's sitting branch stops it. */
  lemma SittingDownKeepsVelocity(w: World, inp: Input)
    requires !w.player.sitting && inp.spaceJustDown && Held(inp).Some?
    requires exists j :: 0 <= j < |w.chairs| && Near(w.player.Pos(), w.chairs[j])
    ensures var r := Step(w, inp).player;
      r.sitting && r.vx == Velocity(Held(inp).value).0 && r.vy == Velocity(Held(inp).value).1 &&
      (r.vx != 0 || r.vy != 0)
  {
    var m := Movement(w.player, inp);
    assert m.Pos() == w.player.Pos();
    var s := ScanChairs(m, w.chairs, |w.chairs|);
    assert s.found;
  }

  // ---------------------------------------------------------------------
  // Which chair the scan ends on

  /** The chair the scan ends on passed the `< 40` test measured from
      where the scan stood when it reached that chair. */
  lemma {:induction false} ScanEndsOnChairInReach(p: Player, chairs: seq<Point>, k: nat)
    requires k <= |chairs|
    ensures var s := ScanChairs(p, chairs, k);
      s.found ==> Near(ScanChairs(p, chairs, s.player.currentChair.value).player.Pos(), chairs[s.player.currentChair.value])
    decreases k
  {
    if k > 0 {
      var s := ScanChairs(p, chairs, k - 1);
      if !Near(s.player.Pos(), chairs[k - 1]) {
        ScanEndsOnChairInReach(p, chairs, k - 1);
      }
    }
  }

  /** From the seat of any chair no other chair is within reach. */
  predicate Spread(chairs: seq<Point>)
  {
    forall i, j :: 0 <= i < |chairs| && 0 <= j < |chairs| && i != j ==> !Near(Seat(chairs[i]), chairs[j])
  }

  /** In the scan's first `k` chairs: nothing sat on before the first chair
      in reach `f`, and chair `f` kept from then on when chairs are spread. */
  lemma {:induction false} ScanPrefix(p: Player, chairs: seq<Point>, f: nat, k: nat)
    requires Spread(chairs) && f < |chairs| && k <= |chairs|
    requires Near(p.Pos(), chairs[f]) && forall j :: 0 <= j < f ==> !Near(p.Pos(), chairs[j])
    ensures k <= f ==> ScanChairs(p, chairs, k) == Scan(p, false)
    ensures k > f ==> ScanChairs(p, chairs, k) == Scan(SitOnChair(p, f, chairs[f]), true)
    decreases k
  {
    if k > 0 {
      ScanPrefix(p, chairs, f, k - 1);
      var s := ScanChairs(p, chairs, k - 1);
      if k - 1 < f {
        assert s.player == p && !Near(p.Pos(), chairs[k - 1]);
      } else if k - 1 == f {
        assert s.player == p;
      } else {
        assert s.player.Pos() == Seat(chairs[f]);
        assert !Near(Seat(chairs[f]), chairs[k - 1]);
      }
    }
  }

  /** When chairs are spread, the all-matches scan settles on the first
      chair in reach, in list order. */
  lemma FirstChairWinsWhenSpread(p: Player, chairs: seq<Point>, f: nat)
    requires Spread(chairs) && f < |chairs|
    requires Near(p.Pos(), chairs[f]) && forall j :: 0 <= j < f ==> !Near(p.Pos(), chairs[j])
    ensures ScanChairs(p, chairs, |chairs|).player == SitOnChair(p, f, chairs[f])
  {
    ScanPrefix(p, chairs, f, |chairs|);
  }

  /** The scan does not stop at the first chair in reach: when the seat
      of that chair is within reach of the next chair, the player ends on
      the next one (a chair at (0, -20) behind one at (0, 0), say). */
  lemma LaterChairOverrides(p: Player, chairs: seq<Point>)
    requires |chairs| == 2
    requires Near(p.Pos(), chairs[0]) && Near(Seat(chairs[0]), chairs[1])
    ensures ScanChairs(p, chairs, 2).player == SitOnChair(SitOnChair(p, 0, chairs[0]), 1, chairs[1])
  {
    assert ScanChairs(p, chairs, 1) == Scan(SitOnChair(p, 0, chairs[0]), true);
  }
}
