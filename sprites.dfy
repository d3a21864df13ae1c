/** Texture names and the player's walk animations (js/game.js:414-463).
    Textures are referred to by name only; their bitmaps are not modelled. */
module Sprites {

  /** The player's facing, `playerDirection` in the game. */
  datatype Direction = Up | Down | Left | Right

  function Name(d: Direction): string
  {
    match d
    case Up => "up"
    case Down => "down"
    case Left => "left"
    case Right => "right"
  }

  /** The static texture for a facing: `player-${playerDirection}`. */
  function PlayerTexture(d: Direction): string
  {
    "player-" + Name(d)
  }

  const PlayerSitting: string := "player-sitting"
  const DoorOpen: string := "door_open"
  const DoorClosed: string := "door_closed"

  /** The key of the walk clip for a facing. */
  function WalkKey(d: Direction): string
  {
    "walk-" + Name(d)
  }

  /** One animation frame: a texture drawn with a pixel offset. */
  datatype Frame = Frame(key: string, dx: int, dy: int)

  /** An animation clip; `repeat == -1` loops for ever. */
  datatype Clip = Clip(key: string, frames: seq<Frame>, frameRate: int, repeat: int)

  predicate Vertical(d: Direction)
  {
    d == Up || d == Down
  }

  /** The bob offset of the frame at position `k` of a cycle. */
  function Bob(k: nat): int
  {
    if k % 4 == 1 then 2 else if k % 4 == 3 then -2 else 0
  }

  /** The clip `createPlayerAnimations` registers for a facing. */
  function WalkClip(d: Direction): (c: Clip)
    ensures c.key == WalkKey(d) && |c.frames| == 4 && c.frameRate == 8 && c.repeat == -1
  {
    var base := PlayerTexture(d);
    var frames :=
      if Vertical(d) then
        [Frame(base, 0, 0), Frame(base, 0, 2), Frame(base, 0, 0), Frame(base, 0, -2)]
      else
        [Frame(base, 0, 0), Frame(base, 2, 0), Frame(base, 0, 0), Frame(base, -2, 0)];
    Clip(WalkKey(d), frames, 8, -1)
  }

  /** All clips, in the order the game creates them. */
  function PlayerAnimations(): (cs: seq<Clip>)
    ensures |cs| == 4
    ensures forall k :: 0 <= k < |cs| ==> cs[k].frameRate == 8 && cs[k].repeat == -1 && |cs[k].frames| == 4
  {
    [WalkClip(Down), WalkClip(Up), WalkClip(Left), WalkClip(Right)]
  }

  /** The four frames of each walk clip show its facing's static texture,
      offset by 0, +2, 0, -2 pixels along the axis of travel and
      not at all across it; the offsets cancel over one cycle. */
  lemma WalkClipShape(d: Direction)
    ensures var c := WalkClip(d);
      (forall k :: 0 <= k < 4 ==> c.frames[k].key == PlayerTexture(d)) &&
      (forall k :: 0 <= k < 4 ==>
         (if Vertical(d) then c.frames[k].dx == 0 && c.frames[k].dy == Bob(k)
          else c.frames[k].dy == 0 && c.frames[k].dx == Bob(k))) &&
      c.frames[0].dx + c.frames[1].dx + c.frames[2].dx + c.frames[3].dx == 0 &&
      c.frames[0].dy + c.frames[1].dy + c.frames[2].dy + c.frames[3].dy == 0
  {
    var c := WalkClip(d);
    forall k | 0 <= k < 4
      ensures if Vertical(d) then c.frames[k].dx == 0 && c.frames[k].dy == Bob(k)
              else c.frames[k].dy == 0 && c.frames[k].dx == Bob(k)
    {
      assert k == 0 || k == 1 || k == 2 || k == 3;
    }
  }

  lemma NamesDiffer(d1: Direction, d2: Direction)
    requires d1 != d2
    ensures Name(d1) != Name(d2)
  {
    if |Name(d1)| == |Name(d2)| {
      assert Name(d1)[0] != Name(d2)[0];
    }
  }

  lemma PrefixedDiffer(p: string, a: string, b: string)
    requires a != b
    ensures p + a != p + b
  {
    assert (p + a)[|p|..] == a;
    assert (p + b)[|p|..] == b;
  }

  /** The idle textures tell the facings apart, and none of them is the
      sitting texture; the clip keys are distinct too. */
  lemma TexturesDistinct(d1: Direction, d2: Direction)
    ensures PlayerTexture(d1) != PlayerSitting
    ensures d1 != d2 ==> PlayerTexture(d1) != PlayerTexture(d2) && WalkKey(d1) != WalkKey(d2)
  {
    assert PlayerSitting == "player-" + "sitting";
    assert |Name(d1)| < |"sitting"|;
    PrefixedDiffer("player-", Name(d1), "sitting");
    if d1 != d2 {
      NamesDiffer(d1, d2);
      PrefixedDiffer("player-", Name(d1), Name(d2));
      PrefixedDiffer("walk-", Name(d1), Name(d2));
    }
  }

  /** The animation table holds exactly one clip per facing. */
  lemma OneClipPerDirection(d: Direction)
    ensures exists k :: 0 <= k < |PlayerAnimations()| && PlayerAnimations()[k] == WalkClip(d)
    ensures forall k :: 0 <= k < |PlayerAnimations()| && PlayerAnimations()[k].key == WalkKey(d) ==>
      PlayerAnimations()[k] == WalkClip(d)
  {
    var clips := PlayerAnimations();
    var k := match d case Down => 0 case Up => 1 case Left => 2 case Right => 3;
    assert clips[k] == WalkClip(d);
    forall j | 0 <= j < |clips| && clips[j].key == WalkKey(d)
      ensures clips[j] == WalkClip(d)
    {
      var e := match j case 0 => Down case 1 => Up case 2 => Left case _ => Right;
      assert clips[j] == WalkClip(e);
      if e != d {
        TexturesDistinct(e, d);
      }
    }
  }
}
