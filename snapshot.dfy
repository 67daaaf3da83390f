/** The older snapshot of the game: the same player state machine, player
    object and obstacles, under a weaker jump and a higher terminal velocity,
    and its fixed first level of one stone and one three-box platform. */
module Snapshot {
  import opened Geometry
  import opened Player
  import opened Boy
  import opened Obstacles

  /** The snapshot's constants: a jump impulse of 25 and a speed cap of 20. */
  const Older := Physics(-25, 20)

  /** Under the snapshot's constants a tick caps the fall at 20 instead of 18
      and still never takes the player below the floor. */
  lemma OlderTick(c: Context, frameCount: nat)
    requires c.velocity.y <= 20
    ensures UpdateContext(Older, c, frameCount).velocity.y <= 20
    ensures c.velocity.y == 19 ==> UpdateContext(Older, c, frameCount).velocity.y == 20
    ensures c.velocity.y == 20 ==> UpdateContext(Older, c, frameCount).velocity.y == 20
    ensures UpdateContext(Older, c, frameCount).position.y <= Floor
  {
  }

  /** A jump in the snapshot gets the upward speed 25; nothing else in the
      context changes but the frame, which restarts. */
  lemma OlderJump(c: Context)
    ensures Transition(Older, Running(c), Jump) == Jumping(c.(frame := 0, velocity := Point(c.velocity.x, -25)))
  {
  }

  /** The two versions differ only in their constants: they agree on every
      event but a jump as long as the player falls slower than 18, and a jump
      in either is the same jump with another upward speed. */
  lemma VersionsAgree(s: State, e: Event)
    requires s.ctx.velocity.y < 18
    ensures !e.Jump? ==> Transition(Older, s, e) == Transition(Current, s, e)
    ensures s.Running? ==>
              Transition(Older, s, Jump) == Transition(Current, s, Jump).(ctx := Transition(Current, s, Jump).ctx.(velocity := Point(s.ctx.velocity.x, -25)))
  {
  }

  const FirstPlatform := 200
  const LowPlatform := 400

  /** The sprites of the snapshot's platform, left to right. */
  const PlatformSprites := ["13.png", "14.png", "15.png"]

  /** Its boxes relative to its position: two 60-wide ends of height 54 and a
      middle of the rest of the 384 pixels, of height 93. */
  const PlatformBoxes := [RectFrom(0, 0, 60, 54), RectFrom(60, 0, 384 - 60 * 2, 93), RectFrom(384 - 60, 0, 60, 54)]

  /** The snapshot's first level: a stone at (150, 546) and the platform at
      (FirstPlatform, LowPlatform). */
  function FirstLevel(sheet: Sheet, stoneWidth: int, stoneHeight: int): seq<Obstacle> {
    [Barrier(NewImage(Point(150, 546), stoneWidth, stoneHeight)),
     NewPlatform(sheet, Point(FirstPlatform, LowPlatform), PlatformSprites, PlatformBoxes)]
  }

  /** The platform's boxes are at x = 200, 260 and 524, all at y = 400, with
      widths 60, 264 and 60; its right edge is 584. */
  lemma FirstPlatformBoxes(sheet: Sheet)
    ensures var p := NewPlatform(sheet, Point(FirstPlatform, LowPlatform), PlatformSprites, PlatformBoxes);
            p.boundingBoxes == [RectFrom(200, 400, 60, 54), RectFrom(260, 400, 264, 93), RectFrom(524, 400, 60, 54)] &&
            ObstacleRight(p) == 584 &&
            ((forall i :: 0 <= i < 3 ==> PlatformSprites[i] in sheet) ==> |p.sprites| == 3)
  {
    var p := NewPlatform(sheet, Point(FirstPlatform, LowPlatform), PlatformSprites, PlatformBoxes);
    assert p.boundingBoxes[0] == RectFrom(200, 400, 60, 54);
    assert p.boundingBoxes[1] == RectFrom(260, 400, 264, 93);
    assert p.boundingBoxes[2] == RectFrom(524, 400, 60, 54);
  }

  /** The first level reaches as far right as the stone or the platform,
      whichever is further. */
  lemma FirstLevelRightmost(sheet: Sheet, stoneWidth: int, stoneHeight: int)
    ensures Rightmost(FirstLevel(sheet, stoneWidth, stoneHeight)) == Max(150 + stoneWidth, 584)
  {
    FirstPlatformBoxes(sheet);
    var level := FirstLevel(sheet, stoneWidth, stoneHeight);
    assert ObstacleRight(level[0]) == 150 + stoneWidth;
    assert ObstacleRight(level[1]) == 584;
  }

  /** A player coming down onto the snapshot's platform from above runs on
      it with its feet at y = 400, that is at y = 279. */
  lemma LandOnFirstPlatform(sheet: Sheet, s: State, i: nat)
    requires FrameName(s) in sheet && (s.Running? || s.Jumping?)
    requires i < 3
    requires var p := NewPlatform(sheet, Point(FirstPlatform, LowPlatform), PlatformSprites, PlatformBoxes);
             Intersects(PlayerBox(sheet, s), p.boundingBoxes[i]) &&
             forall j :: 0 <= j < i ==> !Intersects(PlayerBox(sheet, s), p.boundingBoxes[j])
    requires s.ctx.velocity.y > 0 && s.ctx.position.y < LowPlatform
    ensures var p := NewPlatform(sheet, Point(FirstPlatform, LowPlatform), PlatformSprites, PlatformBoxes);
            Collide(Older, sheet, p, s).Running? && Collide(Older, sheet, p, s).ctx.position.y == 279
  {
    var p := NewPlatform(sheet, Point(FirstPlatform, LowPlatform), PlatformSprites, PlatformBoxes);
    FirstPlatformBoxes(sheet);
    LandingOnPlatform(Older, sheet, p, s, i);
  }
}
