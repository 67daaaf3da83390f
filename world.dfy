/** `Walk`, the world of one game: the player, the scrolling backgrounds, the
    obstacles and the lookahead cursor ("timeline") that decides when the
    next segment of obstacles is generated. Its state as a value, the
    functions that specify one tick, and the class that holds it. */
module World {
  import opened Geometry
  import opened Player
  import opened Boy
  import opened Obstacles

  /** Below this lookahead the next segment is generated. */
  const TimelineMinimum := 1000
  /** Gap between the lookahead and the start of the next segment. */
  const ObstacleBuffer := 20

  /** The keys pressed during a tick; `KeyState::is_pressed(k)` is `k in keys`. */
  type KeyState = set<string>

  /** The segment templates `stone_and_platform` and `platform_and_stone`:
      each places its obstacles starting at the given x. The stone image and
      the obstacle sprite sheet they are built from are part of them. */
  datatype Segments = Segments(stoneAndPlatform: int -> seq<Obstacle>, platformAndStone: int -> seq<Obstacle>)

  /** A `Walk` as a value. */
  datatype WorldState = WorldState(boy: State, backgrounds: seq<Image>, obstacles: seq<Obstacle>, timeline: int)

  /** What every tick keeps: two backgrounds, a player within its frame budget
      and below terminal velocity, and a sheet with a cell for every frame. */
  ghost predicate WorldInv(k: Physics, sheet: Sheet, w: WorldState) {
    |w.backgrounds| == 2 && ValidPhysics(k) && SheetComplete(sheet) && Inv(k, w.boy)
  }

  /** `Walk::velocity`: the world scrolls left as fast as the player runs right. */
  function WalkingVelocity(s: State): int {
    -s.ctx.velocity.x
  }

  /** The obstacles of the next segment; the random choice is `choice`
      (`gen_range(0..2)` gives 0 or 1, any other value gives no obstacles). */
  function NextSegment(segments: Segments, timeline: int, choice: nat): seq<Obstacle> {
    if choice == 0 then segments.stoneAndPlatform(timeline + ObstacleBuffer)
    else if choice == 1 then segments.platformAndStone(timeline + ObstacleBuffer)
    else []
  }

  /** `Walk::generate_next_segment` on the value. */
  function WithNextSegment(w: WorldState, segments: Segments, choice: nat): WorldState {
    var next := NextSegment(segments, w.timeline, choice);
    w.(timeline := Rightmost(next), obstacles := w.obstacles + next)
  }

  /** Right after generating, the lookahead is the largest right edge among
      the obstacles just added (0 when none were), and the old obstacles are
      kept in front of them. */
  lemma GeneratedLookahead(w: WorldState, segments: Segments, choice: nat)
    ensures WithNextSegment(w, segments, choice).obstacles[..|w.obstacles|] == w.obstacles
    ensures var r := WithNextSegment(w, segments, choice);
            var added := r.obstacles[|w.obstacles|..];
            (added == [] ==> r.timeline == 0) &&
            (forall i :: 0 <= i < |added| ==> ObstacleRight(added[i]) <= r.timeline) &&
            (added != [] ==> exists i :: 0 <= i < |added| && r.timeline == ObstacleRight(added[i]))
  {
    var r := WithNextSegment(w, segments, choice);
    assert r.obstacles[|w.obstacles|..] == NextSegment(segments, w.timeline, choice);
  }

  /** Both backgrounds shift; one whose right edge passed 0 is put behind the
      other (the first background is checked first). */
  function ScrollBackgrounds(backgrounds: seq<Image>, speed: int): (r: seq<Image>)
    requires |backgrounds| == 2
    ensures |r| == 2
  {
    var first := ImageMoved(backgrounds[0], speed);
    var second := ImageMoved(backgrounds[1], speed);
    var first' := if ImageRight(first) < 0 then ImageSetX(first, ImageRight(second)) else first;
    var second' := if ImageRight(second) < 0 then ImageSetX(second, ImageRight(first')) else second;
    [first', second']
  }

  /** Two backgrounds of the same positive width, side by side in either
      order, neither of them entirely off the left edge. */
  predicate Contiguous(backgrounds: seq<Image>) {
    |backgrounds| == 2 &&
    var a := backgrounds[0].boundingBox;
    var b := backgrounds[1].boundingBox;
    a.width == b.width && a.width > 0 &&
    (b.position.x == Right(a) || a.position.x == Right(b)) &&
    Right(a) >= 0 && Right(b) >= 0
  }

  /** The backgrounds of `initialize`: one at 0, the other one width further. */
  function InitialBackgrounds(width: int, height: int): seq<Image> {
    [NewImage(Point(0, 0), width, height), NewImage(Point(width, 0), width, height)]
  }

  lemma InitialBackgroundsContiguous(width: int, height: int)
    requires width > 0
    ensures Contiguous(InitialBackgrounds(width, height))
  {
  }

  /** Scrolling left by at most one width keeps the backgrounds contiguous, so
      together they always look continuous. */
  lemma ScrollKeepsContiguous(backgrounds: seq<Image>, speed: int)
    requires Contiguous(backgrounds)
    requires speed >= -backgrounds[0].boundingBox.width
    ensures Contiguous(ScrollBackgrounds(backgrounds, speed))
  {
  }

  /** `obstacles.retain(|o| o.right() > 0)`. */
  function Pruned(obstacles: seq<Obstacle>): (r: seq<Obstacle>)
    ensures |r| <= |obstacles|
    ensures forall i :: 0 <= i < |r| ==> ObstacleRight(r[i]) > 0
    decreases |obstacles|
  {
    if obstacles == [] then []
    else if ObstacleRight(obstacles[0]) > 0 then [obstacles[0]] + Pruned(obstacles[1..])
    else Pruned(obstacles[1..])
  }

  /** One obstacle, if it survives the pruning. */
  function Survivor(o: Obstacle): seq<Obstacle> {
    if ObstacleRight(o) > 0 then [o] else []
  }

  lemma PrunedCons(obstacles: seq<Obstacle>)
    requires obstacles != []
    ensures Pruned(obstacles) == Survivor(obstacles[0]) + Pruned(obstacles[1..])
  {
  }

  /** Pruning keeps the survivors in their order and with their repetitions:
      one obstacle survives exactly when its right edge is positive, and two
      lists pruned one after the other are pruned as one. */
  lemma {:induction false} PrunedConcat(a: seq<Obstacle>, b: seq<Obstacle>)
    ensures Pruned(a + b) == Pruned(a) + Pruned(b)
    ensures |a| == 1 ==> Pruned(a) == Survivor(a[0])
    decreases |a|
  {
    if a == [] {
      assert a + b == b;
    } else {
      var ab := a + b;
      assert ab[0] == a[0] && ab[1..] == a[1..] + b;
      PrunedCons(ab);
      PrunedCons(a);
      PrunedConcat(a[1..], b);
      var h, x, y := Survivor(a[0]), Pruned(a[1..]), Pruned(b);
      assert h + (x + y) == (h + x) + y;
      if |a| == 1 {
        assert a[1..] == [];
      }
    }
  }

  /** Exactly the obstacles whose right edge is positive survive the pruning. */
  lemma {:induction false} PrunedMembers(obstacles: seq<Obstacle>, o: Obstacle)
    ensures o in Pruned(obstacles) <==> o in obstacles && ObstacleRight(o) > 0
    decreases |obstacles|
  {
    if obstacles != [] {
      PrunedMembers(obstacles[1..], o);
      assert obstacles == [obstacles[0]] + obstacles[1..];
    }
  }

  function MovedAll(obstacles: seq<Obstacle>, dx: int): (r: seq<Obstacle>)
    ensures |r| == |obstacles|
    ensures forall i :: 0 <= i < |obstacles| ==> r[i] == Moved(obstacles[i], dx)
  {
    seq(|obstacles|, i requires 0 <= i < |obstacles| => Moved(obstacles[i], dx))
  }

  /** Shifting one more obstacle appends it, shifted. */
  lemma MovedAllSnoc(obstacles: seq<Obstacle>, i: nat, dx: int)
    requires i < |obstacles|
    ensures MovedAll(obstacles[..i + 1], dx) == MovedAll(obstacles[..i], dx) + [Moved(obstacles[i], dx)]
  {
    var a := MovedAll(obstacles[..i + 1], dx);
    var b := MovedAll(obstacles[..i], dx) + [Moved(obstacles[i], dx)];
    assert |a| == |b|;
    forall j | 0 <= j < |a|
      ensures a[j] == b[j]
    {
      if j < i {
        assert obstacles[..i + 1][j] == obstacles[..i][j];
      }
    }
  }

  /** The player after checking the obstacles in order, each against the
      state the previous ones left. */
  function CollideAll(k: Physics, sheet: Sheet, s: State, obstacles: seq<Obstacle>): (r: State)
    requires ValidPhysics(k) && SheetComplete(sheet) && Inv(k, s)
    ensures Inv(k, r)
    decreases |obstacles|
  {
    if obstacles == [] then s
    else
      var s' := CollideAll(k, sheet, s, obstacles[..|obstacles| - 1]);
      HasCell(k, sheet, s');
      Collide(k, sheet, obstacles[|obstacles| - 1], s')
  }

  /** Checking one more obstacle is one more collision after the others. */
  lemma CollideAllSnoc(k: Physics, sheet: Sheet, s: State, obstacles: seq<Obstacle>, o: Obstacle)
    requires ValidPhysics(k) && SheetComplete(sheet) && Inv(k, s)
    ensures FrameName(CollideAll(k, sheet, s, obstacles)) in sheet
    ensures CollideAll(k, sheet, s, obstacles + [o]) == Collide(k, sheet, o, CollideAll(k, sheet, s, obstacles))
  {
    assert (obstacles + [o])[..|obstacles|] == obstacles;
    HasCell(k, sheet, CollideAll(k, sheet, s, obstacles));
  }

  /** No obstacle revives a knocked-out player. */
  lemma {:induction false} CollideAllKnockedOut(k: Physics, sheet: Sheet, c: Context, obstacles: seq<Obstacle>)
    requires ValidPhysics(k) && SheetComplete(sheet) && Inv(k, KnockedOut(c))
    ensures CollideAll(k, sheet, KnockedOut(c), obstacles) == KnockedOut(c)
    decreases |obstacles|
  {
    if obstacles != [] {
      CollideAllKnockedOut(k, sheet, c, obstacles[..|obstacles| - 1]);
    }
  }

  /** The player after the key events and the tick of one Walking update. */
  function TickedPlayer(k: Physics, s: State, keys: KeyState): (r: State)
    ensures ValidPhysics(k) && Inv(k, s) ==> Inv(k, r)
  {
    var jumped := if "Space" in keys then Transition(k, s, Jump) else s;
    var slid := if "ArrowDown" in keys then Transition(k, jumped, Slide) else jumped;
    Transition(k, slid, Update)
  }

  /** The world after the player's tick, the scrolling and the collisions of
      one Walking update, before the lookahead is dealt with. */
  function TickedWorld(k: Physics, sheet: Sheet, w: WorldState, keys: KeyState): (r: WorldState)
    requires WorldInv(k, sheet, w)
    ensures WorldInv(k, sheet, r)
  {
    var s := TickedPlayer(k, w.boy, keys);
    var speed := WalkingVelocity(s);
    var moved := MovedAll(Pruned(w.obstacles), speed);
    WorldState(CollideAll(k, sheet, s, moved), ScrollBackgrounds(w.backgrounds, speed), moved, w.timeline)
  }

  /** One Walking update of the world (`WalkTheDogState<Walking>::update`):
      key events and a tick for the player, scrolling, pruning, shifting and
      colliding the obstacles in order, then generating or advancing. */
  function WalkingStep(k: Physics, sheet: Sheet, segments: Segments, w: WorldState, keys: KeyState, choice: nat): (r: WorldState)
    requires WorldInv(k, sheet, w)
    ensures WorldInv(k, sheet, r)
  {
    var ticked := TickedWorld(k, sheet, w, keys);
    if w.timeline < TimelineMinimum then WithNextSegment(ticked, segments, choice)
    else ticked.(timeline := w.timeline + WalkingVelocity(TickedPlayer(k, w.boy, keys)))
  }

  /** The obstacles after a tick are the survivors of the pruning, shifted and
      in their old order, followed by the new segment if one was generated:
      each survivor had its right edge past 0 before the shift. */
  lemma StepObstacles(k: Physics, sheet: Sheet, segments: Segments, w: WorldState, keys: KeyState, choice: nat)
    requires WorldInv(k, sheet, w)
    ensures var speed := WalkingVelocity(TickedPlayer(k, w.boy, keys));
            var r := WalkingStep(k, sheet, segments, w, keys, choice);
            var survivors := Pruned(w.obstacles);
            |r.obstacles| >= |survivors| &&
            (forall i :: 0 <= i < |survivors| ==>
               r.obstacles[i] == Moved(survivors[i], speed) && ObstacleRight(r.obstacles[i]) > speed) &&
            r.obstacles[|survivors|..] == if w.timeline < TimelineMinimum then NextSegment(segments, w.timeline, choice) else []
  {
    var speed := WalkingVelocity(TickedPlayer(k, w.boy, keys));
    var survivors := Pruned(w.obstacles);
    forall i | 0 <= i < |survivors|
      ensures ObstacleRight(Moved(survivors[i], speed)) > speed
    {
      MovedRight(survivors[i], speed);
    }
  }

  /** The lookahead after a tick: below the minimum it becomes the rightmost
      edge of the new segment, otherwise it moves with the scrolling. */
  lemma StepTimeline(k: Physics, sheet: Sheet, segments: Segments, w: WorldState, keys: KeyState, choice: nat)
    requires WorldInv(k, sheet, w)
    ensures var r := WalkingStep(k, sheet, segments, w, keys, choice);
            r.timeline == if w.timeline < TimelineMinimum then Rightmost(NextSegment(segments, w.timeline, choice))
                          else w.timeline - TickedPlayer(k, w.boy, keys).ctx.velocity.x
  {
  }

  /** A knocked-out player stays exactly as it is through a whole tick. */
  lemma StepKnockedOut(k: Physics, sheet: Sheet, segments: Segments, w: WorldState, keys: KeyState, choice: nat)
    requires WorldInv(k, sheet, w) && w.boy.KnockedOut?
    ensures WalkingStep(k, sheet, segments, w, keys, choice).boy == w.boy
  {
    var speed := WalkingVelocity(TickedPlayer(k, w.boy, keys));
    CollideAllKnockedOut(k, sheet, w.boy.ctx, MovedAll(Pruned(w.obstacles), speed));
  }

  /** `Walk::reset` on the value: the starting segment at 0, the lookahead at
      its right edge, the backgrounds kept and a fresh Idle player. */
  function ResetWorld(w: WorldState, segments: Segments): WorldState {
    var obstacles := segments.stoneAndPlatform(0);
    WorldState(NewIdle, w.backgrounds, obstacles, Rightmost(obstacles))
  }

  class Walk {
    const boy: RedHatBoy
    const backgrounds: array<Image>
    var obstacles: seq<Obstacle>
    var timeline: int
    const segments: Segments

    ghost predicate Valid()
      reads this, boy, backgrounds
    {
      backgrounds.Length == 2 && WorldInv(boy.physics, boy.sheet, Model())
    }

    ghost function Model(): WorldState
      reads this, boy, backgrounds
    {
      WorldState(boy.stateMachine, backgrounds[..], obstacles, timeline)
    }

    /** The world `initialize` builds: an Idle player, the two backgrounds side
        by side, the starting segment at 0 and the lookahead at its right edge. */
    constructor (boy: RedHatBoy, backgroundWidth: int, backgroundHeight: int, segments: Segments)
      requires ValidPhysics(boy.physics) && SheetComplete(boy.sheet) && boy.stateMachine == NewIdle
      ensures Valid() && fresh(backgrounds)
      ensures this.boy == boy && this.segments == segments
      ensures Model() == WorldState(NewIdle, InitialBackgrounds(backgroundWidth, backgroundHeight),
                                    segments.stoneAndPlatform(0), Rightmost(segments.stoneAndPlatform(0)))
    {
      this.boy := boy;
      this.segments := segments;
      var initial := InitialBackgrounds(backgroundWidth, backgroundHeight);
      backgrounds := new Image[2](i requires 0 <= i < 2 => initial[i]);
      obstacles := segments.stoneAndPlatform(0);
      timeline := Rightmost(segments.stoneAndPlatform(0));
      new;
      assert backgrounds[..] == initial;
    }

    /** `Walk::reset`: a new world that keeps the backgrounds, the sheet and
        the segment templates of `walk`. */
    constructor Reset(walk: Walk)
      requires walk.Valid()
      ensures Valid() && fresh(boy)
      ensures backgrounds == walk.backgrounds && segments == walk.segments
      ensures boy.physics == walk.boy.physics && boy.sheet == walk.boy.sheet
      ensures Model() == ResetWorld(walk.Model(), walk.segments)
    {
      var b := walk.boy.Reset();
      boy := b;
      backgrounds := walk.backgrounds;
      segments := walk.segments;
      obstacles := walk.segments.stoneAndPlatform(0);
      timeline := Rightmost(walk.segments.stoneAndPlatform(0));
    }

    predicate KnockedOut()
      reads this, boy
    {
      boy.KnockedOut()
    }

    function Velocity(): int
      reads this, boy
    {
      -boy.WalkingSpeed()
    }

    /** `Walk::generate_next_segment` with the random draw as `choice`. */
    method GenerateNextSegment(choice: nat)
      requires Valid()
      modifies this
      ensures Valid()
      ensures Model() == WithNextSegment(old(Model()), segments, choice)
    {
      var next := if choice == 0 then segments.stoneAndPlatform(timeline + ObstacleBuffer)
                  else if choice == 1 then segments.platformAndStone(timeline + ObstacleBuffer)
                  else [];
      timeline := Rightmost(next);
      obstacles := obstacles + next;
    }
  }
}
