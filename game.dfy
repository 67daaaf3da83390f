/** The game lifecycle: Ready until the right arrow is pressed, Walking until
    the player is knocked out, GameOver until a new game is asked for, which
    resets the world and is Ready again. */
module Game {
  import opened Opt
  import opened Geometry
  import opened Player
  import opened Boy
  import opened Obstacles
  import opened World

  datatype Phase = ReadyPhase | WalkingPhase | GameOverPhase

  /** The game as a value: its phase and its world. */
  datatype GameState = GameState(phase: Phase, world: WorldState)

  /** The game `initialize` builds, before its first update. */
  function InitialGame(backgroundWidth: int, backgroundHeight: int, segments: Segments): GameState {
    var obstacles := segments.stoneAndPlatform(0);
    GameState(ReadyPhase, WorldState(NewIdle, InitialBackgrounds(backgroundWidth, backgroundHeight), obstacles, Rightmost(obstacles)))
  }

  /** One update of the lifecycle (`WalkTheDogStateMachine::update`);
      `restart` is whether the New Game button was clicked since the last one. */
  function GameStep(k: Physics, sheet: Sheet, segments: Segments, g: GameState, keys: KeyState, restart: bool, choice: nat): (r: GameState)
    requires WorldInv(k, sheet, g.world)
    ensures WorldInv(k, sheet, r.world)
  {
    match g.phase
    case ReadyPhase =>
      var s := Transition(k, g.world.boy, Update);
      if "ArrowRight" in keys then GameState(WalkingPhase, g.world.(boy := Transition(k, s, Run)))
      else GameState(ReadyPhase, g.world.(boy := s))
    case WalkingPhase =>
      var w := WalkingStep(k, sheet, segments, g.world, keys, choice);
      if IsKnockedOut(w.boy) then GameState(GameOverPhase, w) else GameState(WalkingPhase, w)
    case GameOverPhase =>
      if restart then GameState(ReadyPhase, ResetWorld(g.world, segments)) else g
  }

  /** Ready: the player idles in place and the game starts walking exactly
      when the right arrow is pressed, with the player running. */
  lemma ReadyStep(k: Physics, sheet: Sheet, segments: Segments, g: GameState, keys: KeyState, restart: bool, choice: nat)
    requires WorldInv(k, sheet, g.world) && g.phase == ReadyPhase && g.world.boy.Idle?
    ensures var r := GameStep(k, sheet, segments, g, keys, restart, choice);
            (r.phase == WalkingPhase <==> "ArrowRight" in keys) &&
            r.phase != GameOverPhase &&
            (r.phase == WalkingPhase ==> r.world.boy.Running? && r.world.boy.ctx.velocity.x == g.world.boy.ctx.velocity.x + RunningSpeed) &&
            (r.phase == ReadyPhase ==> r.world.boy.Idle?) &&
            r.world.boy.ctx.position.x == g.world.boy.ctx.position.x &&
            r.world.obstacles == g.world.obstacles && r.world.backgrounds == g.world.backgrounds &&
            r.world.timeline == g.world.timeline
  {
  }

  /** Walking: the game is over exactly when the tick leaves the player
      knocked out; it never goes back to Ready by itself. */
  lemma WalkingEnds(k: Physics, sheet: Sheet, segments: Segments, g: GameState, keys: KeyState, restart: bool, choice: nat)
    requires WorldInv(k, sheet, g.world) && g.phase == WalkingPhase
    ensures var r := GameStep(k, sheet, segments, g, keys, restart, choice);
            r.world == WalkingStep(k, sheet, segments, g.world, keys, choice) &&
            (r.phase == GameOverPhase <==> r.world.boy.KnockedOut?) &&
            r.phase != ReadyPhase
  {
  }

  /** A walking game whose player is already knocked out is over after one update. */
  lemma KnockedOutEndsWalk(k: Physics, sheet: Sheet, segments: Segments, g: GameState, keys: KeyState, restart: bool, choice: nat)
    requires WorldInv(k, sheet, g.world) && g.phase == WalkingPhase && g.world.boy.KnockedOut?
    ensures GameStep(k, sheet, segments, g, keys, restart, choice).phase == GameOverPhase
  {
    StepKnockedOut(k, sheet, segments, g.world, keys, choice);
  }

  /** GameOver: nothing changes until a new game is asked for; then the game
      is Ready with a fresh Idle player, the starting segment and the old
      backgrounds. */
  lemma GameOverStep(k: Physics, sheet: Sheet, segments: Segments, g: GameState, keys: KeyState, restart: bool, choice: nat)
    requires WorldInv(k, sheet, g.world) && g.phase == GameOverPhase
    ensures !restart ==> GameStep(k, sheet, segments, g, keys, restart, choice) == g
    ensures restart ==>
              var r := GameStep(k, sheet, segments, g, keys, restart, choice);
              r.phase == ReadyPhase && r.world.boy == NewIdle &&
              r.world.backgrounds == g.world.backgrounds &&
              r.world.obstacles == segments.stoneAndPlatform(0) &&
              r.world.timeline == Rightmost(segments.stoneAndPlatform(0))
  {
  }

  /** A new game looks like the first one, except for where the backgrounds
      have scrolled to. */
  lemma NewGameIsInitial(k: Physics, sheet: Sheet, segments: Segments, g: GameState, keys: KeyState, choice: nat, width: int, height: int)
    requires WorldInv(k, sheet, g.world) && g.phase == GameOverPhase
    requires g.world.backgrounds == InitialBackgrounds(width, height)
    ensures GameStep(k, sheet, segments, g, keys, true, choice) == InitialGame(width, height, segments)
  {
  }

  /** The states of `WalkTheDogStateMachine`, each owning its world. */
  datatype Machine = Ready(walk: Walk) | Walking(walk: Walk) | GameOver(walk: Walk)

  function PhaseOf(m: Machine): Phase {
    match m
    case Ready(_) => ReadyPhase
    case Walking(_) => WalkingPhase
    case GameOver(_) => GameOverPhase
  }

  ghost function MachineValue(m: Machine): GameState
    reads m.walk, m.walk.boy, m.walk.backgrounds
  {
    GameState(PhaseOf(m), m.walk.Model())
  }

  /** The two backgrounds scroll in place; one that has left the screen is
      put behind the other. */
  method ScrollInPlace(backgrounds: array<Image>, speed: int)
    requires backgrounds.Length == 2
    modifies backgrounds
    ensures backgrounds[..] == ScrollBackgrounds(old(backgrounds[..]), speed)
  {
    backgrounds[0] := ImageMoved(backgrounds[0], speed);
    backgrounds[1] := ImageMoved(backgrounds[1], speed);
    if ImageRight(backgrounds[0]) < 0 {
      backgrounds[0] := ImageSetX(backgrounds[0], ImageRight(backgrounds[1]));
    }
    if ImageRight(backgrounds[1]) < 0 {
      backgrounds[1] := ImageSetX(backgrounds[1], ImageRight(backgrounds[0]));
    }
  }

  /** The `i`-th retained obstacle of the walking update: shifted, then
      checked against the player, whom the obstacles before it, already
      shifted into `checked`, have left where they leave a player that
      started as `s`. */
  method MoveAndCheck(obstacles: seq<Obstacle>, i: nat, speed: int, boy: RedHatBoy, ghost s: State, ghost checked: seq<Obstacle>)
    returns (r: Obstacle)
    requires i < |obstacles| && checked == MovedAll(obstacles[..i], speed)
    requires ValidPhysics(boy.physics) && SheetComplete(boy.sheet) && Inv(boy.physics, s)
    requires boy.stateMachine == CollideAll(boy.physics, boy.sheet, s, checked)
    modifies boy
    ensures r == Moved(obstacles[i], speed)
    ensures checked + [r] == MovedAll(obstacles[..i + 1], speed)
    ensures boy.stateMachine == CollideAll(boy.physics, boy.sheet, s, checked + [r])
  {
    r := MoveHorizontally(obstacles[i], speed);
    MovedAllSnoc(obstacles, i, speed);
    CollideAllSnoc(boy.physics, boy.sheet, s, checked, r);
    CheckIntersection(r, boy);
  }

  /** The retained obstacles, each shifted and then checked against the
      player in turn (`iter_mut().for_each`). */
  method MoveAndCollide(obstacles: seq<Obstacle>, speed: int, boy: RedHatBoy) returns (moved: seq<Obstacle>)
    requires ValidPhysics(boy.physics) && SheetComplete(boy.sheet) && Inv(boy.physics, boy.stateMachine)
    modifies boy
    ensures moved == MovedAll(obstacles, speed)
    ensures boy.stateMachine == CollideAll(boy.physics, boy.sheet, old(boy.stateMachine), moved)
    ensures Inv(boy.physics, boy.stateMachine)
  {
    ghost var s := boy.stateMachine;
    moved := [];
    var i := 0;
    while i < |obstacles|
      invariant 0 <= i <= |obstacles|
      invariant moved == MovedAll(obstacles[..i], speed)
      invariant boy.stateMachine == CollideAll(boy.physics, boy.sheet, s, moved)
    {
      var o := MoveAndCheck(obstacles, i, speed, boy, s, moved);
      moved := moved + [o];
      i := i + 1;
    }
    assert obstacles[..i] == obstacles;
  }

  /** The player's part of a Walking update: a jump on Space, a slide on the
      down arrow, then the tick. */
  method TickPlayer(boy: RedHatBoy, keys: KeyState)
    modifies boy
    ensures boy.stateMachine == TickedPlayer(boy.physics, old(boy.stateMachine), keys)
  {
    if "Space" in keys {
      boy.Jump();
    }
    if "ArrowDown" in keys {
      boy.Slide();
    }
    boy.Update();
  }

  /** The player's tick, the scrolling and the obstacles of a Walking update;
      returns the walking speed of the tick. */
  method TickWorld(walk: Walk, keys: KeyState) returns (speed: int)
    requires walk.Valid()
    modifies walk, walk.boy, walk.backgrounds
    ensures walk.Valid()
    ensures speed == WalkingVelocity(TickedPlayer(walk.boy.physics, old(walk.boy.stateMachine), keys))
    ensures walk.Model() == TickedWorld(walk.boy.physics, walk.boy.sheet, old(walk.Model()), keys)
  {
    TickPlayer(walk.boy, keys);
    speed := walk.Velocity();
    ScrollInPlace(walk.backgrounds, speed);
    var moved := MoveAndCollide(Pruned(walk.obstacles), speed, walk.boy);
    walk.obstacles := moved;
  }

  /** `WalkTheDogState<Walking>::update` before the phase is decided: the
      world changes in place. */
  method WalkingTick(walk: Walk, keys: KeyState, choice: nat)
    requires walk.Valid()
    modifies walk, walk.boy, walk.backgrounds
    ensures walk.Valid()
    ensures walk.Model() == WalkingStep(walk.boy.physics, walk.boy.sheet, walk.segments, old(walk.Model()), keys, choice)
  {
    var speed := TickWorld(walk, keys);
    if walk.timeline < TimelineMinimum {
      walk.GenerateNextSegment(choice);
    } else {
      walk.timeline := walk.timeline + speed;
    }
  }

  /** `WalkTheDogStateMachine::update`; `restart` is whether the New Game
      button was clicked. */
  method MachineUpdate(m: Machine, keys: KeyState, restart: bool, choice: nat) returns (r: Machine)
    requires m.walk.Valid()
    modifies m.walk, m.walk.boy, m.walk.backgrounds
    ensures r.walk.Valid()
    ensures r.walk == m.walk || fresh(r.walk.boy)
    ensures r.walk.boy.physics == m.walk.boy.physics && r.walk.boy.sheet == m.walk.boy.sheet
    ensures r.walk.segments == m.walk.segments && r.walk.backgrounds == m.walk.backgrounds
    ensures MachineValue(r) == GameStep(m.walk.boy.physics, m.walk.boy.sheet, m.walk.segments, old(MachineValue(m)), keys, restart, choice)
  {
    var walk := m.walk;
    if m.Ready? {
      walk.boy.Update();
      if "ArrowRight" in keys {
        walk.boy.RunRight();
        r := Walking(walk);
      } else {
        r := Ready(walk);
      }
    } else if m.Walking? {
      WalkingTick(walk, keys, choice);
      if walk.KnockedOut() {
        r := GameOver(walk);
      } else {
        r := Walking(walk);
      }
    } else if restart {
      var reset := new Walk.Reset(walk);
      r := Ready(reset);
    } else {
      r := m;
    }
  }

  const AlreadyInitialized := "Error: Game is already initialized!"

  class WalkTheDog {
    var machine: Option<Machine>

    /** `WalkTheDog::new`: no game yet. */
    constructor ()
      ensures machine == None
    {
      machine := None;
    }

    ghost function Repr(): set<object>
      reads this
    {
      if machine.Some? then {machine.value.walk, machine.value.walk.boy, machine.value.walk.backgrounds} else {}
    }

    ghost predicate Valid()
      reads this, Repr()
    {
      machine.Some? ==> machine.value.walk.Valid()
    }

    /** `initialize`: a new game, Ready, with the constants of the current
        game, when there is none yet; an error otherwise. The sheet must have
        a cell for every frame, or a later update would fail. */
    method Initialize(sheet: Sheet, backgroundWidth: int, backgroundHeight: int, segments: Segments) returns (r: Result<WalkTheDog>)
      requires SheetComplete(sheet)
      ensures machine.Some? ==> r == Err(AlreadyInitialized)
      ensures machine.None? ==>
                r.Ok? && fresh(r.value) && r.value.machine.Some? && fresh(r.value.Repr()) && r.value.Valid() &&
                var m := r.value.machine.value;
                m.walk.boy.physics == Current && m.walk.boy.sheet == sheet && m.walk.segments == segments &&
                MachineValue(m) == InitialGame(backgroundWidth, backgroundHeight, segments)
    {
      if machine.Some? {
        return Err(AlreadyInitialized);
      }
      var boy := new RedHatBoy(Current, sheet);
      var walk := new Walk(boy, backgroundWidth, backgroundHeight, segments);
      var game := new WalkTheDog();
      game.machine := Some(Ready(walk));
      r := Ok(game);
    }

    /** `Game::update`; an uninitialised game is a failed assertion. */
    method Update(keys: KeyState, restart: bool, choice: nat)
      requires Valid() && machine.Some?
      modifies this, Repr()
      ensures Valid() && machine.Some?
      ensures var m := machine.value;
              var m0 := old(machine.value);
              m.walk.boy.physics == m0.walk.boy.physics && m.walk.boy.sheet == m0.walk.boy.sheet &&
              m.walk.segments == m0.walk.segments &&
              MachineValue(m) == GameStep(m0.walk.boy.physics, m0.walk.boy.sheet, m0.walk.segments,
                                          old(MachineValue(machine.value)), keys, restart, choice)
    {
      var next := MachineUpdate(machine.value, keys, restart, choice);
      machine := Some(next);
    }
  }
}
