# Walk the Dog and a template-line classifier, in Dafny

This project models two pieces of the repository.

**The endless runner "Walk the Dog"** (`src/game.rs`, and the older
`walk-the-dog/src/game.rs`).

- **The Red Hat Boy.** The player is a state machine. It has six states
  (Idle, Running, Sliding, Jumping, Falling, KnockedOut), each carrying an
  animation context: frame counter, position and velocity. It has six events
  (Run, Slide, Jump, KnockOut, Land(y), Update). Update is the integer
  physics tick, with gravity, terminal velocity, a floor clamp and a frame
  counter that wraps or ends the state.
- **Obstacles.** A Barrier has one box. A Platform has several. Both can be
  shifted horizontally, report their right edge, and resolve a collision with
  the player's bounding box by landing or knocking out.
- **The world (`Walk`).** Each update of the Walking phase does the following:
  - applies the key events and a tick to the player;
  - scrolls the two backgrounds;
  - prunes the obstacles that have left the screen;
  - shifts the rest and collides them with the player, in order;
  - moves the lookahead cursor (`timeline`), or appends a new segment when
    the lookahead falls below 1000.
- **The game.** The Ready, Walking and GameOver lifecycle around the world,
  and the `WalkTheDog` object with its `initialize` guard and `update`.

The two versions of the player state machine differ in two constants: the
jump impulse and the terminal velocity. The state machine is therefore written
once, parameterised by `Physics(jumpSpeed, terminalVelocity)`:

- `Player.Current` is `Physics(-27, 18)`, for `src/game.rs`;
- `Snapshot.Older` is `Physics(-25, 20)`, for `walk-the-dog/src/game.rs`.

The older version also builds a fixed first level: a stone and one
three-box platform.

The older version's obstacles and player wrappers are the same code as the
current ones, so the same members model both:

- the barrier check, `walk-the-dog/src/game.rs:31-35`;
- `Platform::new`, `walk-the-dog/src/game.rs:97-123`;
- `move_horizontally`, `walk-the-dog/src/game.rs:240-246`;
- `check_intersection`, `walk-the-dog/src/game.rs:248-261`;
- `right`, `walk-the-dog/src/game.rs:263-268`;
- the `RedHatBoy` wrappers, `walk-the-dog/src/game.rs:287-301` and `368-374`;
- `bounding_box`, `walk-the-dog/src/game.rs:318-328`;
- `RedHatBoyState::<Idle>::new`, `walk-the-dog/src/game.rs:568-577`.

**The line classifier of the HTML template engine**
(`Rust/sys-prog/template-engine/src/lib.rs`):

- finding a character;
- splitting a `{{variable}}` line into head, variable and tail;
- classifying a line as a for-tag, an if-tag, a variable, a literal or
  unrecognised;
- rendering a variable line from a context map.

A slice that Rust would reject with a panic is the `Panics` outcome.

## How the source maps onto the model

The modules:

| module | file | contents |
|---|---|---|
| `Geometry` | `geometry.dfy` | points, rectangles, images |
| `Player` | `player.dfy` | states, context tick, transitions, frame names |
| `PlayerProperties` | `player_properties.dfy` | transition-table and countdown lemmas |
| `Boy` | `boy.dfy` | sprite sheet, bounding box, the `RedHatBoy` class |
| `Obstacles` | `obstacles.dfy` | barriers, platforms, `rightmost` |
| `World` | `world.dfy` | the world value, its tick, the `Walk` class |
| `Game` | `game.dfy` | lifecycle, the in-place Walking update, `WalkTheDog` |
| `Snapshot` | `snapshot.dfy` | the older constants and first level |
| `TemplateEngine` | `template_engine.dfy` | the template-line classifier |
| `Opt` | `option.dfy` | `Option` and `Result` |

Each source object becomes the kind of Dafny entity its code calls for.

- **Values.** Code that consumes a value and returns a new one becomes
  functions on datatypes. This covers the typestate player, the context
  update, `rightmost`, slicing and classifying.
- **Objects updated in place.** Objects whose fields the source overwrites
  are classes with `modifies` clauses. Their methods are proved equal to
  those functions:
  - `RedHatBoy` overwrites its `state_machine`;
  - `Walk` has two backgrounds in an `array` and a `seq` of obstacles that
    the Walking update replaces;
  - `WalkTheDog` holds an optional machine.
- **Loops.** Loops in the source are loops here:
  - `Platform::move_horizontally` over the boxes;
  - the move-then-check pass over the obstacles;
  - `get_index_for_symbol`'s scan.

What the model assumes or fixes:

- **Geometry.** `Rect::intersects` is the usual overlap test with strict
  comparisons. `right` is `x + width`. An image takes part only through its
  bounding box.
- **Sprite cells.** A sprite sheet is a map from frame names such as
  `"Run (3).png"` to cells. Where the source would panic on a missing cell,
  the model requires the cell. The world invariant `SheetComplete` says the
  sheet has a cell for every frame any reachable state can show.
- **Inputs.** Each of the following is a parameter:
  - the random segment choice, a `nat` (0 and 1 are the two templates; any
    other value gives no obstacles, as the source's `_` arm does);
  - the pressed keys, a set of key names;
  - the "New Game" click, a boolean;
  - the two segment templates, functions from an x offset to obstacles.
- **Integers** are unbounded.

## Model

| member | source | states |
|---|---|---|
| Player.UpdateContext | src/game.rs:710-728 | one physics tick: vertical speed grows by gravity exactly while below terminal velocity and never passes it; the frame counts up to the budget and then wraps to 0; y moves by the new speed and is clamped to the floor; x and horizontal speed are untouched |
| Player.Transition | src/game.rs:330-351 | every (state, event) pair without an arm of its own returns the state unchanged, and every transition keeps the frame within the state's budget and the vertical speed at or below terminal velocity |
| Player.FrameName | src/game.rs:220-226 | the sheet key of a state's current sprite: the state's prefix, " (", the decimal of frame / 3 + 1, ").png"; `Player.FrameNameExample` and `Player.DecimalValue` pin the number |
| Player.Decimal | src/game.rs:224 | a nonempty string of decimal digits |
| Player.DecimalValue | src/game.rs:224 | the digits of `Decimal(n)` write exactly n, with no leading zero |
| Player.FrameNameExample | src/game.rs:220-226 | frames 6 to 8 of a run show the sprite "Run (3).png" |
| PlayerProperties.KnockedOutAbsorbing | src/game.rs:330-351 | no sequence of events ever leaves KnockedOut |
| PlayerProperties.InvAlongEvents | src/game.rs:710-728 | the frame budget and the terminal-velocity bound hold after any sequence of events |
| PlayerProperties.EntryEffects | src/game.rs:521-557 | Idle+Run runs with frame 0 and 3 more horizontal speed; Running+Jump jumps with frame 0 and the jump impulse as vertical speed; Running+Slide slides with frame 0; nothing else changes |
| PlayerProperties.KnockOutEffects | src/game.rs:559-646 | KnockOut makes Running, Jumping and Sliding fall with frame 0 and no horizontal speed, and leaves Idle, Falling and KnockedOut alone |
| PlayerProperties.LandEffects | src/game.rs:565-653 | Land(p) puts the feet at p (y = p - 121); Jumping and Running go on running, Sliding goes on sliding, only a landing jump restarts the frame; the other states ignore it |
| PlayerProperties.UpdatePhysics | src/game.rs:710-728 | after a tick of any live state the player is at or above the floor and the vertical speed has grown by gravity exactly when it was below the cap |
| PlayerProperties.JumpingTouchesFloor | src/game.rs:586-602 | a jumping tick that reaches the floor lands with the feet on the bottom edge (y = 479), running, on frame 0 |
| PlayerProperties.SlidingCountdown | src/game.rs:625-640 | a slide on frame f keeps sliding, on frame f + m, for m < 14 - f ticks and stands up running on frame 0 after exactly 14 - f |
| PlayerProperties.SlideLastsSlidingFrames | src/game.rs:553-557 | a slide entered from running lasts exactly 14 ticks and ends running on frame 0 |
| PlayerProperties.FallingCountdown | src/game.rs:686-693 | a fall on frame f keeps falling for m < 29 - f ticks and is knocked out after exactly 29 - f, keeping its horizontal speed |
| PlayerProperties.FallLastsFallingFrames | src/game.rs:559-563 | a knock-out from running, jumping or sliding ends knocked out exactly 29 ticks later, without horizontal speed |
| PlayerProperties.JumpLands | src/game.rs:586-595 | every jump at or above the floor lands: there is a tick count after which the player runs on the floor on frame 0, and it jumps until then |
| PlayerProperties.JumpFromRunningLands | src/game.rs:542-551 | a running player that jumps gets the jump impulse and, ticking on, lands back on the floor running |
| Boy.HasCell | src/game.rs:247-248 | on a complete sheet every state within its frame budget has its cell, so "Cell not found" cannot happen |
| Boy.DestinationBox | src/game.rs:247-260 | the current cell's size placed at the player's position plus the cell's source offset; `Boy.PlayerBox` states the bounding box cut from it |
| Boy.PlayerBox | src/game.rs:235-260 | the bounding box is the destination box moved in by 18 on the left, 10 on the right and 14 at the top, with the same bottom edge |
| Boy.RedHatBoy.constructor | src/game.rs:187-193 | a new player is Idle at (-20, 479), still, on frame 0, with the given sheet |
| Boy.RedHatBoy.Reset | src/game.rs:194-202 | a fresh Idle player with the old one's sheet and constants |
| Boy.RedHatBoy.RunRight | src/game.rs:204-206 | the state machine takes the Run transition |
| Boy.RedHatBoy.Slide | src/game.rs:208-210 | the state machine takes the Slide transition |
| Boy.RedHatBoy.Jump | src/game.rs:212-214 | the state machine takes the Jump transition |
| Boy.RedHatBoy.Update | src/game.rs:216-218 | the state machine takes the Update transition |
| Boy.RedHatBoy.KnockOut | src/game.rs:285-287 | the state machine takes the KnockOut transition |
| Boy.RedHatBoy.LandOn | src/game.rs:292-294 | the state machine takes the Land(position) transition |
| Obstacles.Cells | src/game.rs:85-89 | never more cells than names, each a cell of the sheet; when every name is in the sheet, exactly the names' cells in their order |
| Obstacles.CellsConcat | src/game.rs:85-89 | the cells are found name by name in order: one name gives its cell or nothing when the sheet lacks it, and two lists of names give their cells one after the other |
| Obstacles.NewPlatform | src/game.rs:82-108 | every box keeps its size and is offset by the platform's position, and the box count is kept |
| Obstacles.Moved | src/game.rs:148-154 | shifting moves the platform's position and every box's x by dx, or the barrier's image, and changes nothing else |
| Obstacles.MoveHorizontally | src/game.rs:148-154 | the in-place loop over the boxes computes exactly the shifted obstacle |
| Obstacles.MovedRight | src/game.rs:170-175 | shifting moves the right edge by dx, except that a platform without boxes keeps the right edge 0 of the default rectangle |
| Obstacles.ObstacleRight | src/game.rs:170-175 | a barrier's image's right edge (src/game.rs:59-61), or the last box's right edge, 0 for a platform without boxes; `Obstacles.MovedRight` states how it moves and `Obstacles.Rightmost` takes its maximum |
| Obstacles.NewPlatformMoved | src/game.rs:82-154 | building a platform and shifting it is building it at the shifted position |
| Obstacles.FindIntersecting | src/game.rs:157-160 | finds the first box the player's box intersects: it intersects and none before it does; nothing is found exactly when no box intersects |
| Obstacles.Collide | src/game.rs:156-168 | resolving a collision keeps the player's frame and speed bounds |
| Obstacles.BarrierPolicy | src/game.rs:46-50 | a barrier knocks out whoever it touches (a running, jumping or sliding player falls) and leaves alone whoever it does not |
| Obstacles.PlatformPolicy | src/game.rs:156-168 | only the first intersecting box counts: a player moving down from above the platform lands on its top, any other is knocked out |
| Obstacles.PlatformMissed | src/game.rs:156-168 | a platform that the player's box does not touch leaves the player unchanged |
| Obstacles.LandingOnPlatform | src/game.rs:162-163 | a running or jumping player coming down onto a platform runs on with the feet on the top of the box touched |
| Obstacles.CheckIntersection | src/game.rs:156-168 | the method on the player object takes exactly the transition the collision function prescribes, for a barrier and a platform alike |
| Obstacles.Rightmost | src/game.rs:1176-1182 | the largest right edge: every obstacle's right edge is at most it and one attains it; 0 for an empty list |
| World.NextSegment | src/game.rs:801-815 | choice 0 is the stone-and-platform segment and 1 the platform-and-stone one, both 20 past the lookahead; any other choice adds nothing |
| World.WithNextSegment | src/game.rs:799-820 | `generate_next_segment` on the world value; `World.GeneratedLookahead` states its effect and `World.Walk.GenerateNextSegment` is proved equal to it |
| World.GeneratedLookahead | src/game.rs:799-820 | generating keeps the old obstacles first and sets the lookahead to the largest right edge of those just added, 0 when none were |
| World.InitialBackgroundsContiguous | src/game.rs:1136-1146 | the two initial backgrounds sit side by side |
| World.ScrollBackgrounds | src/game.rs:967-979 | there are still two backgrounds; `World.ScrollKeepsContiguous` states that they stay side by side and `Game.ScrollInPlace` is proved equal to it |
| World.ScrollKeepsContiguous | src/game.rs:967-979 | scrolling left by at most one width keeps the backgrounds side by side with neither entirely off screen |
| World.Pruned | src/game.rs:981 | never longer than the list, and every survivor has a positive right edge |
| World.PrunedMembers | src/game.rs:981 | exactly the obstacles whose right edge is positive survive the pruning |
| World.PrunedConcat | src/game.rs:981 | the pruning keeps order and repetitions: one obstacle survives exactly when its right edge is positive, and two lists pruned one after the other are pruned as one |
| World.MovedAll | src/game.rs:983-986 | every retained obstacle is shifted by the walking speed |
| World.MovedAllSnoc | src/game.rs:983-986 | shifting one more obstacle appends it, shifted |
| World.CollideAll | src/game.rs:983-986 | checking the obstacles one after the other keeps the player's frame and speed bounds |
| World.CollideAllSnoc | src/game.rs:983-986 | checking one more obstacle is one more collision, against the state the previous ones left |
| World.CollideAllKnockedOut | src/game.rs:983-986 | no obstacle revives a knocked-out player |
| World.TickedPlayer | src/game.rs:959-967 | Space jumps, the down arrow slides, and then the player ticks, keeping its bounds |
| World.TickedWorld | src/game.rs:959-986 | the key events, scrolling, pruning, shifting and colliding of one update keep the world invariant |
| World.WalkingStep | src/game.rs:958-992 | a whole Walking update of the world keeps the world invariant |
| World.StepObstacles | src/game.rs:981-992 | after an update the obstacles are the survivors, shifted and in their old order, each of which had its right edge past 0, then the new segment when the lookahead was below 1000 |
| World.StepTimeline | src/game.rs:988-992 | below 1000 the lookahead becomes the rightmost edge of the new segment; otherwise it moves left with the scrolling, by the player's horizontal speed |
| World.StepKnockedOut | src/game.rs:958-992 | a knocked-out player is unchanged by a whole update |
| World.Walk.constructor | src/game.rs:1122-1152 | the world `initialize` builds: an Idle player, backgrounds at 0 and one width further, the starting segment at 0 and the lookahead at its rightmost edge |
| World.ResetWorld | src/game.rs:776-790 | `Walk::reset` on the world value; `World.Walk.Reset` is proved equal to it and `Game.GameOverStep` states its effect |
| World.Walk.Reset | src/game.rs:776-790 | a reset world has a fresh Idle player, the starting segment rebuilt at 0, the lookahead at its rightmost edge, and the old backgrounds, sheet and templates |
| World.Walk.GenerateNextSegment | src/game.rs:799-820 | appends the chosen segment placed 20 past the lookahead and sets the lookahead to its rightmost edge |
| Game.InitialGame | src/game.rs:1122-1152 | the game `initialize` builds, as a value; `Game.WalkTheDog.Initialize` is proved to build it and `Game.NewGameIsInitial` relates it to a restart |
| Game.GameStep | src/game.rs:844-852 | one update of the lifecycle keeps the world invariant |
| Game.ReadyStep | src/game.rs:924-931 | Ready ticks the player in place and starts walking, with the player running, exactly when the right arrow is pressed; obstacles, backgrounds and lookahead are untouched |
| Game.WalkingEnds | src/game.rs:994-999 | a Walking update is over exactly when it leaves the player knocked out, and never goes back to Ready |
| Game.KnockedOutEndsWalk | src/game.rs:994-999 | a walking game whose player is already knocked out is over after one update |
| Game.GameOverStep | src/game.rs:1025-1043 | GameOver is unchanged until the New Game click; then it is Ready with a fresh Idle player, the starting segment and lookahead, and the old backgrounds |
| Game.NewGameIsInitial | src/game.rs:1033-1043 | a new game equals the game `initialize` builds whenever the backgrounds are back where they started |
| Game.ScrollInPlace | src/game.rs:967-979 | the two backgrounds in the array scroll exactly as specified, the first re-placed before the second |
| Game.MoveAndCheck | src/game.rs:983-986 | shifts one obstacle and checks it, extending the shifted prefix and the collision fold by that obstacle |
| Game.MoveAndCollide | src/game.rs:983-986 | the move-then-check loop yields the shifted obstacles and leaves the player as checking them in order does |
| Game.TickPlayer | src/game.rs:959-967 | the player object takes the key events and the tick that the world specification prescribes |
| Game.TickWorld | src/game.rs:959-986 | the in-place update of player, backgrounds and obstacles yields exactly the specified world and returns the walking speed |
| Game.WalkingTick | src/game.rs:958-992 | the in-place Walking update yields exactly the specified next world |
| Game.MachineUpdate | src/game.rs:844-852 | the machine's update yields exactly the lifecycle step, keeping the world object except after a reset |
| Game.WalkTheDog.constructor | src/game.rs:1079-1083 | a new game object has no machine yet |
| Game.WalkTheDog.Initialize | src/game.rs:1086-1158 | a second initialisation is the error "Error: Game is already initialized!"; a first one yields a Ready game with the current constants and the initial world |
| Game.WalkTheDog.Update | src/game.rs:1160-1165 | updating replaces the machine by its next state, as the lifecycle step prescribes |
| Snapshot.OlderTick | walk-the-dog/src/game.rs:775-796 | under the older constants a tick caps the fall at 20 and keeps the player above the floor |
| Snapshot.OlderJump | walk-the-dog/src/game.rs:609-614 | an older jump gets vertical speed -25 and restarts the frame, and nothing else changes |
| Snapshot.VersionsAgree | walk-the-dog/src/game.rs:409-430 | while the vertical speed is below 18 the two versions take the same transition on every event but Jump, and a jump from running differs only in its vertical speed |
| Snapshot.FirstLevel | walk-the-dog/src/game.rs:893-915 | the stone at (150, 546) and the three-box platform at (200, 400); `Snapshot.FirstPlatformBoxes` and `Snapshot.FirstLevelRightmost` state its geometry |
| Snapshot.FirstPlatformBoxes | walk-the-dog/src/game.rs:893-905 | the first platform's boxes are at x = 200, 260, 524, all at y = 400, widths 60, 264, 60; its right edge is 584; it has three sprites when the sheet has them |
| Snapshot.FirstLevelRightmost | walk-the-dog/src/game.rs:893-915 | the first level reaches as far right as the stone or the platform, whichever is further |
| Snapshot.LandOnFirstPlatform | walk-the-dog/src/game.rs:248-261 | a player coming down onto the first platform from above runs on it with its feet at 400, that is at y = 279 |
| TemplateEngine.ContainsIsInfix | Rust/sys-prog/template-engine/src/lib.rs:48-50 | containment is being a middle part: s contains n exactly when s = a + n + b for some a and b |
| TemplateEngine.MissingCharacter | Rust/sys-prog/template-engine/src/lib.rs:48-50 | a string lacking one of the needle's characters does not contain the needle |
| TemplateEngine.CheckSymbolString | Rust/sys-prog/template-engine/src/lib.rs:48-50 | substring containment; `TemplateEngine.ContainsIsInfix` shows it means `input = a + symbol + b` and `TemplateEngine.MissingCharacter` rules it out |
| TemplateEngine.CheckMatchingPair | Rust/sys-prog/template-engine/src/lib.rs:43-45 | both symbols are contained; `TemplateEngine.MatchingPairUnordered` states it in either order |
| TemplateEngine.MatchingPairUnordered | Rust/sys-prog/template-engine/src/lib.rs:43-45 | the pair check holds exactly when both symbols occur, in either order |
| TemplateEngine.Find | Rust/sys-prog/template-engine/src/lib.rs:56-70 | the position of the first occurrence of the character, the length when it does not occur |
| TemplateEngine.FirstIndex | Rust/sys-prog/template-engine/src/lib.rs:56-70 | the first occurrence's position when the character occurs, 0 otherwise |
| TemplateEngine.GetIndexForSymbol | Rust/sys-prog/template-engine/src/lib.rs:56-70 | the scan reports whether the character occurs and, if it does, the index of its first occurrence, otherwise 0 |
| TemplateEngine.IndexForSymbolExample | Rust/sys-prog/template-engine/src/lib.rs:151-154 | the first '{' of "Hi {name} , welcome" is at 3 |
| TemplateEngine.GetExpressionData | Rust/sys-prog/template-engine/src/lib.rs:74-88 | the split succeeds exactly when the variable's slice start is at most the first '}' and the tail's start is within the line, with head and tail present |
| TemplateEngine.Reassemble | Rust/sys-prog/template-engine/src/lib.rs:74-88 | the slices around "{{" and "}}" glued back with them are the line |
| TemplateEngine.ExpressionDataReassembles | Rust/sys-prog/template-engine/src/lib.rs:74-88 | when the first '{' opens "{{" and the first '}' later opens "}}", head + "{{" + variable + "}}" + tail is the line |
| TemplateEngine.BuiltLineBraces | Rust/sys-prog/template-engine/src/lib.rs:75-78 | in a line built from a brace-free head, a '}'-free variable and any tail, the first '{' and the first '}' are those of the markers |
| TemplateEngine.ExpressionDataOfBuiltLine | Rust/sys-prog/template-engine/src/lib.rs:74-88 | splitting such a built line gives back its head, variable and tail |
| TemplateEngine.ExpressionDataExample | Rust/sys-prog/template-engine/src/lib.rs:156-163 | "Hi {{name}} , welcome" splits into "Hi ", "name" and " , welcome" |
| TemplateEngine.GetContentType | Rust/sys-prog/template-engine/src/lib.rs:94-121 | the classification panics only on a variable line whose split panics, and a variable line carries its split |
| TemplateEngine.ContentTypePriority | Rust/sys-prog/template-engine/src/lib.rs:94-121 | for-tag, if-tag, variable and literal each in both directions, in priority order; a literal is the line unchanged |
| TemplateEngine.UnrecognizedExactly | Rust/sys-prog/template-engine/src/lib.rs:107-118 | unrecognised exactly when the tag pair is there but no tag keyword or variable pair is |
| TemplateEngine.VariableLine | Rust/sys-prog/template-engine/src/lib.rs:110-113 | a line with the variable pair and no tag pair is a variable line carrying its split, or panics where the split does |
| TemplateEngine.ContentTypeExample | Rust/sys-prog/template-engine/src/lib.rs:176-186 | "Hi {{name}} , welcome" is a variable line with head "Hi ", variable "name" and tail " , welcome" |
| TemplateEngine.SymbolExamples | Rust/sys-prog/template-engine/src/lib.rs:167-174 | "{{Hello}}" contains "{{" and contains both "{{" and "}}" |
| TemplateEngine.Rendered | Rust/sys-prog/template-engine/src/lib.rs:126-142 | head, the variable's value or nothing, tail; `TemplateEngine.GenerateHtmlTemplateVar` is proved equal to it and `TemplateEngine.RenderSubstitutes` relates it to the line |
| TemplateEngine.GenerateHtmlTemplateVar | Rust/sys-prog/template-engine/src/lib.rs:126-142 | the pushes build head, the variable's value (nothing when unbound) and tail, an absent head or tail adding nothing |
| TemplateEngine.RenderSubstitutes | Rust/sys-prog/template-engine/src/lib.rs:126-142 | rendering a split line replaces its `{{variable}}` by the variable's value, or drops it when the variable is unbound |

## Left out

- Drawing is not modelled: every `draw` and `draw_rect`, the renderer, and the sprite x accumulation of `Platform::draw`. They only paint a canvas.
- Asset loading is not modelled. `initialize` fetches JSON, images and sound asynchronously. The model takes the sprite sheet, the background size and the segment templates as inputs, and keeps the None/Some guard.
- `GameLoop` and `engine.rs` are not modelled: the frame timing and the browser callbacks.
- Playing the jump sound is the identity on the context. Its failure is only logged.
- The browser UI is not modelled. The New Game button and its channel are the boolean `restart`.
- The random draw of `generate_next_segment` is the parameter `choice`.
- The segment templates `stone_and_platform` and `platform_and_stone` are abstract functions inside `Segments`. The `segments` module is not part of this model.
- `Rect::intersects`, `right` and `set_x` come from an engine module that is not part of this model. They are assumed to be the standard strict overlap test, `x + width`, and "move to x".
- Game.WalkTheDog.Initialize: requires `SheetComplete` of the sheet, and every world keeps it. A missing sprite cell panics in the source only when a box is computed for a frame that is actually shown. The source accepts any sheet.
- Game.WalkTheDog.Update: requires an initialised game. On an uninitialised game the source's `assert!` fails.
- Fixed-width integers are not modelled. Rust's `i16` and `u8` arithmetic can overflow; here integers are unbounded.
- Template-engine indices are character positions, not byte offsets. A multi-byte character, on which a Rust slice panics, is not modelled.
- Game.ReadyStep: states only that x is kept in Ready. The tick also moves y under gravity, and `Player.UpdateContext` states that.
- The older snapshot's `WalkTheDog::update` and `draw` are not modelled, because they refer to fields its `Walk` does not have.
- The older snapshot's `initialize` error path is not modelled. Its first level is modelled as `Snapshot.FirstLevel`.
- The DOM test of the game over to new game transition is not modelled. It checks only the browser UI.
- The tutorial programs, the template engine's `main.rs` and the wasm bootstrap are not modelled. They are I/O with no logic beyond it.
