/** The Red Hat Boy state machine: six states, each carrying an animation
    context, and six events. The typestate encoding of the original becomes a
    closed datatype and one total transition function. */
module Player {
  import opened Geometry

  const Height := 600
  /** Lowest y the player may have (the ground). */
  const Floor := 479
  const PlayerHeight := Height - Floor
  const StartingPoint := -20

  const IdleFrames := 29
  const RunningFrames := 23
  const JumpingFrames := 35
  const SlidingFrames := 14
  const FallingFrames := 29

  const RunningSpeed := 3
  const Gravity := 1

  /** The two constants in which the versions of the game differ. */
  datatype Physics = Physics(jumpSpeed: int, terminalVelocity: int)

  /** The constants of the current game. */
  const Current := Physics(-27, 18)

  /** A jump goes up, and gravity can pull down at least one unit per tick. */
  predicate ValidPhysics(k: Physics) {
    k.jumpSpeed < 0 < k.terminalVelocity
  }

  /** `RedHatBoyContext` without its audio handles. */
  datatype Context = Context(frame: nat, position: Point, velocity: Point)

  datatype State =
    | Idle(ctx: Context)
    | Running(ctx: Context)
    | Sliding(ctx: Context)
    | Jumping(ctx: Context)
    | Falling(ctx: Context)
    | KnockedOut(ctx: Context)

  datatype Event = Run | Slide | Update | Jump | KnockOut | Land(position: int)

  /** `RedHatBoyState::<Idle>::new`: standing on the floor at the starting point. */
  const NewIdle := Idle(Context(0, Point(StartingPoint, Floor), Point(0, 0)))

  // ---------------------------------------------------------------------
  // The context and its physics tick

  /** One physics tick of the context with the state's frame budget. */
  function UpdateContext(k: Physics, c: Context, frameCount: nat): (r: Context)
    ensures c.velocity.y < k.terminalVelocity ==> r.velocity.y == c.velocity.y + Gravity
    ensures c.velocity.y >= k.terminalVelocity ==> r.velocity.y == c.velocity.y
    ensures c.velocity.y <= k.terminalVelocity ==> r.velocity.y <= k.terminalVelocity
    ensures r.frame == if c.frame < frameCount then c.frame + 1 else 0
    ensures c.frame <= frameCount ==> r.frame <= frameCount
    ensures r.position.y <= Floor
    ensures r.position.y == if c.position.y + r.velocity.y > Floor then Floor else c.position.y + r.velocity.y
    ensures r.position.x == c.position.x && r.velocity.x == c.velocity.x
  {
    var vy := if c.velocity.y < k.terminalVelocity then c.velocity.y + Gravity else c.velocity.y;
    var frame := if c.frame < frameCount then c.frame + 1 else 0;
    var y := c.position.y + vy;
    Context(frame, c.position.(y := if y > Floor then Floor else y), c.velocity.(y := vy))
  }

  function ResetFrame(c: Context): Context {
    c.(frame := 0)
  }

  function SetVerticalVelocity(c: Context, y: int): Context {
    c.(velocity := c.velocity.(y := y))
  }

  function RunRight(c: Context): Context {
    c.(velocity := c.velocity.(x := c.velocity.x + RunningSpeed))
  }

  function Stop(c: Context): Context {
    c.(velocity := c.velocity.(x := 0))
  }

  /** Puts the feet of the player on a surface whose top is at `position`. */
  function SetOn(c: Context, position: int): Context {
    c.(position := c.position.(y := position - PlayerHeight))
  }

  /** Playing the jump sound is a side effect whose failure is only logged. */
  function PlayJumpSound(c: Context): Context {
    c
  }

  // ---------------------------------------------------------------------
  // The per-state operations

  function IdleUpdate(k: Physics, c: Context): State {
    Idle(UpdateContext(k, c, IdleFrames))
  }

  function IdleRun(c: Context): State {
    Running(RunRight(ResetFrame(c)))
  }

  function RunningUpdate(k: Physics, c: Context): State {
    Running(UpdateContext(k, c, RunningFrames))
  }

  function RunningJump(k: Physics, c: Context): State {
    Jumping(PlayJumpSound(SetVerticalVelocity(ResetFrame(c), k.jumpSpeed)))
  }

  function RunningSlide(c: Context): State {
    Sliding(ResetFrame(c))
  }

  function RunningKnockOut(c: Context): State {
    Falling(Stop(ResetFrame(c)))
  }

  function RunningLandOn(c: Context, position: int): State {
    Running(SetOn(c, position))
  }

  function JumpingLandOn(c: Context, position: int): State {
    Running(SetOn(ResetFrame(c), position))
  }

  /** A jump that reaches the floor lands on the bottom of the screen. */
  function JumpingUpdate(k: Physics, c: Context): State {
    var c' := UpdateContext(k, c, JumpingFrames);
    if c'.position.y >= Floor then JumpingLandOn(c', Height) else Jumping(c')
  }

  function JumpingKnockOut(c: Context): State {
    Falling(Stop(ResetFrame(c)))
  }

  function SlidingStand(c: Context): State {
    Running(ResetFrame(c))
  }

  /** A slide stands up once its frame counter reaches its budget. */
  function SlidingUpdate(k: Physics, c: Context): State {
    var c' := UpdateContext(k, c, SlidingFrames);
    if c'.frame >= SlidingFrames then SlidingStand(c') else Sliding(c')
  }

  function SlidingKnockOut(c: Context): State {
    Falling(Stop(ResetFrame(c)))
  }

  function SlidingLandOn(c: Context, position: int): State {
    Sliding(SetOn(c, position))
  }

  function FallingKnockOut(c: Context): State {
    KnockedOut(c)
  }

  /** A fall ends, knocked out, once its frame counter reaches its budget. */
  function FallingUpdate(k: Physics, c: Context): State {
    var c' := UpdateContext(k, c, FallingFrames);
    if c'.frame >= FallingFrames then FallingKnockOut(c') else Falling(c')
  }

  // ---------------------------------------------------------------------
  // The transition function

  /** The fourteen (state, event) pairs that have an arm of their own. */
  predicate HasArm(s: State, e: Event) {
    (s.Idle? && (e.Run? || e.Update?)) ||
    (s.Running? && (e.Jump? || e.Slide? || e.Update? || e.KnockOut? || e.Land?)) ||
    (s.Jumping? && (e.Update? || e.KnockOut? || e.Land?)) ||
    (s.Sliding? && (e.Update? || e.KnockOut? || e.Land?)) ||
    (s.Falling? && e.Update?)
  }

  /** How many ticks a state's frame counter runs before it wraps or ends the state. */
  function Budget(s: State): nat {
    match s
    case Idle(_) => IdleFrames
    case Running(_) => RunningFrames
    case Sliding(_) => SlidingFrames
    case Jumping(_) => JumpingFrames
    case Falling(_) => FallingFrames
    case KnockedOut(_) => FallingFrames
  }

  /** What every reachable state satisfies: the frame within its budget and the
      vertical velocity not above terminal velocity. */
  predicate Inv(k: Physics, s: State) {
    s.ctx.frame <= Budget(s) && s.ctx.velocity.y <= k.terminalVelocity
  }

  /** `RedHatBoyStateMachine::transition`. Total: a pair without an arm of its
      own leaves the state as it is, and the invariant is never broken. */
  function Transition(k: Physics, s: State, e: Event): (r: State)
    ensures !HasArm(s, e) ==> r == s
    ensures ValidPhysics(k) && Inv(k, s) ==> Inv(k, r)
  {
    match (s, e)
    case (Idle(c), Run) => IdleRun(c)
    case (Running(c), Jump) => RunningJump(k, c)
    case (Running(c), Slide) => RunningSlide(c)
    case (Idle(c), Update) => IdleUpdate(k, c)
    case (Running(c), Update) => RunningUpdate(k, c)
    case (Jumping(c), Update) => JumpingUpdate(k, c)
    case (Sliding(c), Update) => SlidingUpdate(k, c)
    case (Falling(c), Update) => FallingUpdate(k, c)
    case (Running(c), KnockOut) => RunningKnockOut(c)
    case (Jumping(c), KnockOut) => JumpingKnockOut(c)
    case (Sliding(c), KnockOut) => SlidingKnockOut(c)
    case (Jumping(c), Land(p)) => JumpingLandOn(c, p)
    case (Running(c), Land(p)) => RunningLandOn(c, p)
    case (Sliding(c), Land(p)) => SlidingLandOn(c, p)
    case _ => s
  }

  /** `RedHatBoyStateMachine::knocked_out`. */
  predicate IsKnockedOut(s: State) {
    s.KnockedOut?
  }

  /** The events applied one after the other. */
  function Apply(k: Physics, s: State, events: seq<Event>): State
    decreases |events|
  {
    if events == [] then s else Apply(k, Transition(k, s, events[0]), events[1..])
  }

  /** `n` ticks in a row. */
  function Updates(k: Physics, s: State, n: nat): State
    decreases n
  {
    if n == 0 then s else Updates(k, Transition(k, s, Update), n - 1)
  }

  // ---------------------------------------------------------------------
  // Frame names

  /** The sprite-name prefix of each state. */
  function StateName(s: State): string {
    match s
    case Idle(_) => "Idle"
    case Running(_) => "Run"
    case Sliding(_) => "Slide"
    case Jumping(_) => "Jump"
    case Falling(_) => "Dead"
    case KnockedOut(_) => "Dead"
  }

  function Digit(d: nat): char
    requires d < 10
  {
    "0123456789"[d]
  }

  /** The decimal digits of `n`, as Rust's `{}` formats an integer. */
  function Decimal(n: nat): (r: string)
    ensures |r| >= 1
    ensures forall i :: 0 <= i < |r| ==> '0' <= r[i] <= '9'
    decreases n
  {
    if n < 10 then [Digit(n)] else Decimal(n / 10) + [Digit(n % 10)]
  }

  /** The number a string of decimal digits writes, most significant first. */
  function DigitsValue(s: string): int
    decreases |s|
  {
    if s == [] then 0 else 10 * DigitsValue(s[..|s| - 1]) + (s[|s| - 1] as int - '0' as int)
  }

  lemma DigitValue(d: nat)
    requires d < 10
    ensures Digit(d) as int - '0' as int == d
  {
    if d == 0 {} else if d == 1 {} else if d == 2 {} else if d == 3 {} else if d == 4 {}
    else if d == 5 {} else if d == 6 {} else if d == 7 {} else if d == 8 {} else {}
  }

  /** `Decimal(n)` writes n, without leading zeros. */
  lemma {:induction false} DecimalValue(n: nat)
    ensures DigitsValue(Decimal(n)) == n
    ensures n > 0 ==> Decimal(n)[0] != '0'
    decreases n
  {
    DigitValue(n % 10);
    if n >= 10 {
      var s := Decimal(n);
      assert s[..|s| - 1] == Decimal(n / 10);
      DecimalValue(n / 10);
    } else {
      assert Decimal(n)[..0] == [];
    }
  }

  /** The sprite-sheet key of the current animation frame, e.g. "Run (3).png":
      three ticks per drawn frame. */
  function FrameName(s: State): string {
    StateName(s) + " (" + Decimal(s.ctx.frame / 3 + 1) + ").png"
  }

  /** Frames 6 to 8 of a run show the third running sprite. */
  lemma FrameNameExample(c: Context)
    requires 6 <= c.frame <= 8
    ensures FrameName(Running(c)) == "Run (3).png"
  {
    assert Decimal(c.frame / 3 + 1) == "3";
  }
}
