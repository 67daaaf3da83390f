/** What the player state machine guarantees: its transition table, the
    effects of entering each state, the physics bounds, and the exact number
    of ticks after which a slide, a fall and a jump end. */
module PlayerProperties {
  import opened Geometry
  import opened Player

  /** KnockedOut is absorbing: no sequence of events leaves it. */
  lemma {:induction false} KnockedOutAbsorbing(k: Physics, c: Context, events: seq<Event>)
    ensures Apply(k, KnockedOut(c), events) == KnockedOut(c)
    decreases |events|
  {
    if events != [] {
      assert Transition(k, KnockedOut(c), events[0]) == KnockedOut(c);
      KnockedOutAbsorbing(k, c, events[1..]);
    }
  }

  /** The frame budget and the terminal velocity hold along any sequence of events. */
  lemma {:induction false} InvAlongEvents(k: Physics, s: State, events: seq<Event>)
    requires ValidPhysics(k) && Inv(k, s)
    ensures Inv(k, Apply(k, s, events))
    decreases |events|
  {
    if events != [] {
      InvAlongEvents(k, Transition(k, s, events[0]), events[1..]);
    }
  }

  /** Idle + Run, Running + Jump, Running + Slide: the state changes, the frame
      restarts, and only the velocity the event is about changes. */
  lemma EntryEffects(k: Physics, c: Context)
    ensures Transition(k, Idle(c), Run)
         == Running(c.(frame := 0, velocity := Point(c.velocity.x + RunningSpeed, c.velocity.y)))
    ensures Transition(k, Running(c), Jump)
         == Jumping(c.(frame := 0, velocity := Point(c.velocity.x, k.jumpSpeed)))
    ensures Transition(k, Running(c), Slide) == Sliding(c.(frame := 0))
  {
  }

  /** KnockOut makes Running, Jumping and Sliding fall with the frame restarted
      and no horizontal speed; on every other state it does nothing. */
  lemma KnockOutEffects(k: Physics, s: State)
    ensures (s.Running? || s.Jumping? || s.Sliding?) ==>
              Transition(k, s, KnockOut) == Falling(s.ctx.(frame := 0, velocity := Point(0, s.ctx.velocity.y)))
    ensures (s.Idle? || s.Falling? || s.KnockedOut?) ==> Transition(k, s, KnockOut) == s
  {
  }

  /** Land(p) puts the player's feet at p: Jumping and Running run on, Sliding
      slides on, and only a landing jump restarts the frame. */
  lemma LandEffects(k: Physics, s: State, p: int)
    ensures s.Jumping? ==> Transition(k, s, Land(p)) == Running(s.ctx.(frame := 0, position := Point(s.ctx.position.x, p - PlayerHeight)))
    ensures s.Running? ==> Transition(k, s, Land(p)) == Running(s.ctx.(position := Point(s.ctx.position.x, p - PlayerHeight)))
    ensures s.Sliding? ==> Transition(k, s, Land(p)) == Sliding(s.ctx.(position := Point(s.ctx.position.x, p - PlayerHeight)))
    ensures (s.Idle? || s.Falling? || s.KnockedOut?) ==> Transition(k, s, Land(p)) == s
  {
  }

  /** Every tick of a live state leaves the player at or above the floor, and
      the vertical speed grows by gravity exactly while it is below the cap. */
  lemma UpdatePhysics(k: Physics, s: State)
    requires !s.KnockedOut?
    ensures Transition(k, s, Update).ctx.position.y <= Floor
    ensures Transition(k, s, Update).ctx.velocity.y
         == if s.ctx.velocity.y < k.terminalVelocity then s.ctx.velocity.y + Gravity else s.ctx.velocity.y
  {
  }

  /** A jumping tick that reaches the floor lands there, running, on frame 0. */
  lemma JumpingTouchesFloor(k: Physics, c: Context)
    requires UpdateContext(k, c, JumpingFrames).position.y >= Floor
    ensures Transition(k, Jumping(c), Update).Running?
    ensures Transition(k, Jumping(c), Update).ctx.position.y == Floor
    ensures Transition(k, Jumping(c), Update).ctx.frame == 0
  {
  }

  /** A slide on frame f < 14 is still sliding, on frame f + m, after m < 14 - f
      ticks, and stands up, running on frame 0, after exactly 14 - f ticks. */
  lemma {:induction false} SlidingCountdown(k: Physics, c: Context, m: nat)
    requires c.frame < SlidingFrames && c.frame + m <= SlidingFrames
    ensures c.frame + m < SlidingFrames ==>
              Updates(k, Sliding(c), m).Sliding? && Updates(k, Sliding(c), m).ctx.frame == c.frame + m
    ensures c.frame + m == SlidingFrames ==>
              Updates(k, Sliding(c), m).Running? && Updates(k, Sliding(c), m).ctx.frame == 0
    decreases m
  {
    if m > 0 {
      var c' := UpdateContext(k, c, SlidingFrames);
      if c.frame + 1 == SlidingFrames {
        assert Transition(k, Sliding(c), Update) == Running(c'.(frame := 0));
        assert Updates(k, Sliding(c), m) == Updates(k, Running(c'.(frame := 0)), 0);
      } else {
        assert Transition(k, Sliding(c), Update) == Sliding(c');
        SlidingCountdown(k, c', m - 1);
      }
    }
  }

  /** A slide entered from running stands up exactly SlidingFrames ticks later. */
  lemma SlideLastsSlidingFrames(k: Physics, c: Context, n: nat)
    requires n <= SlidingFrames
    ensures 0 < n < SlidingFrames ==> Updates(k, Transition(k, Running(c), Slide), n).Sliding?
    ensures n == SlidingFrames ==> Updates(k, Transition(k, Running(c), Slide), n).Running?
    ensures n == SlidingFrames ==> Updates(k, Transition(k, Running(c), Slide), n).ctx.frame == 0
  {
    SlidingCountdown(k, c.(frame := 0), n);
  }

  /** A fall on frame f < 29 is still falling after m < 29 - f ticks and is
      knocked out, on frame 29 and without horizontal speed lost or gained,
      after exactly 29 - f ticks. */
  lemma {:induction false} FallingCountdown(k: Physics, c: Context, m: nat)
    requires c.frame < FallingFrames && c.frame + m <= FallingFrames
    ensures c.frame + m < FallingFrames ==>
              Updates(k, Falling(c), m).Falling? && Updates(k, Falling(c), m).ctx.frame == c.frame + m
    ensures c.frame + m == FallingFrames ==>
              Updates(k, Falling(c), m).KnockedOut? && Updates(k, Falling(c), m).ctx.frame == FallingFrames
    ensures Updates(k, Falling(c), m).ctx.velocity.x == c.velocity.x
    decreases m
  {
    if m > 0 {
      var c' := UpdateContext(k, c, FallingFrames);
      if c.frame + 1 == FallingFrames {
        assert Transition(k, Falling(c), Update) == KnockedOut(c');
        assert Updates(k, Falling(c), m) == Updates(k, KnockedOut(c'), 0);
      } else {
        assert Transition(k, Falling(c), Update) == Falling(c');
        FallingCountdown(k, c', m - 1);
      }
    }
  }

  /** Knocking out a running, jumping or sliding player ends, knocked out,
      exactly FallingFrames ticks later. */
  lemma FallLastsFallingFrames(k: Physics, s: State, n: nat)
    requires s.Running? || s.Jumping? || s.Sliding?
    requires n <= FallingFrames
    ensures n < FallingFrames ==> Updates(k, Transition(k, s, KnockOut), n).Falling?
    ensures n == FallingFrames ==> Updates(k, Transition(k, s, KnockOut), n).KnockedOut?
    ensures Updates(k, Transition(k, s, KnockOut), n).ctx.velocity.x == 0
  {
    FallingCountdown(k, s.ctx.(frame := 0, velocity := Point(0, s.ctx.velocity.y)), n);
  }

  /** Every jump lands: from any jumping state at or above the floor there is a
      number of ticks after which the player runs on the floor, and it jumps
      until then. */
  lemma {:induction false} JumpLands(k: Physics, c: Context) returns (n: nat)
    requires ValidPhysics(k)
    requires c.velocity.y <= k.terminalVelocity && c.position.y <= Floor
    ensures n >= 1
    ensures Updates(k, Jumping(c), n).Running?
    ensures Updates(k, Jumping(c), n).ctx.position.y == Floor
    ensures Updates(k, Jumping(c), n).ctx.frame == 0
    ensures forall m :: 0 <= m < n ==> Updates(k, Jumping(c), m).Jumping?
    decreases k.terminalVelocity - c.velocity.y, Floor - c.position.y
  {
    var c' := UpdateContext(k, c, JumpingFrames);
    if c'.position.y >= Floor {
      n := 1;
      assert Updates(k, Jumping(c), 1) == Updates(k, Transition(k, Jumping(c), Update), 0);
    } else {
      assert Transition(k, Jumping(c), Update) == Jumping(c');
      var n' := JumpLands(k, c');
      n := n' + 1;
      forall m | 0 <= m < n
        ensures Updates(k, Jumping(c), m).Jumping?
      {
        if m > 0 {
          assert Updates(k, Jumping(c), m) == Updates(k, Jumping(c'), m - 1);
        }
      }
    }
  }

  /** Scenario: a running player jumps with the jump impulse and, ticking on,
      lands back on the floor running. */
  lemma JumpFromRunningLands(k: Physics, c: Context) returns (n: nat)
    requires ValidPhysics(k) && c.position.y <= Floor
    ensures Transition(k, Running(c), Jump).Jumping?
    ensures Transition(k, Running(c), Jump).ctx.velocity.y == k.jumpSpeed
    ensures Updates(k, Transition(k, Running(c), Jump), n).Running?
    ensures Updates(k, Transition(k, Running(c), Jump), n).ctx.position.y == Floor
  {
    n := JumpLands(k, c.(frame := 0, velocity := Point(c.velocity.x, k.jumpSpeed)));
  }
}
