/** `RedHatBoy`: the player object that owns the state machine and the sprite
    sheet its boxes are measured from. */
module Boy {
  import opened Geometry
  import opened Player

  /** A rectangle of the sprite-sheet JSON. */
  datatype SheetRect = SheetRect(x: int, y: int, w: int, h: int)

  /** `Cell`: where a sprite is in the atlas and how it is offset when drawn. */
  datatype Cell = Cell(frame: SheetRect, spriteSourceSize: SheetRect)

  /** `Sheet`: sprite name to cell. */
  type Sheet = map<string, Cell>

  /** The sheet has a cell for the frame name of every state that keeps the
      frame budget, so that no reachable state hits "Cell not found". */
  ghost predicate SheetComplete(sheet: Sheet) {
    forall s: State :: s.ctx.frame <= Budget(s) ==> FrameName(s) in sheet
  }

  lemma HasCell(k: Physics, sheet: Sheet, s: State)
    requires SheetComplete(sheet) && Inv(k, s)
    ensures FrameName(s) in sheet
  {
  }

  /** `RedHatBoy::destination_box`: the current sprite's cell placed at the
      player's position. */
  function DestinationBox(sheet: Sheet, s: State): Rect
    requires FrameName(s) in sheet
  {
    var cell := sheet[FrameName(s)];
    Rect(Point(s.ctx.position.x + cell.spriteSourceSize.x, s.ctx.position.y + cell.spriteSourceSize.y),
         cell.frame.w, cell.frame.h)
  }

  const BoxXOffset := 18
  const BoxYOffset := 14
  const BoxWidthOffset := 28

  /** `RedHatBoy::bounding_box`: the destination box inset by 18 on the left
      and 10 on the right and by 14 at the top, sharing its bottom edge. */
  function PlayerBox(sheet: Sheet, s: State): (r: Rect)
    requires FrameName(s) in sheet
    ensures r.position.x == DestinationBox(sheet, s).position.x + BoxXOffset
    ensures Right(r) == Right(DestinationBox(sheet, s)) - (BoxWidthOffset - BoxXOffset)
    ensures r.position.y == DestinationBox(sheet, s).position.y + BoxYOffset
    ensures Bottom(r) == Bottom(DestinationBox(sheet, s))
  {
    var d := DestinationBox(sheet, s);
    Rect(Point(d.position.x + BoxXOffset, d.position.y + BoxYOffset),
         d.width - BoxWidthOffset, d.height - BoxYOffset)
  }

  class RedHatBoy {
    var stateMachine: State
    const sheet: Sheet
    const physics: Physics

    /** `RedHatBoy::new`: a fresh Idle player. */
    constructor (physics: Physics, sheet: Sheet)
      ensures this.physics == physics && this.sheet == sheet
      ensures stateMachine == NewIdle
    {
      this.physics := physics;
      this.sheet := sheet;
      stateMachine := NewIdle;
    }

    /** `RedHatBoy::reset`: a new Idle player with this one's sheet. */
    method Reset() returns (boy: RedHatBoy)
      ensures fresh(boy)
      ensures boy.physics == physics && boy.sheet == sheet && boy.stateMachine == NewIdle
    {
      boy := new RedHatBoy(physics, sheet);
    }

    method RunRight()
      modifies this
      ensures stateMachine == Transition(physics, old(stateMachine), Event.Run)
    {
      stateMachine := Transition(physics, stateMachine, Event.Run);
    }

    method Slide()
      modifies this
      ensures stateMachine == Transition(physics, old(stateMachine), Event.Slide)
    {
      stateMachine := Transition(physics, stateMachine, Event.Slide);
    }

    method Jump()
      modifies this
      ensures stateMachine == Transition(physics, old(stateMachine), Event.Jump)
    {
      stateMachine := Transition(physics, stateMachine, Event.Jump);
    }

    method Update()
      modifies this
      ensures stateMachine == Transition(physics, old(stateMachine), Event.Update)
    {
      stateMachine := Transition(physics, stateMachine, Event.Update);
    }

    method KnockOut()
      modifies this
      ensures stateMachine == Transition(physics, old(stateMachine), Event.KnockOut)
    {
      stateMachine := Transition(physics, stateMachine, Event.KnockOut);
    }

    method LandOn(position: int)
      modifies this
      ensures stateMachine == Transition(physics, old(stateMachine), Event.Land(position))
    {
      stateMachine := Transition(physics, stateMachine, Event.Land(position));
    }

    predicate KnockedOut()
      reads this
    {
      IsKnockedOut(stateMachine)
    }

    function PosY(): int
      reads this
    {
      stateMachine.ctx.position.y
    }

    function VelocityY(): int
      reads this
    {
      stateMachine.ctx.velocity.y
    }

    function WalkingSpeed(): int
      reads this
    {
      stateMachine.ctx.velocity.x
    }

    function BoundingBox(): Rect
      reads this
      requires FrameName(stateMachine) in sheet
    {
      PlayerBox(sheet, stateMachine)
    }
  }
}
