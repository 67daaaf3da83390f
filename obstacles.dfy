/** The two kinds of obstacle, a one-box Barrier and a Platform of several
    boxes, with the operations they share: shift horizontally, report the
    right edge, and resolve a collision with the player. */
module Obstacles {
  import opened Opt
  import opened Geometry
  import opened Player
  import opened Boy

  datatype Obstacle =
    | Barrier(image: Image)
    | Platform(sprites: seq<Cell>, boundingBoxes: seq<Rect>, position: Point)

  /** The cells of the named sprites, skipping names the sheet lacks
      (`filter_map` over `sheet.cell`). */
  function Cells(sheet: Sheet, names: seq<string>): (r: seq<Cell>)
    ensures |r| <= |names|
    ensures forall i :: 0 <= i < |r| ==> r[i] in sheet.Values
    ensures (forall i :: 0 <= i < |names| ==> names[i] in sheet) ==>
              |r| == |names| && forall i :: 0 <= i < |names| ==> r[i] == sheet[names[i]]
    decreases |names|
  {
    if names == [] then []
    else if names[0] in sheet then [sheet[names[0]]] + Cells(sheet, names[1..])
    else Cells(sheet, names[1..])
  }

  /** The cell of one name, none when the sheet lacks it. */
  function CellOf(sheet: Sheet, name: string): seq<Cell> {
    if name in sheet then [sheet[name]] else []
  }

  lemma CellsCons(sheet: Sheet, names: seq<string>)
    requires names != []
    ensures Cells(sheet, names) == CellOf(sheet, names[0]) + Cells(sheet, names[1..])
  {
  }

  /** The cells of a list of names are found name by name, in order: one
      name gives its cell, or nothing when the sheet lacks it, and the cells
      of two lists one after the other are their cells one after the other. */
  lemma {:induction false} CellsConcat(sheet: Sheet, a: seq<string>, b: seq<string>)
    ensures Cells(sheet, a + b) == Cells(sheet, a) + Cells(sheet, b)
    ensures |a| == 1 ==> Cells(sheet, a) == CellOf(sheet, a[0])
    decreases |a|
  {
    if a == [] {
      assert a + b == b;
    } else {
      var ab := a + b;
      assert ab[0] == a[0] && ab[1..] == a[1..] + b;
      CellsCons(sheet, ab);
      CellsCons(sheet, a);
      CellsConcat(sheet, a[1..], b);
      var h, x, y := CellOf(sheet, a[0]), Cells(sheet, a[1..]), Cells(sheet, b);
      assert h + (x + y) == (h + x) + y;
      if |a| == 1 {
        assert a[1..] == [];
      }
    }
  }

  /** A box given relative to a platform, placed relative to the screen. */
  function Offset(b: Rect, position: Point): Rect {
    RectFrom(b.position.x + position.x, b.position.y + position.y, b.width, b.height)
  }

  /** `Platform::new`: every bounding box is offset by the platform's position. */
  function NewPlatform(sheet: Sheet, position: Point, spriteNames: seq<string>, boxes: seq<Rect>): (r: Obstacle)
    ensures r.Platform? && r.position == position && |r.boundingBoxes| == |boxes|
    ensures forall i :: 0 <= i < |boxes| ==>
              r.boundingBoxes[i].position.x == boxes[i].position.x + position.x &&
              r.boundingBoxes[i].position.y == boxes[i].position.y + position.y &&
              r.boundingBoxes[i].width == boxes[i].width &&
              r.boundingBoxes[i].height == boxes[i].height
  {
    Platform(Cells(sheet, spriteNames), seq(|boxes|, i requires 0 <= i < |boxes| => Offset(boxes[i], position)), position)
  }

  function ShiftBox(b: Rect, dx: int): Rect {
    SetX(b, b.position.x + dx)
  }

  /** What `move_horizontally(dx)` leaves: the barrier's image, or the platform's
      position and each of its boxes, dx further right; nothing else changes. */
  function Moved(o: Obstacle, dx: int): (r: Obstacle)
    ensures r.Barrier? <==> o.Barrier?
    ensures o.Barrier? ==> r.image == ImageMoved(o.image, dx)
    ensures o.Platform? ==>
              r.position == Point(o.position.x + dx, o.position.y) && r.sprites == o.sprites &&
              |r.boundingBoxes| == |o.boundingBoxes| &&
              forall i :: 0 <= i < |o.boundingBoxes| ==>
                r.boundingBoxes[i].position == Point(o.boundingBoxes[i].position.x + dx, o.boundingBoxes[i].position.y) &&
                r.boundingBoxes[i].width == o.boundingBoxes[i].width &&
                r.boundingBoxes[i].height == o.boundingBoxes[i].height
  {
    match o
    case Barrier(image) => Barrier(ImageMoved(image, dx))
    case Platform(sprites, boxes, position) =>
      Platform(sprites, seq(|boxes|, i requires 0 <= i < |boxes| => ShiftBox(boxes[i], dx)), Point(position.x + dx, position.y))
  }

  /** `Obstacle::move_horizontally`; a platform shifts its boxes one at a time. */
  method MoveHorizontally(o: Obstacle, dx: int) returns (r: Obstacle)
    ensures r == Moved(o, dx)
  {
    match o
    case Barrier(image) =>
      r := Barrier(ImageMoved(image, dx));
    case Platform(sprites, boxes, position) =>
      var moved := boxes;
      var i := 0;
      while i < |moved|
        invariant 0 <= i <= |moved| == |boxes|
        invariant forall j :: 0 <= j < i ==> moved[j] == ShiftBox(boxes[j], dx)
        invariant forall j :: i <= j < |moved| ==> moved[j] == boxes[j]
      {
        moved := moved[i := ShiftBox(moved[i], dx)];
        i := i + 1;
      }
      r := Platform(sprites, moved, Point(position.x + dx, position.y));
  }

  /** `Obstacle::right`: the image's right edge, or the right edge of the last
      box of a platform (of `Rect::default()`, i.e. 0, when it has none). */
  function ObstacleRight(o: Obstacle): int {
    match o
    case Barrier(image) => ImageRight(image)
    case Platform(_, boxes, _) => if boxes == [] then Right(DefaultRect) else Right(boxes[|boxes| - 1])
  }

  /** Shifting moves the right edge by the same amount, except for a platform
      without boxes, whose right edge stays 0. */
  lemma MovedRight(o: Obstacle, dx: int)
    ensures ObstacleRight(Moved(o, dx)) ==
            if o.Platform? && o.boundingBoxes == [] then 0 else ObstacleRight(o) + dx
  {
  }

  /** Building a platform and then shifting it is building it shifted. */
  lemma NewPlatformMoved(sheet: Sheet, position: Point, spriteNames: seq<string>, boxes: seq<Rect>, dx: int)
    ensures Moved(NewPlatform(sheet, position, spriteNames, boxes), dx)
         == NewPlatform(sheet, Point(position.x + dx, position.y), spriteNames, boxes)
  {
    var a := Moved(NewPlatform(sheet, position, spriteNames, boxes), dx);
    var b := NewPlatform(sheet, Point(position.x + dx, position.y), spriteNames, boxes);
    assert a.boundingBoxes == b.boundingBoxes;
  }

  /** The index of the first box the player's box intersects (`iter().find`). */
  function FindIntersecting(boxes: seq<Rect>, player: Rect): (r: Option<nat>)
    ensures r.Some? ==> r.value < |boxes| && Intersects(player, boxes[r.value])
    ensures r.Some? ==> forall j :: 0 <= j < r.value ==> !Intersects(player, boxes[j])
    ensures r.None? <==> forall j :: 0 <= j < |boxes| ==> !Intersects(player, boxes[j])
    decreases |boxes|
  {
    if boxes == [] then None
    else if Intersects(player, boxes[0]) then Some(0)
    else match FindIntersecting(boxes[1..], player)
      case None => None
      case Some(i) => Some(i + 1)
  }

  /** `Obstacle::check_intersection`: the player's state after meeting `o`. */
  function Collide(k: Physics, sheet: Sheet, o: Obstacle, s: State): (r: State)
    requires FrameName(s) in sheet
    ensures ValidPhysics(k) && Inv(k, s) ==> Inv(k, r)
  {
    match o
    case Barrier(image) =>
      if Intersects(PlayerBox(sheet, s), image.boundingBox) then Transition(k, s, KnockOut) else s
    case Platform(_, boxes, position) =>
      match FindIntersecting(boxes, PlayerBox(sheet, s))
      case None => s
      case Some(i) =>
        if s.ctx.velocity.y > 0 && s.ctx.position.y < position.y then Transition(k, s, Land(boxes[i].position.y))
        else Transition(k, s, KnockOut)
  }

  /** A barrier knocks out whoever touches it, whatever the direction, and
      leaves alone whoever does not. */
  lemma BarrierPolicy(k: Physics, sheet: Sheet, image: Image, s: State)
    requires FrameName(s) in sheet
    ensures Intersects(PlayerBox(sheet, s), image.boundingBox) ==>
              Collide(k, sheet, Barrier(image), s) == Transition(k, s, KnockOut)
    ensures Intersects(PlayerBox(sheet, s), image.boundingBox) && (s.Running? || s.Jumping? || s.Sliding?) ==>
              Collide(k, sheet, Barrier(image), s).Falling?
    ensures !Intersects(PlayerBox(sheet, s), image.boundingBox) ==> Collide(k, sheet, Barrier(image), s) == s
  {
  }

  /** A platform reacts to the first of its boxes the player touches: a player
      moving down from above the platform lands on that box, any other is
      knocked out; a player touching no box is left alone. */
  lemma PlatformPolicy(k: Physics, sheet: Sheet, p: Obstacle, s: State, i: nat)
    requires p.Platform? && FrameName(s) in sheet
    requires i < |p.boundingBoxes| && Intersects(PlayerBox(sheet, s), p.boundingBoxes[i])
    requires forall j :: 0 <= j < i ==> !Intersects(PlayerBox(sheet, s), p.boundingBoxes[j])
    ensures s.ctx.velocity.y > 0 && s.ctx.position.y < p.position.y ==>
              Collide(k, sheet, p, s) == Transition(k, s, Land(p.boundingBoxes[i].position.y))
    ensures !(s.ctx.velocity.y > 0 && s.ctx.position.y < p.position.y) ==>
              Collide(k, sheet, p, s) == Transition(k, s, KnockOut)
  {
  }

  lemma PlatformMissed(k: Physics, sheet: Sheet, p: Obstacle, s: State)
    requires p.Platform? && FrameName(s) in sheet
    requires forall j :: 0 <= j < |p.boundingBoxes| ==> !Intersects(PlayerBox(sheet, s), p.boundingBoxes[j])
    ensures Collide(k, sheet, p, s) == s
  {
  }

  /** Scenario: a running or jumping player falling onto a platform from above
      runs on with its feet on the top of the box it touched. */
  lemma LandingOnPlatform(k: Physics, sheet: Sheet, p: Obstacle, s: State, i: nat)
    requires p.Platform? && FrameName(s) in sheet && (s.Running? || s.Jumping?)
    requires i < |p.boundingBoxes| && Intersects(PlayerBox(sheet, s), p.boundingBoxes[i])
    requires forall j :: 0 <= j < i ==> !Intersects(PlayerBox(sheet, s), p.boundingBoxes[j])
    requires s.ctx.velocity.y > 0 && s.ctx.position.y < p.position.y
    ensures Collide(k, sheet, p, s).Running?
    ensures Collide(k, sheet, p, s).ctx.position.y == p.boundingBoxes[i].position.y - PlayerHeight
  {
    PlatformPolicy(k, sheet, p, s, i);
  }

  /** `check_intersection` on the player object. */
  method CheckIntersection(o: Obstacle, boy: RedHatBoy)
    requires FrameName(boy.stateMachine) in boy.sheet
    modifies boy
    ensures boy.stateMachine == Collide(boy.physics, boy.sheet, o, old(boy.stateMachine))
  {
    match o
    case Barrier(image) =>
      if Intersects(boy.BoundingBox(), image.boundingBox) {
        boy.KnockOut();
      }
    case Platform(_, boxes, position) =>
      var found := FindIntersecting(boxes, boy.BoundingBox());
      if found.Some? {
        if boy.VelocityY() > 0 && boy.PosY() < position.y {
          boy.LandOn(boxes[found.value].position.y);
        } else {
          boy.KnockOut();
        }
      }
  }

  function Max(a: int, b: int): int {
    if a >= b then a else b
  }

  /** `rightmost`: the largest right edge in the list, 0 for an empty list. */
  function Rightmost(obstacles: seq<Obstacle>): (r: int)
    ensures obstacles == [] ==> r == 0
    ensures forall i :: 0 <= i < |obstacles| ==> ObstacleRight(obstacles[i]) <= r
    ensures obstacles != [] ==> exists i :: 0 <= i < |obstacles| && r == ObstacleRight(obstacles[i])
    decreases |obstacles|
  {
    if obstacles == [] then 0
    else if |obstacles| == 1 then ObstacleRight(obstacles[0])
    else
      var rest := Rightmost(obstacles[1..]);
      assert forall i :: 1 <= i < |obstacles| ==> obstacles[i] == obstacles[1..][i - 1];
      Max(ObstacleRight(obstacles[0]), rest)
  }
}
