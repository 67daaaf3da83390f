/** Screen-space geometry shared by the player and the obstacles: integer
    points, axis-aligned rectangles and positioned images. */
module Geometry {

  datatype Point = Point(x: int, y: int)

  /** An axis-aligned box given by its top-left corner and its size. */
  datatype Rect = Rect(position: Point, width: int, height: int)

  /** `Rect::new_from_x_y`. */
  function RectFrom(x: int, y: int, width: int, height: int): Rect {
    Rect(Point(x, y), width, height)
  }

  /** `Rect::default()`: everything zero. */
  const DefaultRect := RectFrom(0, 0, 0, 0)

  function Right(r: Rect): int {
    r.position.x + r.width
  }

  function Bottom(r: Rect): int {
    r.position.y + r.height
  }

  /** `Rect::set_x`: moves the box horizontally to `x`, keeping its size and its y. */
  function SetX(r: Rect, x: int): (s: Rect)
    ensures s.position.x == x && Right(s) == x + r.width
    ensures s.position.y == r.position.y && s.width == r.width && s.height == r.height
  {
    r.(position := r.position.(x := x))
  }

  /** `Rect::intersects`, the usual overlap test of two boxes with exclusive far edges. */
  predicate Intersects(a: Rect, b: Rect) {
    a.position.x < Right(b) && Right(a) > b.position.x &&
    a.position.y < Bottom(b) && Bottom(a) > b.position.y
  }

  /** An image drawn at a position; only its bounding box takes part in the simulation. */
  datatype Image = Image(boundingBox: Rect)

  /** `Image::new(element, position)`: the box has the element's size. */
  function NewImage(position: Point, width: int, height: int): Image {
    Image(Rect(position, width, height))
  }

  function ImageRight(i: Image): int {
    Right(i.boundingBox)
  }

  function ImageSetX(i: Image, x: int): Image {
    Image(SetX(i.boundingBox, x))
  }

  /** `Image::move_horizontally(dx)`: `set_x(x + dx)`. */
  function ImageMoved(i: Image, dx: int): (j: Image)
    ensures j.boundingBox.position.x == i.boundingBox.position.x + dx
    ensures ImageRight(j) == ImageRight(i) + dx
    ensures j.boundingBox.position.y == i.boundingBox.position.y
    ensures j.boundingBox.width == i.boundingBox.width && j.boundingBox.height == i.boundingBox.height
  {
    ImageSetX(i, i.boundingBox.position.x + dx)
  }
}
