/** Integer pixel coordinates, on the screen or inside a captured image. */
module Points {

  datatype Point = Point(x: int, y: int)

  /** Componentwise sum: translates `p` by the vector `q`. */
  function Add(p: Point, q: Point): Point
  {
    Point(p.x + q.x, p.y + q.y)
  }

  /** Componentwise difference: the vector that leads from `q` to `p`. */
  function Sub(p: Point, q: Point): Point
  {
    Point(p.x - q.x, p.y - q.y)
  }
}
