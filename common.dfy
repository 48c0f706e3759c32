/** Small shared vocabulary: protocol integers, optional values and identities. */
module Common {

  /** A Wayland `uint` argument (serials, edge masks, flags). */
  newtype uint32 = x: int | 0 <= x < 0x1_0000_0000

  datatype Option<+T> = None | Some(value: T)

  /** Identity of a surface (the object address in the compositor). */
  type SurfaceId = nat

  /** Identity of an input device (a seat's device object). */
  type DeviceId = nat

  /** Identity of a client connection. */
  type ClientId = nat
}

/** Integer points, sizes and rectangles in the global coordinate space. */
module Geometry {

  datatype Point = Point(x: int, y: int)

  datatype Size = Size(width: int, height: int)

  /** A rectangle given by its top-left corner and its size. */
  datatype Rect = Rect(origin: Point, size: Size)

  /** A rectangle is valid when it has a positive width and height. */
  predicate IsValid(r: Rect)
  {
    r.size.width > 0 && r.size.height > 0
  }

  /** The offset that takes `q` to `p`. */
  function Sub(p: Point, q: Point): (d: Point)
    ensures q.x + d.x == p.x && q.y + d.y == p.y
  {
    Point(p.x - q.x, p.y - q.y)
  }
}
