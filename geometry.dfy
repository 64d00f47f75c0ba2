/** Pure geometry of the media transform: where a drag puts the media inside
    its container, and what size a resize handle produces. Pixels are whole
    numbers. */
module Geometry {

  datatype Point = Point(x: int, y: int)
  datatype Size = Size(width: int, height: int)

  /** The resize floor on each axis. */
  const MinSide: int := 100

  function Max(a: int, b: int): int { if a >= b then a else b }
  function Min(a: int, b: int): int { if a <= b then a else b }

  /** `Math.max(0, Math.min(v, hi))`: the nearest point to `v` in [0, hi],
      and 0 when that interval is empty. */
  function Clamp(v: int, hi: int): (r: int)
    ensures 0 <= r
    ensures 0 <= hi ==> r <= hi
    ensures hi < 0 ==> r == 0
    ensures 0 <= v <= hi ==> r == v
    ensures v < 0 ==> r == 0
    ensures 0 <= hi < v ==> r == hi
  {
    Max(0, Min(v, hi))
  }

  /** The media box at `pos` lies inside the container. */
  predicate Within(pos: Point, container: Size, media: Size) {
    0 <= pos.x <= container.width - media.width &&
    0 <= pos.y <= container.height - media.height
  }

  /** The grab offset recorded on pointer-down: pointer minus container
      origin minus the media's current position. */
  function GrabOffset(pointer: Point, origin: Point, pos: Point): Point {
    Point(pointer.x - origin.x - pos.x, pointer.y - origin.y - pos.y)
  }

  /** The position a drag move asks for before clamping. */
  function Requested(pointer: Point, origin: Point, offset: Point): Point {
    Point(pointer.x - origin.x - offset.x, pointer.y - origin.y - offset.y)
  }

  /** The position after a drag move: each axis of the requested position
      clamped into [0, container - media]. */
  function DragTo(pointer: Point, origin: Point, offset: Point, container: Size, media: Size): (p: Point)
    ensures p == Point(Clamp(Requested(pointer, origin, offset).x, container.width - media.width),
                       Clamp(Requested(pointer, origin, offset).y, container.height - media.height))
    ensures 0 <= p.x && 0 <= p.y
    ensures media.width <= container.width ==> p.x <= container.width - media.width
    ensures media.height <= container.height ==> p.y <= container.height - media.height
    ensures container.width < media.width ==> p.x == 0
    ensures container.height < media.height ==> p.y == 0
    ensures media.width <= container.width && media.height <= container.height ==> Within(p, container, media)
    ensures Within(Requested(pointer, origin, offset), container, media) ==> p == Requested(pointer, origin, offset)
  {
    var want := Requested(pointer, origin, offset);
    Point(Clamp(want.x, container.width - media.width), Clamp(want.y, container.height - media.height))
  }

  /** Pressing and then moving to the same pointer point leaves an in-bounds
      media where it was: the grab offset cancels. */
  lemma DragRoundTrip(pointer: Point, origin: Point, pos: Point, container: Size, media: Size)
    requires Within(pos, container, media)
    ensures DragTo(pointer, origin, GrabOffset(pointer, origin, pos), container, media) == pos
  {
  }

  /** While the container does not move, the media follows the pointer
      rigidly as long as the target stays inside the container. */
  lemma DragFollowsPointer(down: Point, move: Point, origin: Point, pos: Point, container: Size, media: Size)
    requires Within(Point(pos.x + move.x - down.x, pos.y + move.y - down.y), container, media)
    ensures DragTo(move, origin, GrabOffset(down, origin, pos), container, media)
         == Point(pos.x + move.x - down.x, pos.y + move.y - down.y)
  {
  }

  /** The eight resize handles drawn around a selected media. */
  datatype Handle = Top | Right | Bottom | Left | TopLeft | TopRight | BottomLeft | BottomRight

  predicate IsCorner(h: Handle) {
    h.TopLeft? || h.TopRight? || h.BottomLeft? || h.BottomRight?
  }

  /** How the horizontal pointer delta enters the width: left corners grow
      as the pointer moves left, right corners as it moves right. */
  function WidthSign(h: Handle): int {
    if h.TopLeft? || h.BottomLeft? then -1
    else if h.TopRight? || h.BottomRight? then 1
    else 0
  }

  /** How the vertical pointer delta enters the height. */
  function HeightSign(h: Handle): int {
    if h.TopLeft? || h.TopRight? then -1
    else if h.BottomLeft? || h.BottomRight? then 1
    else 0
  }

  /** Pointer movement since the resize started. */
  function Delta(from: Point, to: Point): Point {
    Point(to.x - from.x, to.y - from.y)
  }

  /** The size a resize move produces from the size at pointer-down. Only the
      four corners have a case; the edge handles fall through and keep the
      size at pointer-down. */
  function Resize(h: Handle, start: Size, delta: Point): (s: Size)
    ensures IsCorner(h) ==> MinSide <= s.width && MinSide <= s.height
    ensures IsCorner(h) ==> s.width == Max(MinSide, start.width + WidthSign(h) * delta.x)
    ensures IsCorner(h) ==> s.height == Max(MinSide, start.height + HeightSign(h) * delta.y)
    ensures !IsCorner(h) ==> s == start
  {
    match h
    case TopLeft => Size(Max(MinSide, start.width - delta.x), Max(MinSide, start.height - delta.y))
    case TopRight => Size(Max(MinSide, start.width + delta.x), Max(MinSide, start.height - delta.y))
    case BottomLeft => Size(Max(MinSide, start.width - delta.x), Max(MinSide, start.height + delta.y))
    case BottomRight => Size(Max(MinSide, start.width + delta.x), Max(MinSide, start.height + delta.y))
    case _ => start
  }

  /** Pulling any corner outward by `k` on both axes grows both sides by `k`:
      there is no upper bound on this path. */
  lemma ResizeOutward(h: Handle, start: Size, k: int)
    requires IsCorner(h)
    ensures Resize(h, start, Point(WidthSign(h) * k, HeightSign(h) * k))
         == Size(Max(MinSide, start.width + k), Max(MinSide, start.height + k))
  {
  }

  /** A pointer back at its pointer-down point restores a size that was at
      or above the floor, whatever the handle. */
  lemma ResizeRoundTrip(h: Handle, start: Size, at: Point)
    requires MinSide <= start.width && MinSide <= start.height
    ensures Resize(h, start, Delta(at, at)) == start
  {
  }
}
