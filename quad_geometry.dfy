/**
 * The arithmetic of one sprite quad: the shared index pattern, the
 * normalisation of the rotation, the four corner positions and the layout
 * of the 24 floats a quad occupies in the vertex buffer.
 * Float arithmetic is modelled by exact real arithmetic.
 */
module QuadGeometry {

  const MAX_BUFFERED_CALLS: nat := 1500
  const BUFFER_SIZE: nat := 24
  const VERTICES_PER_BUFFER: nat := 4
  const INDICES_PER_BUFFER: nat := 6

  /** The six indices of one quad: triangles (0,1,2) and (2,3,0) sharing the diagonal 0-2. */
  const QUAD_PATTERN: seq<nat> := [0, 1, 2, 2, 3, 0]

  /** The index stored at position `i` of the index buffer. */
  function IndexAt(i: nat): (r: nat)
    ensures r / VERTICES_PER_BUFFER == i / INDICES_PER_BUFFER
    ensures r % VERTICES_PER_BUFFER == QUAD_PATTERN[i % INDICES_PER_BUFFER]
    ensures i < MAX_BUFFERED_CALLS * INDICES_PER_BUFFER ==> r < MAX_BUFFERED_CALLS * VERTICES_PER_BUFFER
  {
    VERTICES_PER_BUFFER * (i / INDICES_PER_BUFFER) + QUAD_PATTERN[i % INDICES_PER_BUFFER]
  }

  /** Kotlin's `Int.toShort()`: keeps the low 16 bits, as a signed value. */
  function ToShort(x: int): (r: int)
    ensures -32768 <= r < 32768
    ensures (x - r) % 65536 == 0
    ensures -32768 <= x < 32768 ==> r == x
  {
    (x + 32768) % 65536 - 32768
  }

  /** Every index of the full buffer survives the conversion to a short unchanged. */
  lemma IndicesFitShort(i: nat)
    requires i < MAX_BUFFERED_CALLS * INDICES_PER_BUFFER
    ensures ToShort(IndexAt(i)) == IndexAt(i) < MAX_BUFFERED_CALLS * VERTICES_PER_BUFFER
  {
  }

  /** Truncation towards zero. */
  function Trunc(x: real): (n: int)
    ensures x >= 0.0 ==> n as real <= x < n as real + 1.0
    ensures x < 0.0 ==> n as real - 1.0 < x <= n as real
  {
    if x >= 0.0 then x.Floor else -((-x).Floor)
  }

  /**
   * `rotation %= 360f`: the remainder takes the sign of the dividend
   * (Kotlin's `%` on floats), computed here over exact reals.
   */
  function RotationRem(rotation: real): (r: real)
    ensures -360.0 < r < 360.0
    ensures rotation >= 0.0 ==> r >= 0.0
    ensures rotation <= 0.0 ==> r <= 0.0
    ensures ((rotation - r) / 360.0).Floor as real == (rotation - r) / 360.0
    ensures -360.0 < rotation < 360.0 ==> r == rotation
  {
    var q := Trunc(rotation / 360.0);
    assert -360.0 < rotation < 360.0 ==> q == 0;
    rotation - 360.0 * q as real
  }

  /** Normalising twice is normalising once. */
  lemma RotationRemIdempotent(rotation: real)
    ensures RotationRem(RotationRem(rotation)) == RotationRem(rotation)
  {
  }

  /** A region's size in texels (an `Int`) times the sprite's scale. */
  function Scaled(size: int, scale: real): (r: real)
    ensures scale == 1.0 ==> r == size as real
    ensures size == 0 || scale == 0.0 ==> r == 0.0
    ensures size >= 0 && scale >= 0.0 ==> r >= 0.0
  {
    size as real * scale
  }

  datatype Point = Point(x: real, y: real)

  /** Corners in buffer order: bottom-left, top-left, top-right, bottom-right. */
  datatype Quad = Quad(c1: Point, c2: Point, c3: Point, c4: Point)

  function Rotate(p: Point, cos: real, sin: real): (q: Point)
  {
    Point(cos * p.x - sin * p.y, sin * p.x + cos * p.y)
  }

  /** The axis-aligned quad of size `sizeX` by `sizeY` whose anchor sits at `(x, y)`. */
  function AxisQuad(x: real, y: real, sizeX: real, sizeY: real, anchorX: real, anchorY: real): (q: Quad)
    ensures q.c1 == Point(x - sizeX * anchorX, y - sizeY * anchorY)
    ensures q.c2.x == q.c1.x == q.c4.x - sizeX && q.c3.x == q.c4.x
    ensures q.c4.y == q.c1.y == q.c2.y - sizeY && q.c3.y == q.c2.y
  {
    var x1 := x - sizeX * anchorX;
    var y1 := y - sizeY * anchorY;
    Quad(Point(x1, y1), Point(x1, y1 + sizeY), Point(x1 + sizeX, y1 + sizeY), Point(x1 + sizeX, y1))
  }

  /**
   * The corners written for a sprite. With a non-zero rotation the first
   * three corners are rotated about the origin and the fourth is derived
   * from them (`x4 = x1 + (x3 - x2)`, `y4 = y3 - (y2 - y1)`).
   */
  function QuadCorners(x: real, y: real, sizeX: real, sizeY: real, anchorX: real, anchorY: real,
                       rotation: real, cos: real, sin: real): (q: Quad)
    ensures q.c1.x + q.c3.x == q.c2.x + q.c4.x && q.c1.y + q.c3.y == q.c2.y + q.c4.y
    ensures rotation == 0.0 ==> q == AxisQuad(x, y, sizeX, sizeY, anchorX, anchorY)
    ensures rotation != 0.0 ==>
      var a := AxisQuad(x, y, sizeX, sizeY, anchorX, anchorY);
      q.c1 == Rotate(a.c1, cos, sin) && q.c2 == Rotate(a.c2, cos, sin) && q.c3 == Rotate(a.c3, cos, sin)
  {
    var a := AxisQuad(x, y, sizeX, sizeY, anchorX, anchorY);
    if rotation == 0.0 then a
    else
      var r1 := Rotate(a.c1, cos, sin);
      var r2 := Rotate(a.c2, cos, sin);
      var r3 := Rotate(a.c3, cos, sin);
      Quad(r1, r2, r3, Point(r1.x + (r3.x - r2.x), r3.y - (r2.y - r1.y)))
  }

  /** With a non-zero rotation, the corners follow from the three rotated ones. */
  lemma RotatedCorners(x: real, y: real, sizeX: real, sizeY: real, anchorX: real, anchorY: real,
                       rotation: real, cos: real, sin: real, p1: Point, p2: Point, p3: Point)
    requires rotation != 0.0
    requires var a := AxisQuad(x, y, sizeX, sizeY, anchorX, anchorY);
      p1 == Rotate(a.c1, cos, sin) && p2 == Rotate(a.c2, cos, sin) && p3 == Rotate(a.c3, cos, sin)
    ensures QuadCorners(x, y, sizeX, sizeY, anchorX, anchorY, rotation, cos, sin)
      == Quad(p1, p2, p3, Point(p1.x + (p3.x - p2.x), p3.y - (p2.y - p1.y)))
  {
  }

  /** Over exact reals the derived fourth corner is the rotated fourth corner. */
  lemma FourthCornerIsRotated(x: real, y: real, sizeX: real, sizeY: real, anchorX: real, anchorY: real,
                              rotation: real, cos: real, sin: real)
    ensures var a := AxisQuad(x, y, sizeX, sizeY, anchorX, anchorY);
      QuadCorners(x, y, sizeX, sizeY, anchorX, anchorY, rotation, cos, sin).c4
        == if rotation == 0.0 then a.c4 else Rotate(a.c4, cos, sin)
  {
    var a := AxisQuad(x, y, sizeX, sizeY, anchorX, anchorY);
    if rotation != 0.0 {
      var x1, y1 := a.c1.x, a.c1.y;
      calc {
        cos * x1 - sin * y1 + ((cos * (x1 + sizeX) - sin * (y1 + sizeY)) - (cos * x1 - sin * (y1 + sizeY)));
        cos * x1 - sin * y1 + cos * sizeX;
        cos * (x1 + sizeX) - sin * y1;
      }
      calc {
        (sin * (x1 + sizeX) + cos * (y1 + sizeY)) - ((sin * x1 + cos * (y1 + sizeY)) - (sin * x1 + cos * y1));
        sin * (x1 + sizeX) + cos * y1;
      }
    }
  }

  function Sq(x: real): (r: real) { x * x }

  /** The difference of two rotated points is the rotated difference. */
  lemma RotateDifference(p: Point, q: Point, cos: real, sin: real)
    ensures Rotate(q, cos, sin).x - Rotate(p, cos, sin).x == cos * (q.x - p.x) - sin * (q.y - p.y)
    ensures Rotate(q, cos, sin).y - Rotate(p, cos, sin).y == sin * (q.x - p.x) + cos * (q.y - p.y)
  {
  }

  /** Rotating a vector keeps its squared length. */
  lemma RotationKeepsLength(cos: real, sin: real, dx: real, dy: real)
    requires cos * cos + sin * sin == 1.0
    ensures Sq(cos * dx - sin * dy) + Sq(sin * dx + cos * dy) == Sq(dx) + Sq(dy)
  {
    calc {
      Sq(cos * dx - sin * dy) + Sq(sin * dx + cos * dy);
      (cos * cos + sin * sin) * (dx * dx) + (cos * cos + sin * sin) * (dy * dy);
      Sq(dx) + Sq(dy);
    }
  }

  /** The rotated unit axes stay perpendicular. */
  lemma RotatedAxesPerpendicular(cos: real, sin: real, sizeX: real, sizeY: real)
    ensures (cos * 0.0 - sin * sizeY) * (cos * sizeX - sin * 0.0) + (sin * 0.0 + cos * sizeY) * (sin * sizeX + cos * 0.0) == 0.0
  {
    calc {
      (cos * 0.0 - sin * sizeY) * (cos * sizeX - sin * 0.0) + (sin * 0.0 + cos * sizeY) * (sin * sizeX + cos * 0.0);
      (sin * cos) * (sizeY * sizeX) - (sin * cos) * (sizeY * sizeX);
      0.0;
    }
  }

  /**
   * When `cos` and `sin` are the cosine and sine of one angle, the written
   * quad is a rectangle with the sprite's size: the side 1-2 has length
   * `sizeY`, the side 1-4 has length `sizeX`, and they are perpendicular.
   */
  lemma RotatedQuadIsRectangle(x: real, y: real, sizeX: real, sizeY: real, anchorX: real, anchorY: real,
                               rotation: real, cos: real, sin: real)
    requires cos * cos + sin * sin == 1.0
    ensures var q := QuadCorners(x, y, sizeX, sizeY, anchorX, anchorY, rotation, cos, sin);
      && Sq(q.c2.x - q.c1.x) + Sq(q.c2.y - q.c1.y) == Sq(sizeY)
      && Sq(q.c4.x - q.c1.x) + Sq(q.c4.y - q.c1.y) == Sq(sizeX)
      && (q.c2.x - q.c1.x) * (q.c4.x - q.c1.x) + (q.c2.y - q.c1.y) * (q.c4.y - q.c1.y) == 0.0
  {
    if rotation == 0.0 {
      AxisQuadIsRectangle(x, y, sizeX, sizeY, anchorX, anchorY, rotation, cos, sin);
    } else {
      TiltedQuadIsRectangle(x, y, sizeX, sizeY, anchorX, anchorY, rotation, cos, sin);
    }
  }

  /** The unrotated case of `RotatedQuadIsRectangle`. */
  lemma AxisQuadIsRectangle(x: real, y: real, sizeX: real, sizeY: real, anchorX: real, anchorY: real,
                            rotation: real, cos: real, sin: real)
    requires rotation == 0.0
    ensures var q := QuadCorners(x, y, sizeX, sizeY, anchorX, anchorY, rotation, cos, sin);
      && Sq(q.c2.x - q.c1.x) + Sq(q.c2.y - q.c1.y) == Sq(sizeY)
      && Sq(q.c4.x - q.c1.x) + Sq(q.c4.y - q.c1.y) == Sq(sizeX)
      && (q.c2.x - q.c1.x) * (q.c4.x - q.c1.x) + (q.c2.y - q.c1.y) * (q.c4.y - q.c1.y) == 0.0
  {
    var q := QuadCorners(x, y, sizeX, sizeY, anchorX, anchorY, rotation, cos, sin);
    assert q.c2.x - q.c1.x == 0.0 && q.c2.y - q.c1.y == sizeY;
    assert q.c4.x - q.c1.x == sizeX && q.c4.y - q.c1.y == 0.0;
  }

  /** The rotated case of `RotatedQuadIsRectangle`. */
  lemma TiltedQuadIsRectangle(x: real, y: real, sizeX: real, sizeY: real, anchorX: real, anchorY: real,
                              rotation: real, cos: real, sin: real)
    requires rotation != 0.0 && cos * cos + sin * sin == 1.0
    ensures var q := QuadCorners(x, y, sizeX, sizeY, anchorX, anchorY, rotation, cos, sin);
      && Sq(q.c2.x - q.c1.x) + Sq(q.c2.y - q.c1.y) == Sq(sizeY)
      && Sq(q.c4.x - q.c1.x) + Sq(q.c4.y - q.c1.y) == Sq(sizeX)
      && (q.c2.x - q.c1.x) * (q.c4.x - q.c1.x) + (q.c2.y - q.c1.y) * (q.c4.y - q.c1.y) == 0.0
  {
    var q := QuadCorners(x, y, sizeX, sizeY, anchorX, anchorY, rotation, cos, sin);
    RotatedSides(x, y, sizeX, sizeY, anchorX, anchorY, rotation, cos, sin);
    RotatedSidesAreRectangle(q, cos, sin, sizeX, sizeY);
  }

  /** With a non-zero rotation, the sides 1-2 and 1-4 are the box's axes rotated. */
  lemma RotatedSides(x: real, y: real, sizeX: real, sizeY: real, anchorX: real, anchorY: real,
                     rotation: real, cos: real, sin: real)
    requires rotation != 0.0
    ensures var q := QuadCorners(x, y, sizeX, sizeY, anchorX, anchorY, rotation, cos, sin);
      && q.c2.x - q.c1.x == cos * 0.0 - sin * sizeY && q.c2.y - q.c1.y == sin * 0.0 + cos * sizeY
      && q.c4.x - q.c1.x == cos * sizeX - sin * 0.0 && q.c4.y - q.c1.y == sin * sizeX + cos * 0.0
  {
    var q := QuadCorners(x, y, sizeX, sizeY, anchorX, anchorY, rotation, cos, sin);
    var a := AxisQuad(x, y, sizeX, sizeY, anchorX, anchorY);
    FourthCornerIsRotated(x, y, sizeX, sizeY, anchorX, anchorY, rotation, cos, sin);
    assert q.c1 == Rotate(a.c1, cos, sin) && q.c2 == Rotate(a.c2, cos, sin) && q.c4 == Rotate(a.c4, cos, sin);
    RotateDifference(a.c1, a.c2, cos, sin);
    RotateDifference(a.c1, a.c4, cos, sin);
    assert a.c2.x - a.c1.x == 0.0 && a.c2.y - a.c1.y == sizeY;
    assert a.c4.x - a.c1.x == sizeX && a.c4.y - a.c1.y == 0.0;
  }

  /** The sides 1-2 and 1-4 of a quad, when they are the rotated axes of a `sizeX` by `sizeY` box. */
  lemma RotatedSidesAreRectangle(q: Quad, cos: real, sin: real, sizeX: real, sizeY: real)
    requires cos * cos + sin * sin == 1.0
    requires q.c2.x - q.c1.x == cos * 0.0 - sin * sizeY && q.c2.y - q.c1.y == sin * 0.0 + cos * sizeY
    requires q.c4.x - q.c1.x == cos * sizeX - sin * 0.0 && q.c4.y - q.c1.y == sin * sizeX + cos * 0.0
    ensures Sq(q.c2.x - q.c1.x) + Sq(q.c2.y - q.c1.y) == Sq(sizeY)
    ensures Sq(q.c4.x - q.c1.x) + Sq(q.c4.y - q.c1.y) == Sq(sizeX)
    ensures (q.c2.x - q.c1.x) * (q.c4.x - q.c1.x) + (q.c2.y - q.c1.y) * (q.c4.y - q.c1.y) == 0.0
  {
    RotationKeepsLength(cos, sin, 0.0, sizeY);
    RotationKeepsLength(cos, sin, sizeX, 0.0);
    RotatedAxesPerpendicular(cos, sin, sizeX, sizeY);
  }

  /** One vertex: position (x, y, z), packed colour, texture coordinates (u, v). */
  function VertexData(p: Point, z: real, color: real, u: real, v: real): (r: seq<real>)
  {
    [p.x, p.y, z, color, u, v]
  }

  /**
   * The 24 floats of one quad. Corner colours are the packed bottom-left,
   * top-left, top-right and bottom-right colours.
   */
  function VertexChunk(q: Quad, z: real, bottomLeft: real, topLeft: real, topRight: real, bottomRight: real,
                       u: real, v: real, u2: real, v2: real): (r: seq<real>)
    ensures |r| == BUFFER_SIZE
  {
    VertexData(q.c1, z, bottomLeft, u, v2) + VertexData(q.c2, z, topLeft, u, v)
      + VertexData(q.c3, z, topRight, u2, v) + VertexData(q.c4, z, bottomRight, u2, v2)
  }

  /**
   * Where each value lands in a chunk: the corners in buffer order, each
   * followed by the depth, its corner colour and its texture coordinates.
   */
  lemma VertexChunkLayout(q: Quad, z: real, bottomLeft: real, topLeft: real, topRight: real, bottomRight: real,
                          u: real, v: real, u2: real, v2: real)
    ensures var r := VertexChunk(q, z, bottomLeft, topLeft, topRight, bottomRight, u, v, u2, v2);
      && r[0] == q.c1.x && r[1] == q.c1.y && r[6] == q.c2.x && r[7] == q.c2.y
      && r[12] == q.c3.x && r[13] == q.c3.y && r[18] == q.c4.x && r[19] == q.c4.y
      && r[2] == z && r[8] == z && r[14] == z && r[20] == z
      && r[3] == bottomLeft && r[9] == topLeft && r[15] == topRight && r[21] == bottomRight
      && r[4] == u && r[5] == v2 && r[10] == u && r[11] == v
      && r[16] == u2 && r[17] == v && r[22] == u2 && r[23] == v2
  {
  }
}
