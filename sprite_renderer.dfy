/**
 * The quad-batching sprite renderer. It owns a vertex array of 1500 quads
 * of 24 floats and an index array of 1500 quads of 6 indices, and flushes
 * the buffered quads to the GPU when the texture changes, when the buffer
 * is full, at `end()` and when the projection changes during a batch.
 *
 * The GPU is not modelled: each flush appends an event to the ghost
 * `trace`, recording the texture bound, the projection used, the number of
 * quads drawn and the floats uploaded. Every state-changing method is
 * specified by the matching step of `BatchSpec`, where the flush policy
 * is proved.
 */
module SpriteRendering {
  import opened GdxTypes
  import opened QuadGeometry
  import BatchSpec

  /** The fields of a sprite that the renderer reads (the sprite class itself is not part of this model). */
  class Sprite {
    var x: real
    var y: real
    var z: real
    var scaleX: real
    var scaleY: real
    var anchorX: real
    var anchorY: real
    /** In degrees; `draw` normalises it in place. */
    var rotation: real
    var textureRegion: TextureRegion?
    var colors: Corner -> Color

    function GetColor(corner: Corner): (color: Color)
      reads this
    {
      colors(corner)
    }
  }

  /** The `init` loop filling the index array with the two-triangle pattern, quad after quad. */
  method GenerateIndices() returns (indices: array<int>)
    ensures fresh(indices) && indices.Length == MAX_BUFFERED_CALLS * INDICES_PER_BUFFER
    ensures forall i :: 0 <= i < indices.Length ==> indices[i] == IndexAt(i)
  {
    indices := new int[MAX_BUFFERED_CALLS * INDICES_PER_BUFFER];
    for i := 0 to indices.Length
      invariant forall j :: 0 <= j < i ==> indices[j] == IndexAt(j)
    {
      var slot := i % 6;
      var idx := (i / 6) * 4;
      if slot == 0 || slot == 5 { indices[i] := ToShort(idx); }
      if slot == 1 { indices[i] := ToShort(idx + 1); }
      if slot == 2 || slot == 3 { indices[i] := ToShort(idx + 2); }
      if slot == 4 { indices[i] := ToShort(idx + 3); }
    }
  }

  /** Overwriting `chunk` at `idx` extends the prefix before `idx` by `chunk`. */
  lemma PrefixAfterWrite(before: seq<real>, after: seq<real>, idx: nat, chunk: seq<real>)
    requires |before| == |after| && idx + |chunk| <= |after|
    requires forall j :: 0 <= j < |after| ==> after[j] == if idx <= j < idx + |chunk| then chunk[j - idx] else before[j]
    ensures after[..idx + |chunk|] == before[..idx] + chunk
  {
  }

  /** The index buffer holds, slot by slot, the two triangles of each quad. */
  ghost predicate IndexPattern(indices: array<int>)
    reads indices
  {
    forall i :: 0 <= i < indices.Length ==> indices[i] == IndexAt(i)
  }

  class SpriteRenderer {
    /** `MathUtils.cosDeg`, `MathUtils.sinDeg` and `Color.toFloatBits`, which this model does not define. */
    const cosDeg: real -> real
    const sinDeg: real -> real
    const toFloatBits: Color -> real

    const vertices: array<real>
    const indices: array<int>

    /** `lateinit`: `None` until the first `setProjectionMatrix`. */
    var projectionMatrix: Option<Matrix4>
    var active: bool
    var gpuCalls: int
    var bufferedCalls: nat
    var cachedTexture: Texture?

    /** The draw calls issued so far. */
    ghost var trace: seq<BatchSpec.Event>

    ghost predicate Valid()
      reads this, vertices, indices
    {
      && vertices.Length == MAX_BUFFERED_CALLS * BUFFER_SIZE
      && indices.Length == MAX_BUFFERED_CALLS * INDICES_PER_BUFFER
      && IndexPattern(indices)
      && bufferedCalls <= MAX_BUFFERED_CALLS
      && (bufferedCalls > 0 ==> cachedTexture != null)
    }

    /** The renderer's bookkeeping, with the floats of the buffered quads. */
    ghost function Snapshot(): (s: BatchSpec.State)
      reads this, vertices, indices
      requires Valid()
      ensures BatchSpec.Inv(s)
    {
      BatchSpec.State(active, gpuCalls, bufferedCalls,
                      if cachedTexture == null then None else var t: Texture := cachedTexture; Some(t),
                      projectionMatrix, vertices[..bufferedCalls * BUFFER_SIZE])
    }

    constructor (cosDeg: real -> real, sinDeg: real -> real, toFloatBits: Color -> real)
      ensures Valid() && fresh(vertices) && fresh(indices)
      ensures this.cosDeg == cosDeg && this.sinDeg == sinDeg && this.toFloatBits == toFloatBits
      ensures Snapshot() == BatchSpec.State(false, 0, 0, None, None, []) && trace == []
    {
      this.cosDeg, this.sinDeg, this.toFloatBits := cosDeg, sinDeg, toFloatBits;
      vertices := new real[MAX_BUFFERED_CALLS * BUFFER_SIZE];
      var generated := GenerateIndices();
      indices := generated;
      projectionMatrix := None;
      active, gpuCalls, bufferedCalls, cachedTexture := false, 0, 0, null;
      trace := [];
    }

    /** The 24 floats `appendVertices` writes for `sprite`. */
    function QuadFor(sprite: Sprite): (q: seq<real>)
      reads sprite
      requires sprite.textureRegion != null
      ensures |q| == BUFFER_SIZE
    {
      var region := sprite.textureRegion;
      var rotation := RotationRem(sprite.rotation);
      var sizeX := Scaled(region.regionWidth, sprite.scaleX);
      var sizeY := Scaled(region.regionHeight, sprite.scaleY);
      var corners := QuadCorners(sprite.x, sprite.y, sizeX, sizeY, sprite.anchorX, sprite.anchorY,
                                 rotation, cosDeg(rotation), sinDeg(rotation));
      VertexChunk(corners, sprite.z,
                  toFloatBits(sprite.GetColor(BottomLeft)), toFloatBits(sprite.GetColor(TopLeft)),
                  toFloatBits(sprite.GetColor(TopRight)), toFloatBits(sprite.GetColor(BottomRight)),
                  region.u, region.v, region.u2, region.v2)
    }

    /** What a draw of `sprite` asks of the flush policy: nothing when it has no texture region. */
    function DrawOf(sprite: Sprite): (d: Option<BatchSpec.Draw>)
      reads sprite
      ensures d.None? <==> sprite.textureRegion == null
      ensures d.Some? ==> d.value.texture == sprite.textureRegion.texture && |d.value.quad| == BUFFER_SIZE
    {
      if sprite.textureRegion == null then None
      else Some(BatchSpec.Draw(sprite.textureRegion.texture, QuadFor(sprite)))
    }

    method Begin() returns (o: Outcome)
      requires Valid()
      modifies this
      ensures Valid()
      ensures var st := BatchSpec.BeginStep(old(Snapshot()));
        o == st.outcome && Snapshot() == st.state && trace == old(trace) + st.events
    {
      if active {
        return Fail(BatchSpec.ALREADY_ACTIVE);
      }
      gpuCalls := 0;
      // shaderProgram.begin()
      active := true;
      o := Pass;
    }

    method Draw(sprite: Sprite) returns (o: Outcome)
      requires Valid()
      modifies this, vertices, sprite`rotation
      ensures Valid()
      ensures var st := BatchSpec.DrawStep(old(Snapshot()), old(DrawOf(sprite)));
        o == st.outcome && Snapshot() == st.state && trace == old(trace) + st.events
      ensures sprite.rotation == if o.Pass? then RotationRem(old(sprite.rotation)) else old(sprite.rotation)
      ensures o.Fail? ==> vertices[..] == old(vertices[..])
      ensures o.Pass? ==> forall k :: 0 <= k < vertices.Length && !(k / BUFFER_SIZE == bufferedCalls - 1)
                            ==> vertices[k] == old(vertices[k])
    {
      if sprite.textureRegion == null {
        return Fail(BatchSpec.NO_TEXTURE);
      }
      o := ValidateCachedTexture(sprite.textureRegion.texture);
      if o.Fail? {
        return;
      }
      // validateShader(sprite) does nothing
      o := BufferQuad(sprite);
    }

    /** The end of `draw`: flushes a full buffer, then appends the sprite's quad and counts it. */
    method BufferQuad(sprite: Sprite) returns (o: Outcome)
      requires Valid() && sprite.textureRegion != null && cachedTexture != null
      modifies this, vertices, sprite`rotation
      ensures Valid()
      ensures var st := BatchSpec.BufferStep(old(Snapshot()), old(QuadFor(sprite)));
        o == st.outcome && Snapshot() == st.state && trace == old(trace) + st.events
      ensures sprite.rotation == if o.Pass? then RotationRem(old(sprite.rotation)) else old(sprite.rotation)
      ensures o.Fail? ==> vertices[..] == old(vertices[..])
      ensures o.Pass? ==> forall k :: 0 <= k < vertices.Length && !(k / BUFFER_SIZE == bufferedCalls - 1)
                            ==> vertices[k] == old(vertices[k])
    {
      if bufferedCalls == MAX_BUFFERED_CALLS {
        o := Flush();
        if o.Fail? {
          return;
        }
      }
      AppendQuad(sprite);
      o := Pass;
    }

    /** `appendVertices(sprite)` then `bufferedCalls++`: one more quad is buffered. */
    method AppendQuad(sprite: Sprite)
      requires Valid() && sprite.textureRegion != null && cachedTexture != null
      requires bufferedCalls < MAX_BUFFERED_CALLS
      modifies this, vertices, sprite`rotation
      ensures Valid() && trace == old(trace)
      ensures Snapshot() == old(Snapshot().(buffered := bufferedCalls + 1, pending := Snapshot().pending + QuadFor(sprite)))
      ensures sprite.rotation == RotationRem(old(sprite.rotation))
      ensures forall k :: 0 <= k < vertices.Length && !(k / BUFFER_SIZE == bufferedCalls - 1)
                ==> vertices[k] == old(vertices[k])
    {
      ghost var s1 := Snapshot();
      ghost var before := vertices[..];
      ghost var quad := QuadFor(sprite);
      AppendVertices(sprite);
      PrefixAfterWrite(before, vertices[..], bufferedCalls * BUFFER_SIZE, quad);
      bufferedCalls := bufferedCalls + 1;
      assert Snapshot() == s1.(buffered := s1.buffered + 1, pending := s1.pending + quad);
    }

    method End() returns (o: Outcome)
      requires Valid()
      modifies this
      ensures Valid()
      ensures var st := BatchSpec.EndStep(old(Snapshot()));
        o == st.outcome && Snapshot() == st.state && trace == old(trace) + st.events
    {
      if !active {
        return Fail(BatchSpec.NOT_ACTIVE);
      }
      if bufferedCalls > 0 {
        o := Flush();
        if o.Fail? {
          return;
        }
      }
      cachedTexture := null;
      active := false;
      // shaderProgram.end()
      gpuCalls := 0;
      o := Pass;
    }

    method SetProjectionMatrix(projectionMatrix: Matrix4) returns (o: Outcome)
      requires Valid()
      modifies this
      ensures Valid()
      ensures var st := BatchSpec.SetProjectionStep(old(Snapshot()), projectionMatrix);
        o == st.outcome && Snapshot() == st.state && trace == old(trace) + st.events
    {
      if active {
        o := Flush();
        if o.Fail? {
          return;
        }
      }
      this.projectionMatrix := Some(projectionMatrix);
      o := Pass;
    }

    /** The six floats of one vertex, written at `k`; no other slot changes. */
    method PutVertex(k: nat, x: real, y: real, z: real, color: real, u: real, v: real)
      requires k + 6 <= vertices.Length
      modifies vertices
      ensures vertices[k] == x && vertices[k + 1] == y && vertices[k + 2] == z
      ensures vertices[k + 3] == color && vertices[k + 4] == u && vertices[k + 5] == v
      ensures forall j :: 0 <= j < vertices.Length && !(k <= j < k + 6) ==> vertices[j] == old(vertices[j])
    {
      vertices[k] := x;
      vertices[k + 1] := y;
      vertices[k + 2] := z;
      vertices[k + 3] := color;
      vertices[k + 4] := u;
      vertices[k + 5] := v;
    }

    /**
     * Writes the quad of `sprite` into the 24 slots after the buffered
     * quads, normalising the sprite's rotation first; no other slot changes.
     */
    method AppendVertices(sprite: Sprite)
      requires Valid() && bufferedCalls < MAX_BUFFERED_CALLS && sprite.textureRegion != null
      modifies vertices, sprite`rotation
      ensures sprite.rotation == RotationRem(old(sprite.rotation))
      ensures var idx := bufferedCalls * BUFFER_SIZE;
        forall j :: 0 <= j < vertices.Length ==>
          vertices[j] == if idx <= j < idx + BUFFER_SIZE then old(QuadFor(sprite))[j - idx] else old(vertices[j])
    {
      ghost var q := QuadFor(sprite);
      var idx := bufferedCalls * BUFFER_SIZE;
      var region := sprite.textureRegion;
      var sizeX := Scaled(region.regionWidth, sprite.scaleX);
      var sizeY := Scaled(region.regionHeight, sprite.scaleY);

      RotationRemIdempotent(sprite.rotation);
      sprite.rotation := RotationRem(sprite.rotation);
      var corners := CornersOf(sprite.x, sprite.y, sizeX, sizeY, sprite.anchorX, sprite.anchorY, sprite.rotation);

      var bottomLeft := toFloatBits(sprite.GetColor(BottomLeft));
      var topLeft := toFloatBits(sprite.GetColor(TopLeft));
      var topRight := toFloatBits(sprite.GetColor(TopRight));
      var bottomRight := toFloatBits(sprite.GetColor(BottomRight));
      assert q == VertexChunk(corners, sprite.z, bottomLeft, topLeft, topRight, bottomRight,
                              region.u, region.v, region.u2, region.v2);
      PutQuad(idx, corners, sprite.z, bottomLeft, topLeft, topRight, bottomRight,
              region.u, region.v, region.u2, region.v2);
    }

    /**
     * The corners of a sprite quad: the axis-aligned quad around the anchor,
     * rotated by `rotation` degrees when that is not zero.
     */
    method CornersOf(x: real, y: real, sizeX: real, sizeY: real, anchorX: real, anchorY: real, rotation: real)
      returns (corners: Quad)
      ensures corners == QuadCorners(x, y, sizeX, sizeY, anchorX, anchorY, rotation, cosDeg(rotation), sinDeg(rotation))
    {
      var x1 := x - (sizeX * anchorX);
      var y1 := y - (sizeY * anchorY);
      var x2 := x1;
      var y2 := y1 + sizeY;
      var x3 := x1 + sizeX;
      var y3 := y1 + sizeY;
      var x4 := x1 + sizeX;
      var y4 := y1;
      ghost var axis := AxisQuad(x, y, sizeX, sizeY, anchorX, anchorY);
      assert axis == Quad(Point(x1, y1), Point(x2, y2), Point(x3, y3), Point(x4, y4));

      if rotation != 0.0 {
        var cos := cosDeg(rotation);
        var sin := sinDeg(rotation);
        var rx1 := cos * x1 - sin * y1;
        var ry1 := sin * x1 + cos * y1;
        var rx2 := cos * x2 - sin * y2;
        var ry2 := sin * x2 + cos * y2;
        var rx3 := cos * x3 - sin * y3;
        var ry3 := sin * x3 + cos * y3;
        RotatedCorners(x, y, sizeX, sizeY, anchorX, anchorY, rotation, cos, sin,
                       Point(rx1, ry1), Point(rx2, ry2), Point(rx3, ry3));
        x1 := rx1;
        y1 := ry1;
        x2 := rx2;
        y2 := ry2;
        x3 := rx3;
        y3 := ry3;
        x4 := x1 + (x3 - x2);
        y4 := y3 - (y2 - y1);
      }
      corners := Quad(Point(x1, y1), Point(x2, y2), Point(x3, y3), Point(x4, y4));
    }

    /** The four vertices of a quad, written at `k` in buffer order; no other slot changes. */
    method PutQuad(k: nat, q: Quad, z: real, bottomLeft: real, topLeft: real, topRight: real, bottomRight: real,
                   u: real, v: real, u2: real, v2: real)
      requires k + BUFFER_SIZE <= vertices.Length
      modifies vertices
      ensures forall j :: 0 <= j < vertices.Length ==>
        vertices[j] == if k <= j < k + BUFFER_SIZE
                       then VertexChunk(q, z, bottomLeft, topLeft, topRight, bottomRight, u, v, u2, v2)[j - k]
                       else old(vertices[j])
    {
      VertexChunkLayout(q, z, bottomLeft, topLeft, topRight, bottomRight, u, v, u2, v2);
      PutVertex(k, q.c1.x, q.c1.y, z, bottomLeft, u, v2);
      PutVertex(k + 6, q.c2.x, q.c2.y, z, topLeft, u, v);
      PutVertex(k + 12, q.c3.x, q.c3.y, z, topRight, u2, v);
      PutVertex(k + 18, q.c4.x, q.c4.y, z, bottomRight, u2, v2);
    }

    /** Draws the buffered quads with the cached texture and the projection matrix, if there are any. */
    method Flush() returns (o: Outcome)
      requires Valid()
      modifies this
      ensures Valid()
      ensures var st := BatchSpec.FlushStep(old(Snapshot()));
        o == st.outcome && Snapshot() == st.state && trace == old(trace) + st.events
    {
      if bufferedCalls == 0 {
        return Pass;
      }
      gpuCalls := gpuCalls + 1;
      var indicesCount := bufferedCalls * INDICES_PER_BUFFER;
      var verticesCount := bufferedCalls * BUFFER_SIZE;
      // cachedTexture!!.bind(): the invariant rules out a null texture here
      assert cachedTexture != null;
      if projectionMatrix.None? {
        return Fail(BatchSpec.NO_PROJECTION);
      }
      // mesh.setVertices(vertices, 0, verticesCount), mesh.setIndices(indices, 0, indicesCount),
      // blending and mesh.render(shaderProgram, GL_TRIANGLES, 0, indicesCount)
      trace := trace + [BatchSpec.Flush(cachedTexture, projectionMatrix.value, bufferedCalls, vertices[..verticesCount])];
      bufferedCalls := 0;
      o := Pass;
    }

    /** Flushes the quads of another texture before caching `texture`. */
    method ValidateCachedTexture(texture: Texture) returns (o: Outcome)
      requires Valid()
      modifies this
      ensures Valid()
      ensures var st := BatchSpec.ValidateTextureStep(old(Snapshot()), texture);
        o == st.outcome && Snapshot() == st.state && trace == old(trace) + st.events
    {
      if cachedTexture != texture {
        if bufferedCalls > 0 {
          o := Flush();
          if o.Fail? {
            return;
          }
        }
        cachedTexture := texture;
      }
      o := Pass;
    }
  }
}
