# gdxmachine sprite batching and masks, in Dafny

This project models two pieces of the gdxmachine game engine, a Kotlin
layer over libGDX.

The first is the `SpriteRenderer`, which batches sprite quads for the GPU.
It owns two fixed buffers:
- a vertex buffer of 1500 quads of 24 floats;
- an index buffer of 1500 quads of 6 shorts, filled once with the
  two-triangle pattern `0,1,2,2,3,0`, shifted by 4 per quad.

Between `begin()` and `end()` each `draw(sprite)` writes one 24-float chunk
after the buffered ones. The renderer flushes the buffered quads in one GPU
draw call in four cases:
- the sprite's texture differs, by identity, from the cached one;
- the buffer already holds 1500 quads;
- `end()` runs;
- the projection matrix changes during a batch.

The second is the `Mask` drawable: a texture region, a mask region and a
colour per corner, with `copy`/`inherit`.

Files:
- `gdx_types.dfy` (module `GdxTypes`): stand-ins for the libGDX types.
  Texture and texture-region objects are compared by identity. Colours,
  corners and matrices are values.
- `quad_geometry.dfy` (module `QuadGeometry`): the arithmetic of one quad:
  - the index pattern and Kotlin's `toShort`;
  - `rotation %= 360f`;
  - the corner positions, with the rectangle theorem;
  - the layout of the 24 floats.
- `batch_spec.dfy` (module `BatchSpec`): the flush policy as a pure state
  machine. A `State` holds the renderer's bookkeeping plus the floats of the
  buffered quads. Each operation yields a `Step`: the outcome, the new
  state, and the flush events (GPU draw calls) it issued. The theorems about
  whole batches are proved here.
- `sprite_renderer.dfy` (module `SpriteRendering`): the renderer as a class
  over the two arrays.
  - `Begin`, `Draw`, `BufferQuad`, `End`, `SetProjectionMatrix`, `Flush`
    and `ValidateCachedTexture` are each proved to move `Snapshot()`, the
    abstraction of the fields and the buffered prefix of `vertices`,
    exactly as the matching `BatchSpec` step does.
  - Each of them appends that step's flush events to the ghost `trace`.
  - The helpers `AppendQuad`, `AppendVertices`, `PutQuad`, `PutVertex` and
    `CornersOf` are specified by the slots they write and the values they
    compute.
- `mask.dfy` (module `Drawables`): the `Mask` class.

Exceptions become values. `Outcome.Fail(message)` and `Result.Err(message)`
carry the exception's message. An operation that throws part-way keeps the
changes it made before throwing, as on the JVM.

## Model

Paths are relative to the repository root.
`SpriteRenderer.kt` is `gdxmachine-core/src/main/kotlin/com/disgraded/gdxmachine/core/api/graphics/renderer/SpriteRenderer.kt`
and `Mask.kt` is `gdxmachine-framework/src/main/kotlin/com/disgraded/gdxmachine/framework/drawables/Mask.kt`.
The table gives them in full.

| member | source | states |
|---|---|---|
| QuadGeometry.IndexAt | gdxmachine-core/src/main/kotlin/com/disgraded/gdxmachine/core/api/graphics/renderer/SpriteRenderer.kt:54-61 | index `i` lies in quad `i / 6` (its value divided by 4 is `i / 6`); its offset inside the quad is `[0,1,2,2,3,0][i % 6]`; below 6000 for every `i < 9000` |
| QuadGeometry.ToShort | gdxmachine-core/src/main/kotlin/com/disgraded/gdxmachine/core/api/graphics/renderer/SpriteRenderer.kt:57-60 | `Int.toShort()`: the result is in the 16-bit range, congruent to the input modulo 65536, and equal to it when the input already fits |
| QuadGeometry.IndicesFitShort | gdxmachine-core/src/main/kotlin/com/disgraded/gdxmachine/core/api/graphics/renderer/SpriteRenderer.kt:51-61 | no index of the 9000-entry buffer is changed by the conversion to a short |
| SpriteRendering.GenerateIndices | gdxmachine-core/src/main/kotlin/com/disgraded/gdxmachine/core/api/graphics/renderer/SpriteRenderer.kt:51-61 | the loop yields 9000 entries; entry `i` is `IndexAt(i)` |
| SpriteRendering.SpriteRenderer.constructor | gdxmachine-core/src/main/kotlin/com/disgraded/gdxmachine/core/api/graphics/renderer/SpriteRenderer.kt:28-61 | starts inactive, with zero counters, no cached texture, no projection and the index pattern in place |
| SpriteRendering.SpriteRenderer.Snapshot | gdxmachine-core/src/main/kotlin/com/disgraded/gdxmachine/core/api/graphics/renderer/SpriteRenderer.kt:33-37 | the renderer's state satisfies `BatchSpec.Inv`: at most 1500 buffered quads, 24 floats each, and a cached texture whenever quads are buffered (so `cachedTexture!!` never throws) |
| QuadGeometry.RotationRem | gdxmachine-core/src/main/kotlin/com/disgraded/gdxmachine/core/api/graphics/renderer/SpriteRenderer.kt:116 | `rotation %= 360f`: the result lies strictly between -360 and 360, has the dividend's sign, and differs from it by a whole number of turns; it leaves a rotation already in range alone |
| QuadGeometry.RotationRemIdempotent | gdxmachine-core/src/main/kotlin/com/disgraded/gdxmachine/core/api/graphics/renderer/SpriteRenderer.kt:116 | normalising twice equals normalising once |
| QuadGeometry.AxisQuad | gdxmachine-core/src/main/kotlin/com/disgraded/gdxmachine/core/api/graphics/renderer/SpriteRenderer.kt:107-114 | the unrotated corners: corner 1 is the anchor point moved back by `size * anchor`; the quad is axis-aligned with width `sizeX` and height `sizeY` |
| QuadGeometry.QuadCorners | gdxmachine-core/src/main/kotlin/com/disgraded/gdxmachine/core/api/graphics/renderer/SpriteRenderer.kt:107-134 | in both branches `corner1 + corner3 == corner2 + corner4`. A zero rotation gives the axis-aligned quad; otherwise corners 1 to 3 are the axis-aligned ones rotated |
| QuadGeometry.FourthCornerIsRotated | gdxmachine-core/src/main/kotlin/com/disgraded/gdxmachine/core/api/graphics/renderer/SpriteRenderer.kt:132-133 | the derived fourth corner `(x1 + (x3 - x2), y3 - (y2 - y1))` is the rotated fourth corner of the axis-aligned quad |
| QuadGeometry.RotatedQuadIsRectangle | gdxmachine-core/src/main/kotlin/com/disgraded/gdxmachine/core/api/graphics/renderer/SpriteRenderer.kt:117-134 | when `cos² + sin² = 1`, the written quad is a rectangle of the sprite's size: the side 1-2 has length `sizeY`, the side 1-4 has length `sizeX`, and they are perpendicular |
| QuadGeometry.RotatedSides | gdxmachine-core/src/main/kotlin/com/disgraded/gdxmachine/core/api/graphics/renderer/SpriteRenderer.kt:120-133 | with a non-zero rotation, the sides 1-2 and 1-4 are the rotated vectors `(0, sizeY)` and `(sizeX, 0)` |
| QuadGeometry.VertexChunk | gdxmachine-core/src/main/kotlin/com/disgraded/gdxmachine/core/api/graphics/renderer/SpriteRenderer.kt:136-162 | a quad occupies exactly `BUFFER_SIZE` = 24 floats |
| QuadGeometry.VertexChunkLayout | gdxmachine-core/src/main/kotlin/com/disgraded/gdxmachine/core/api/graphics/renderer/SpriteRenderer.kt:136-162 | the layout of a chunk: positions at offsets 0-1, 6-7, 12-13, 18-19; `z` at 2, 8, 14, 20; colours bottom-left, top-left, top-right, bottom-right at 3, 9, 15, 21; UVs `(u,v2)`, `(u,v)`, `(u2,v)`, `(u2,v2)` |
| QuadGeometry.Scaled | gdxmachine-core/src/main/kotlin/com/disgraded/gdxmachine/core/api/graphics/renderer/SpriteRenderer.kt:104-105 | the `Int` region size times the `Float` scale: a scale of 1 keeps the size, a zero size or scale gives 0, and non-negative operands give a non-negative size |
| SpriteRendering.SpriteRenderer.DrawOf | gdxmachine-core/src/main/kotlin/com/disgraded/gdxmachine/core/api/graphics/renderer/SpriteRenderer.kt:74-75 | no draw exactly when the sprite has no texture region; otherwise the draw carries the region's texture and a 24-float quad |
| SpriteRendering.SpriteRenderer.QuadFor | gdxmachine-core/src/main/kotlin/com/disgraded/gdxmachine/core/api/graphics/renderer/SpriteRenderer.kt:102-162 | the 24 floats a sprite's draw writes |
| SpriteRendering.SpriteRenderer.CornersOf | gdxmachine-core/src/main/kotlin/com/disgraded/gdxmachine/core/api/graphics/renderer/SpriteRenderer.kt:107-134 | the corner arithmetic of `appendVertices` computes `QuadCorners` with `cosDeg`/`sinDeg` of the rotation |
| SpriteRendering.SpriteRenderer.PutVertex | gdxmachine-core/src/main/kotlin/com/disgraded/gdxmachine/core/api/graphics/renderer/SpriteRenderer.kt:136-141 | writes six floats at `k` and changes no other slot |
| SpriteRendering.SpriteRenderer.PutQuad | gdxmachine-core/src/main/kotlin/com/disgraded/gdxmachine/core/api/graphics/renderer/SpriteRenderer.kt:136-162 | slots `k .. k+23` become the `VertexChunk`; every other slot keeps its value |
| SpriteRendering.SpriteRenderer.AppendVertices | gdxmachine-core/src/main/kotlin/com/disgraded/gdxmachine/core/api/graphics/renderer/SpriteRenderer.kt:102-163 | writes exactly slots `[bufferedCalls*24, bufferedCalls*24+24)`, with the sprite's quad; normalises the sprite's rotation; changes nothing else |
| BatchSpec.FlushStep | gdxmachine-core/src/main/kotlin/com/disgraded/gdxmachine/core/api/graphics/renderer/SpriteRenderer.kt:165-182 | nothing happens on an empty buffer. Otherwise `gpuCalls` goes up by one and one event binds the cached texture and projection, drawing `bufferedCalls*6` indices of the buffered floats; the buffer is then empty. Before any projection is set it throws, after counting the call |
| BatchSpec.Event.IndexCount | gdxmachine-core/src/main/kotlin/com/disgraded/gdxmachine/core/api/graphics/renderer/SpriteRenderer.kt:169 | a flush draws `quads * 6` indices, whole quads only; a well-formed flush draws 6 to 9000 |
| SpriteRendering.SpriteRenderer.Flush | gdxmachine-core/src/main/kotlin/com/disgraded/gdxmachine/core/api/graphics/renderer/SpriteRenderer.kt:165-182 | the fields and the trace move as `FlushStep` says |
| BatchSpec.ValidateTextureStep | gdxmachine-core/src/main/kotlin/com/disgraded/gdxmachine/core/api/graphics/renderer/SpriteRenderer.kt:184-189 | the same texture changes nothing. A different texture with quads buffered flushes first, as `FlushStep` does: `gpuCalls` goes up by one, and with a projection set the one event binds the old cached texture and the projection with the buffered quads and floats, leaving the buffer empty. It throws exactly when that flush comes before any projection is set. With nothing buffered there is no flush. On success the new texture is cached |
| SpriteRendering.SpriteRenderer.ValidateCachedTexture | gdxmachine-core/src/main/kotlin/com/disgraded/gdxmachine/core/api/graphics/renderer/SpriteRenderer.kt:184-189 | the fields and the trace move as `ValidateTextureStep` says |
| BatchSpec.BufferStep | gdxmachine-core/src/main/kotlin/com/disgraded/gdxmachine/core/api/graphics/renderer/SpriteRenderer.kt:77-81 | below capacity the quad is appended with no flush. A full buffer is flushed first, so the quad is the only one buffered and one draw call is issued |
| SpriteRendering.SpriteRenderer.AppendQuad | gdxmachine-core/src/main/kotlin/com/disgraded/gdxmachine/core/api/graphics/renderer/SpriteRenderer.kt:80-81 | `appendVertices` then `bufferedCalls++`: the snapshot gains one buffered quad, the sprite's; only that chunk of `vertices` changes; the rotation is normalised; the trace is unchanged |
| SpriteRendering.SpriteRenderer.BufferQuad | gdxmachine-core/src/main/kotlin/com/disgraded/gdxmachine/core/api/graphics/renderer/SpriteRenderer.kt:77-81 | the fields, the buffered prefix of `vertices` and the trace move as `BufferStep` says; on failure no vertex changes, and on success only the new chunk does |
| BatchSpec.DrawStep | gdxmachine-core/src/main/kotlin/com/disgraded/gdxmachine/core/api/graphics/renderer/SpriteRenderer.kt:73-82 | a sprite without a texture region throws and changes nothing. With a projection set the draw succeeds; there is exactly one flush if and only if quads are buffered and either the texture changes or the buffer is full; the quad is appended and the sprite's texture is cached. Before any projection is set, a draw that needs a flush throws. The `active` flag is not consulted |
| BatchSpec.DrawStepOutcome | gdxmachine-core/src/main/kotlin/com/disgraded/gdxmachine/core/api/graphics/renderer/SpriteRenderer.kt:73-82 | a draw succeeds exactly when the sprite has a texture region and either a projection is set or no flush is needed |
| SpriteRendering.SpriteRenderer.Draw | gdxmachine-core/src/main/kotlin/com/disgraded/gdxmachine/core/api/graphics/renderer/SpriteRenderer.kt:73-82 | the fields, the buffered prefix of `vertices` and the trace move as `DrawStep` says; a failed draw writes no vertex and leaves the rotation alone |
| BatchSpec.BeginStep | gdxmachine-core/src/main/kotlin/com/disgraded/gdxmachine/core/api/graphics/renderer/SpriteRenderer.kt:66-71 | throws when already active. Otherwise it sets `active` and zeroes `gpuCalls`, leaving the buffered quads, the cached texture and the projection untouched |
| SpriteRendering.SpriteRenderer.Begin | gdxmachine-core/src/main/kotlin/com/disgraded/gdxmachine/core/api/graphics/renderer/SpriteRenderer.kt:66-71 | the fields move as `BeginStep` says |
| BatchSpec.EndStep | gdxmachine-core/src/main/kotlin/com/disgraded/gdxmachine/core/api/graphics/renderer/SpriteRenderer.kt:84-91 | succeeds exactly when active and either a projection is set or nothing is buffered. Inactive, it throws and changes nothing; a flush before any projection is set throws as `FlushStep` does. Otherwise it flushes exactly once when quads are buffered; afterwards the renderer is inactive, with no buffered quads, no cached texture and `gpuCalls = 0` |
| SpriteRendering.SpriteRenderer.End | gdxmachine-core/src/main/kotlin/com/disgraded/gdxmachine/core/api/graphics/renderer/SpriteRenderer.kt:84-91 | the fields and the trace move as `EndStep` says |
| BatchSpec.SetProjectionStep | gdxmachine-core/src/main/kotlin/com/disgraded/gdxmachine/core/api/graphics/renderer/SpriteRenderer.kt:93-98 | outside a batch it only stores the matrix. During a batch the buffered quads are flushed first with the previous matrix, and `gpuCalls` goes up by one when it flushes; then the new one is stored |
| SpriteRendering.SpriteRenderer.SetProjectionMatrix | gdxmachine-core/src/main/kotlin/com/disgraded/gdxmachine/core/api/graphics/renderer/SpriteRenderer.kt:93-98 | the fields and the trace move as `SetProjectionStep` says |
| BatchSpec.DrawAll | gdxmachine-core/src/main/kotlin/com/disgraded/gdxmachine/core/api/graphics/renderer/SpriteRenderer.kt:73-82 | successive draws keep the invariant and the flag and projection; with a projection set none of them throws |
| BatchSpec.Batch | gdxmachine-core/src/main/kotlin/com/disgraded/gdxmachine/core/api/graphics/renderer/SpriteRenderer.kt:66-91 | `begin`, the draws, then `end` keep the invariant, and every flush is well formed: 1 to 1500 quads of 24 floats |
| BatchSpec.DrawAllConservesQuads | gdxmachine-core/src/main/kotlin/com/disgraded/gdxmachine/core/api/graphics/renderer/SpriteRenderer.kt:165-182 | no quad is lost or duplicated. The floats uploaded by the flushes, then those still buffered, equal the floats buffered before, then every drawn quad, in draw order |
| BatchSpec.SameTextureDraws | gdxmachine-core/src/main/kotlin/com/disgraded/gdxmachine/core/api/graphics/renderer/SpriteRenderer.kt:77-81 | `n` draws of one texture issue one flush for a texture switch, if quads of another texture were buffered, plus one per filled buffer. `gpuCalls` counts them, and the buffer ends holding `(kept + n - 1) % 1500 + 1` quads |
| BatchSpec.SameTextureFlushTargets | gdxmachine-core/src/main/kotlin/com/disgraded/gdxmachine/core/api/graphics/renderer/SpriteRenderer.kt:184-189 | those flushes all use the current projection. All bind the new texture, except a first flush of the old texture's buffered quads on a switch |
| BatchSpec.SingleTextureBatch | gdxmachine-core/src/main/kotlin/com/disgraded/gdxmachine/core/api/graphics/renderer/SpriteRenderer.kt:66-91 | a batch of `N` sprites of one texture, begun idle and empty with a projection set, issues exactly `ceil(N / 1500)` draw calls. All bind that texture and projection, and together they upload every quad once, in order. The renderer ends idle and empty |
| BatchSpec.DrawAllAppend | gdxmachine-core/src/main/kotlin/com/disgraded/gdxmachine/core/api/graphics/renderer/SpriteRenderer.kt:73-82 | drawing `a + b` is drawing `a`, then drawing `b` from the resulting state |
| BatchSpec.RunsDraws | gdxmachine-core/src/main/kotlin/com/disgraded/gdxmachine/core/api/graphics/renderer/SpriteRenderer.kt:184-189 | over runs whose neighbouring textures differ, flushes issued plus one owed for a non-empty buffer equal the owed one at the start plus the sum of `ceil(|run| / 1500)` |
| BatchSpec.TextureRunsBatch | gdxmachine-core/src/main/kotlin/com/disgraded/gdxmachine/core/api/graphics/renderer/SpriteRenderer.kt:184-189 | a batch of such runs issues exactly the sum of `ceil(|run| / 1500)` draw calls: each texture change flushes the partly filled buffer at once |
| BatchSpec.ExpectedFlushesBounds | gdxmachine-core/src/main/kotlin/com/disgraded/gdxmachine/core/api/graphics/renderer/SpriteRenderer.kt:184-189 | that sum lies between `ceil(N / 1500)` for the `N` sprites of all runs and that plus one per texture change |
| Drawables.Mask.constructor | gdxmachine-framework/src/main/kotlin/com/disgraded/gdxmachine/framework/drawables/Mask.kt:11-21 | a new mask has all four corners `WHITE` and no texture or mask; both getters throw |
| Drawables.Mask.SetWholeTexture | gdxmachine-framework/src/main/kotlin/com/disgraded/gdxmachine/framework/drawables/Mask.kt:23-25 | the texture becomes a new region covering the whole texture (UVs 0 to 1, the texture's width and height); the mask and colours are unchanged |
| Drawables.Mask.SetTexture | gdxmachine-framework/src/main/kotlin/com/disgraded/gdxmachine/framework/drawables/Mask.kt:27-29 | afterwards `GetTexture()` returns the region; the mask and colours are unchanged |
| Drawables.Mask.GetTexture | gdxmachine-framework/src/main/kotlin/com/disgraded/gdxmachine/framework/drawables/Mask.kt:31-34 | throws `Texture doesn't exist!` exactly when no texture is set; otherwise returns the texture |
| Drawables.Mask.SetColor | gdxmachine-framework/src/main/kotlin/com/disgraded/gdxmachine/framework/drawables/Mask.kt:36-41 | every corner takes the colour; the texture and mask are unchanged |
| Drawables.Mask.SetCornerColor | gdxmachine-framework/src/main/kotlin/com/disgraded/gdxmachine/framework/drawables/Mask.kt:43-50 | that corner takes the colour, and the other three keep theirs |
| Drawables.Mask.GetColor | gdxmachine-framework/src/main/kotlin/com/disgraded/gdxmachine/framework/drawables/Mask.kt:52-54 | the top-left colour |
| Drawables.Mask.GetCornerColor | gdxmachine-framework/src/main/kotlin/com/disgraded/gdxmachine/framework/drawables/Mask.kt:56-63 | the colour stored for that very corner |
| Drawables.Mask.SetWholeMask | gdxmachine-framework/src/main/kotlin/com/disgraded/gdxmachine/framework/drawables/Mask.kt:66-68 | the mask becomes a new region covering the whole texture (UVs 0 to 1, the texture's width and height); the texture and colours are unchanged |
| Drawables.Mask.SetMask | gdxmachine-framework/src/main/kotlin/com/disgraded/gdxmachine/framework/drawables/Mask.kt:70-72 | afterwards `GetMask()` returns the region; the texture and colours are unchanged |
| Drawables.Mask.GetMask | gdxmachine-framework/src/main/kotlin/com/disgraded/gdxmachine/framework/drawables/Mask.kt:74-77 | throws `Mask texture doesn't exist!` exactly when no mask is set; otherwise returns the mask |
| Drawables.Mask.Inherit | gdxmachine-framework/src/main/kotlin/com/disgraded/gdxmachine/framework/drawables/Mask.kt:85-93 | see the note below the table |
| Drawables.Mask.Copy | gdxmachine-framework/src/main/kotlin/com/disgraded/gdxmachine/framework/drawables/Mask.kt:79-83 | throws as `inherit` does. Otherwise it returns a new mask with the same texture and mask, every corner set to this mask's bottom-right colour |

`Drawables.Mask.Inherit` in detail:
- It succeeds exactly when `obj` has both a texture and a mask.
- A missing texture throws and changes nothing.
- A missing mask throws after the texture has been taken.
- On success the texture and mask are `obj`'s, and all four corners hold `obj`'s bottom-right colour.
- When `obj` is this mask, all four corners end with the old top-left colour instead.

## Left out

- The GL and libGDX calls of `flush`: `bind`, the shader uniforms, `mesh.setVertices`/`setIndices`, blending and `mesh.render`. They are foreign calls. Each flush instead appends an event to a ghost trace, recording the texture bound, the projection, the quad count (hence `quads * 6` indices) and the floats uploaded.
- The `Mesh` and its vertex attributes, `dispose()`, `shaderProgram.begin`/`end`, the `ShaderFactory` singleton and the empty `validateShader`: foreign or empty.
- `MathUtils.cosDeg`/`sinDeg` and `Color.toFloatBits()`: foreign. They are functions given to the renderer's constructor; the rectangle theorem assumes only `cos² + sin² = 1` of them.
- Floating point. Float arithmetic is exact real arithmetic, so `RotationRem` is an exact remainder and no rounding is modelled. The `Int` size times the `Float` scale (`QuadGeometry.Scaled`) is a real product.
- `SpriteRendering.SpriteRenderer.Snapshot`: `gpuCalls` is an unbounded integer, so the 32-bit wrap-around of `gpuCalls++` after 2^31 flushes is not modelled.
- `Matrix4` is an opaque value. `setProjectionMatrix` stores the caller's reference and each flush reads that object's current contents, so a caller that changes the object after setting it (and before a flush, including the flush that `setProjectionMatrix(sameObject)` makes) changes what is drawn. The model keeps the value it was given; that aliasing is not modelled.
- The `Sprite` and `Drawable2D` classes are not part of this model. `Sprite` here has only the fields the renderer reads; its colour getter reads a corner-to-colour map.
- The core and the framework each define their own `Color` and `Corner`. They are one type each here.
- `draw` does not check `active`. The model keeps that: a draw outside a batch buffers its quad like any other.
- `Drawables.Mask.Inherit`: the final `super.inherit(obj)` (of `Drawable2D`) and the `Prototype` interface are not part of this model; the contract says nothing about the fields they handle.
- `DeferredLightBatch.kt`, `ApplicationApi.kt` and `Shape.kt` are not part of this model.
- `SpriteRendering.SpriteRenderer.Draw`: its tail (flush a full buffer, append, count) is the separate method `BufferQuad`, specified by `BatchSpec.BufferStep`, whose append-and-count is `AppendQuad`. `AppendVertices` writes through `PutQuad` and `PutVertex`, and its corner arithmetic sits in `CornersOf`. The values written and their order are the source's.
