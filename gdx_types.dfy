/**
 * Stand-ins for the libGDX and engine types the renderer and the mask use.
 * Textures and texture regions are compared by identity in the source
 * (`!==`), so they are classes here; colours, corners and projection
 * matrices are plain values.
 */
module GdxTypes {

  datatype Option<T> = None | Some(value: T)

  /** The result of an operation that may throw: `Fail` carries the exception message. */
  datatype Outcome = Pass | Fail(message: string)

  /** The result of an accessor that returns a value or throws. */
  datatype Result<T> = Ok(value: T) | Err(message: string)

  /** An RGBA colour; its packing into one float is a parameter of the renderer. */
  datatype Color = Color(r: real, g: real, b: real, a: real)

  const WHITE: Color := Color(1.0, 1.0, 1.0, 1.0)

  datatype Corner = TopLeft | TopRight | BottomLeft | BottomRight

  /** A projection matrix, kept as an opaque list of coefficients. */
  datatype Matrix4 = Matrix4(values: seq<real>)

  /** A GPU texture; only its identity and size matter here. */
  class Texture {
    const width: int
    const height: int

    constructor (width: int, height: int)
      ensures this.width == width && this.height == height
    {
      this.width := width;
      this.height := height;
    }
  }

  /** A rectangular part of a texture with its texture coordinates. */
  class TextureRegion {
    const texture: Texture
    const u: real
    const v: real
    const u2: real
    const v2: real
    const regionWidth: int
    const regionHeight: int

    /** `TextureRegion(texture)`: the region covering the whole texture. */
    constructor (texture: Texture)
      ensures this.texture == texture
      ensures u == 0.0 && v == 0.0 && u2 == 1.0 && v2 == 1.0
      ensures regionWidth == texture.width && regionHeight == texture.height
    {
      this.texture := texture;
      u, v, u2, v2 := 0.0, 0.0, 1.0, 1.0;
      regionWidth, regionHeight := texture.width, texture.height;
    }

    /** A region given by its coordinates and size. */
    constructor Region(texture: Texture, u: real, v: real, u2: real, v2: real, regionWidth: int, regionHeight: int)
      ensures this.texture == texture
      ensures this.u == u && this.v == v && this.u2 == u2 && this.v2 == v2
      ensures this.regionWidth == regionWidth && this.regionHeight == regionHeight
    {
      this.texture := texture;
      this.u, this.v, this.u2, this.v2 := u, v, u2, v2;
      this.regionWidth, this.regionHeight := regionWidth, regionHeight;
    }
  }
}
