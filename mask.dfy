/**
 * The `Mask` drawable: a texture region, a mask region and one colour per
 * corner. The accessors that throw in the source return a `Result` here;
 * `inherit` and `copy` return the exception they would raise.
 */
module Drawables {
  import opened GdxTypes

  const TEXTURE_MISSING := "Texture doesn't exist!"
  const MASK_MISSING := "Mask texture doesn't exist!"

  class Mask {
    var textureRegionMask: TextureRegion?
    var textureRegion: TextureRegion?
    var colorMap: map<Corner, Color>

    /** Every corner has a colour, so the `!!` of the colour getters never throws. */
    ghost predicate Valid()
      reads this
    {
      forall corner: Corner :: corner in colorMap
    }

    /** A new mask: no texture, no mask, every corner white. */
    constructor ()
      ensures Valid()
      ensures textureRegionMask == null && textureRegion == null
      ensures forall c: Corner :: GetCornerColor(c) == WHITE
      ensures GetTexture() == Err(TEXTURE_MISSING) && GetMask() == Err(MASK_MISSING)
    {
      textureRegionMask := null;
      textureRegion := null;
      var m: map<Corner, Color> := map[];
      m := m[TopLeft := WHITE];
      m := m[TopRight := WHITE];
      m := m[BottomLeft := WHITE];
      m := m[BottomRight := WHITE];
      forall corner: Corner
        ensures corner in m
      {
        match corner {
          case TopLeft =>
          case TopRight =>
          case BottomLeft =>
          case BottomRight =>
        }
      }
      colorMap := m;
    }

    /** `setTexture(texture)`: a new region covering the whole texture. */
    method SetWholeTexture(texture: Texture)
      requires Valid()
      modifies this
      ensures Valid()
      ensures textureRegion != null && fresh(textureRegion) && textureRegion.texture == texture
      ensures textureRegion.u == 0.0 && textureRegion.v == 0.0 && textureRegion.u2 == 1.0 && textureRegion.v2 == 1.0
      ensures textureRegion.regionWidth == texture.width && textureRegion.regionHeight == texture.height
      ensures textureRegionMask == old(textureRegionMask) && colorMap == old(colorMap)
    {
      var region := new TextureRegion(texture);
      SetTexture(region);
    }

    method SetTexture(region: TextureRegion)
      requires Valid()
      modifies this
      ensures Valid()
      ensures GetTexture() == Ok(region)
      ensures textureRegionMask == old(textureRegionMask) && colorMap == old(colorMap)
    {
      this.textureRegion := region;
    }

    /** `getTexture()`: throws while no texture is set. */
    function GetTexture(): (r: Result<TextureRegion>)
      reads this
      ensures r.Ok? <==> textureRegion != null
      ensures r.Ok? ==> r.value == textureRegion
      ensures r.Err? ==> r.message == TEXTURE_MISSING
    {
      if textureRegion == null then Err(TEXTURE_MISSING) else var region: TextureRegion := textureRegion; Ok(region)
    }

    /** `setColor(color)`: every corner takes `color`. */
    method SetColor(color: Color)
      requires Valid()
      modifies this
      ensures Valid()
      ensures forall c: Corner :: GetCornerColor(c) == color
      ensures textureRegion == old(textureRegion) && textureRegionMask == old(textureRegionMask)
    {
      colorMap := colorMap[TopLeft := color];
      colorMap := colorMap[TopRight := color];
      colorMap := colorMap[BottomLeft := color];
      colorMap := colorMap[BottomRight := color];
    }

    /** `setColor(corner, color)`: only `corner` changes. */
    method SetCornerColor(corner: Corner, color: Color)
      requires Valid()
      modifies this
      ensures Valid()
      ensures GetCornerColor(corner) == color
      ensures forall c: Corner :: c != corner ==> GetCornerColor(c) == old(GetCornerColor(c))
      ensures textureRegion == old(textureRegion) && textureRegionMask == old(textureRegionMask)
    {
      match corner {
        case TopLeft => colorMap := colorMap[TopLeft := color];
        case TopRight => colorMap := colorMap[TopRight := color];
        case BottomLeft => colorMap := colorMap[BottomLeft := color];
        case BottomRight => colorMap := colorMap[BottomRight := color];
      }
    }

    /** `getColor()`: the colour of the top-left corner. */
    function GetColor(): (color: Color)
      reads this
      requires Valid()
      ensures color == GetCornerColor(TopLeft)
    {
      colorMap[TopLeft]
    }

    /** `getColor(corner)`: the colour stored for that very corner. */
    function GetCornerColor(corner: Corner): (color: Color)
      reads this
      requires Valid()
      ensures color == colorMap[corner]
    {
      match corner
      case TopLeft => colorMap[TopLeft]
      case TopRight => colorMap[TopRight]
      case BottomLeft => colorMap[BottomLeft]
      case BottomRight => colorMap[BottomRight]
    }

    /** `setMask(texture)`: a new region covering the whole texture. */
    method SetWholeMask(texture: Texture)
      requires Valid()
      modifies this
      ensures Valid()
      ensures textureRegionMask != null && fresh(textureRegionMask) && textureRegionMask.texture == texture
      ensures textureRegionMask.u == 0.0 && textureRegionMask.v == 0.0
      ensures textureRegionMask.u2 == 1.0 && textureRegionMask.v2 == 1.0
      ensures textureRegionMask.regionWidth == texture.width && textureRegionMask.regionHeight == texture.height
      ensures textureRegion == old(textureRegion) && colorMap == old(colorMap)
    {
      var region := new TextureRegion(texture);
      SetMask(region);
    }

    method SetMask(region: TextureRegion)
      requires Valid()
      modifies this
      ensures Valid()
      ensures GetMask() == Ok(region)
      ensures textureRegion == old(textureRegion) && colorMap == old(colorMap)
    {
      this.textureRegionMask := region;
    }

    /** `getMask()`: throws while no mask is set. */
    function GetMask(): (r: Result<TextureRegion>)
      reads this
      ensures r.Ok? <==> textureRegionMask != null
      ensures r.Ok? ==> r.value == textureRegionMask
      ensures r.Err? ==> r.message == MASK_MISSING
    {
      if textureRegionMask == null then Err(MASK_MISSING) else var region: TextureRegion := textureRegionMask; Ok(region)
    }

    /**
     * `inherit(obj)`: takes the texture and the mask of `obj`, then sets all
     * four corners to each of `obj`'s corner colours in turn, so every corner
     * ends with the last one read, `obj`'s bottom-right colour. When `obj` is
     * this mask, the first call already paints every corner top-left, and
     * that colour stays. A missing texture throws before anything changes; a
     * missing mask throws once the texture is taken.
     */
    method Inherit(obj: Mask) returns (o: Outcome)
      requires Valid() && obj.Valid()
      modifies this
      ensures Valid()
      ensures o.Pass? <==> old(obj.textureRegion) != null && old(obj.textureRegionMask) != null
      ensures old(obj.textureRegion) == null ==>
        o == Fail(TEXTURE_MISSING) && textureRegion == old(textureRegion)
        && textureRegionMask == old(textureRegionMask) && colorMap == old(colorMap)
      ensures old(obj.textureRegion) != null && old(obj.textureRegionMask) == null ==>
        o == Fail(MASK_MISSING) && textureRegion == old(obj.textureRegion)
        && textureRegionMask == old(textureRegionMask) && colorMap == old(colorMap)
      ensures o.Pass? ==>
        && textureRegion == old(obj.textureRegion) && textureRegionMask == old(obj.textureRegionMask)
        && (forall c: Corner :: GetCornerColor(c) == obj.GetCornerColor(BottomRight))
        && (forall c: Corner :: GetCornerColor(c) ==
             if obj == this then old(GetCornerColor(TopLeft)) else old(obj.GetCornerColor(BottomRight)))
    {
      var texture := obj.GetTexture();
      if texture.Err? {
        return Fail(texture.message);
      }
      SetTexture(texture.value);
      var mask := obj.GetMask();
      if mask.Err? {
        return Fail(mask.message);
      }
      SetMask(mask.value);
      SetColor(obj.GetCornerColor(TopLeft));
      SetColor(obj.GetCornerColor(TopRight));
      SetColor(obj.GetCornerColor(BottomLeft));
      SetColor(obj.GetCornerColor(BottomRight));
      // super.inherit(obj) is not part of this model
      o := Pass;
    }

    /** `copy()`: a new mask that inherits from this one. */
    method Copy() returns (r: Result<Mask>)
      requires Valid()
      ensures r.Ok? <==> textureRegion != null && textureRegionMask != null
      ensures textureRegion == null ==> r == Err(TEXTURE_MISSING)
      ensures textureRegion != null && textureRegionMask == null ==> r == Err(MASK_MISSING)
      ensures r.Ok? ==>
        && fresh(r.value) && r.value.Valid()
        && r.value.textureRegion == textureRegion && r.value.textureRegionMask == textureRegionMask
        && forall c: Corner :: r.value.GetCornerColor(c) == GetCornerColor(BottomRight)
    {
      var mask := new Mask();
      var o := mask.Inherit(this);
      if o.Fail? {
        return Err(o.message);
      }
      r := Ok(mask);
    }
  }
}
