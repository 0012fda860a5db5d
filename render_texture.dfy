/**
 The noise volume of `Master_MarchingCubes`: a Unity `RenderTexture` set up as
 a 3D texture, and the policy that decides when it is rebuilt.

 Only what the policy observes is kept: the three dimensions and whether the
 GPU resource was released. Format, filtering and wrap mode are fixed settings
 of every texture the host creates and carry no decision.
 */
module Textures {

  /** A handle on a 3D render texture: `width`, `height` and `volumeDepth` are fixed at creation. */
  class RenderTexture3D {
    const width: int
    const height: int
    const volumeDepth: int
    var released: bool

    /**
     `new RenderTexture(width, height, 0)` with `volumeDepth = depth` and
     `dimension = Tex3D`, followed by `Create()`: a live texture of that shape.
     */
    constructor (width: int, height: int, depth: int)
      ensures this.width == width && this.height == height && this.volumeDepth == depth
      ensures !released
    {
      this.width := width;
      this.height := height;
      this.volumeDepth := depth;
      released := false;
    }

    /** `RenderTexture.Release()`: frees the GPU resource; the dimensions stay readable. */
    method Release()
      modifies this
      ensures released
    {
      released := true;
    }
  }

  /** The texture exists and already has the requested dimensions. */
  predicate HasShape(texture: RenderTexture3D?, width: int, height: int, depth: int)
    ensures HasShape(texture, width, height, depth) ==> texture != null
  {
    texture != null && texture.width == width && texture.height == height && texture.volumeDepth == depth
  }

  /**
   `InitRenderTexture3D(ref texture, width, height, depth)`. The `ref` handle is
   passed in as `texture` and its new value comes back as `result`.

   A texture of the requested shape is kept as it is. Anything else (no
   texture at all, or one of another shape) is replaced by a fresh live
   texture of the requested shape, and the old one, if any, is released.
   */
  method InitRenderTexture3D(texture: RenderTexture3D?, width: int, height: int, depth: int)
    returns (result: RenderTexture3D)
    modifies texture
    ensures HasShape(result, width, height, depth)
    ensures HasShape(texture, width, height, depth) ==> result == texture && unchanged(texture)
    ensures !HasShape(texture, width, height, depth) ==> fresh(result) && !result.released
    ensures !HasShape(texture, width, height, depth) && texture != null ==> texture.released
  {
    if texture == null || texture.width != width || texture.height != height || texture.volumeDepth != depth {
      if texture != null {
        texture.Release();
      }
      result := new RenderTexture3D(width, height, depth);
    } else {
      result := texture;
    }
  }
}
