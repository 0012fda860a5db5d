/**
 The `Master_MarchingCubes` component: the inspector settings, their shadow
 copies from the last generation, the noise texture and the mesh it hands to
 its `MeshFilter`.

 Each frame `Update` compares the five tracked settings with their shadows and
 regenerates only when one of them moved. Generation rebuilds the noise
 texture, fills it either procedurally or from the literal `gridValues`, then
 turns the triangles read back from the marching-cubes kernel into a mesh.
 The GPU kernels themselves are not visible here, so what they return is a
 parameter: see `Collaborators`.
 */
module MarchingCubesHost {
  import opened Vectors
  import opened Sizing
  import opened LiteralGrid
  import opened MeshAssembly
  import opened Textures

  /**
   What the host receives from code outside this model during one frame: the
   triangles the marching-cubes kernel appends, `Vector3.normalized`, and the
   Unicode numeric values `char.GetNumericValue` gives code units outside ASCII.
   */
  datatype Collaborators = Collaborators(
    kernelOutput: seq<Triangle>,
    normalize: Vector3 -> Vector3,
    unicodeNumeric: CodeUnit -> real)

  /** The five settings the dirty check tracks, as one value. */
  datatype Settings = Settings(
    gridSize: Vector3,
    areaSize: Vector3,
    isoLevel: real,
    useSetNoise: bool,
    drawDebugSpheres: bool)

  /** What the noise texture was last filled with. */
  datatype NoiseFill =
    | Unfilled
    | Procedural                  // the `CSMain` kernel of the noise shader
    | Literal(values: seq<real>)  // the decoded `gridValues`, uploaded to the debug noise shader

  /** The shadow fields after construction and `Awake`: every one at its default. */
  const AwakeShadow: Settings := Settings(Zero, Zero, 0.0, false, false)

  /**
   The condition of `Update`: some tracked setting differs from its shadow.
   The two vectors are compared with Unity's approximate `!=`, the float and
   the flags exactly.
   */
  predicate Changed(now: Settings, seen: Settings)
    ensures now == seen ==> !Changed(now, seen)
    ensures (now.isoLevel != seen.isoLevel || now.useSetNoise != seen.useSetNoise ||
             now.drawDebugSpheres != seen.drawDebugSpheres) ==> Changed(now, seen)
  {
    OperatorEqualsIsReflexive(now.gridSize);
    OperatorEqualsIsReflexive(now.areaSize);
    !OperatorEquals(now.gridSize, seen.gridSize) ||
    !OperatorEquals(now.areaSize, seen.areaSize) ||
    now.drawDebugSpheres != seen.drawDebugSpheres ||
    now.useSetNoise != seen.useSetNoise ||
    now.isoLevel != seen.isoLevel
  }

  /** Whether settings count as changed does not depend on which side is the shadow. */
  lemma ChangedIsSymmetric(now: Settings, seen: Settings)
    ensures Changed(now, seen) <==> Changed(seen, now)
  {
    OperatorEqualsIsSymmetric(now.gridSize, seen.gridSize);
    OperatorEqualsIsSymmetric(now.areaSize, seen.areaSize);
  }

  /** An edit of `gridSize` that Unity's `==` still finds equal to the shadow is no change. */
  lemma NearGridSizeIsUnchanged(seen: Settings, gridSize: Vector3)
    requires OperatorEquals(gridSize, seen.gridSize)
    ensures !Changed(seen.(gridSize := gridSize), seen)
  {
    OperatorEqualsIsReflexive(seen.areaSize);
  }

  /**
   An edit of `gridSize` smaller than `Vector3.kEpsilon` is invisible to the
   dirty check: the settings differ, yet no regeneration follows.
   */
  lemma SubEpsilonEditIsIgnored(s: Settings)
    ensures s.(gridSize := Plus(s.gridSize, Vector3(Epsilon / 2.0, 0.0, 0.0))) != s
    ensures !Changed(s.(gridSize := Plus(s.gridSize, Vector3(Epsilon / 2.0, 0.0, 0.0))), s)
  {
    var moved := Plus(s.gridSize, Vector3(Epsilon / 2.0, 0.0, 0.0));
    assert moved.x != s.gridSize.x;
    OperatorEqualsIsCoarser(s.gridSize);
    OperatorEqualsIsSymmetric(s.gridSize, moved);
    NearGridSizeIsUnchanged(s, moved);
  }

  /**
   Whether `GenerateMesh` runs to its end. It throws, and so leaves `Update`
   before the shadows are copied, when an allocation it makes has an invalid
   size: `new float[n]` with `n < 0` in `StringArrayToFloat`, or a
   `ComputeBuffer` of no elements for the literal noise values, the debug grid
   points or the triangles.
   */
  predicate Generates(s: Settings)
    ensures Generates(s) <==>
              (s.useSetNoise ==> Product(Plus(s.gridSize, One)) > 0.5) &&
              (s.drawDebugSpheres ==> Product(s.gridSize) >= 1.0) &&
              Product(Minus(s.gridSize, One)) >= 1.0
  {
    (s.useSetNoise ==> LiteralPointCount(s.gridSize) > 0) &&
    (s.drawDebugSpheres ==> GridDebugPointCount(s.gridSize) > 0) &&
    TriangleBufferCount(s.gridSize) > 0
  }

  /**
   A grid that Unity's `==` cannot tell from `Vector3.zero` has every side
   within epsilon of 0, so each side of its cell box is close to -1 and the
   cell product is negative.
   */
  lemma NearZeroGridHasNoCells(gridSize: Vector3)
    ensures OperatorEquals(gridSize, Zero) ==> Product(Minus(gridSize, One)) < 0.0
  {
    if OperatorEquals(gridSize, Zero) {
      var g := gridSize;
      assert Minus(g, Zero) == g;
      assert Epsilon * Epsilon < 1.0;
      assert g.x * g.x + g.y * g.y + g.z * g.z < 1.0;
      assert g.x * g.x >= 0.0 && g.y * g.y >= 0.0 && g.z * g.z >= 0.0;
      assert g.x * g.x < 1.0 && g.y * g.y < 1.0 && g.z * g.z < 1.0;
      assert g.x < 1.0 && g.y < 1.0 && g.z < 1.0;
      var cells := Minus(g, One);
      assert cells.x < 0.0 && cells.y < 0.0 && cells.z < 0.0;
      assert cells.x * cells.y > 0.0;
    }
  }

  /**
   The first frame: the shadows start at their defaults (`AwakeShadow`), and
   any settings that can generate a mesh differ from them, so the first
   `Update` of a new component runs `GenerateMesh`.
   */
  lemma FirstFrameGenerates(s: Settings)
    ensures Generates(s) ==> Changed(s, AwakeShadow)
  {
    NearZeroGridHasNoCells(s.gridSize);
  }

  /**
   What the noise step leaves in the texture: procedural noise, or the decoded
   literal values when `useSetNoise` is on and there is at least one of them.
   When decoding or uploading throws, the texture keeps the `previous` fill
   it had before the step.
   */
  function FillFor(s: Settings, gridValues: Utf16String, unicodeNumeric: CodeUnit -> real, previous: NoiseFill): (fill: NoiseFill)
    ensures !s.useSetNoise ==> fill == Procedural
    ensures s.useSetNoise && LiteralPointCount(s.gridSize) > 0 ==>
              fill.Literal? && |fill.values| == LiteralPointCount(s.gridSize) &&
              forall i :: 0 <= i < |fill.values| ==> fill.values[i] == PointValue(gridValues, i, unicodeNumeric)
    ensures s.useSetNoise && LiteralPointCount(s.gridSize) <= 0 ==> fill == previous
  {
    if !s.useSetNoise then Procedural
    else if LiteralPointCount(s.gridSize) > 0
    then Literal(LiteralValues(gridValues, LiteralPointCount(s.gridSize), unicodeNumeric))
    else previous
  }

  /** The texture exists and already has the shape `gridSize` asks for, so `InitRenderTexture3D` keeps it. */
  predicate TextureFits(texture: RenderTexture3D?, gridSize: Vector3)
    ensures TextureFits(texture, gridSize) ==> texture != null
    ensures TextureFits(texture, gridSize) && 0.0 <= gridSize.x ==>
              texture.width as real <= gridSize.x < texture.width as real + 1.0
    ensures TextureFits(texture, gridSize) && 0.0 <= gridSize.y ==>
              texture.height as real <= gridSize.y < texture.height as real + 1.0
    ensures TextureFits(texture, gridSize) && 0.0 <= gridSize.z ==>
              texture.volumeDepth as real <= gridSize.z < texture.volumeDepth as real + 1.0
  {
    var shape := TextureShape(gridSize);
    HasShape(texture, shape.0, shape.1, shape.2)
  }

  /** What a texture holds before the noise step fills it: its old contents if it is kept, nothing if it is new. */
  function KeptFill(texture: RenderTexture3D?, gridSize: Vector3, previous: NoiseFill): (fill: NoiseFill)
    ensures texture == null ==> fill == Unfilled
    ensures fill == previous || fill == Unfilled
  {
    if TextureFits(texture, gridSize) then previous else Unfilled
  }

  /** A grid of whole sizes with at least two points per axis always generates, whatever the flags. */
  lemma ProperGridGenerates(nx: int, ny: int, nz: int, s: Settings)
    requires nx >= 2 && ny >= 2 && nz >= 2
    requires s.gridSize == Grid(nx, ny, nz)
    ensures Generates(s)
  {
    CapacityOfProperGrid(nx, ny, nz);
    LiteralPointCountOfIntegral(nx, ny, nz);
    ProductAtLeast(nx + 1, ny + 1, nz + 1, 3);
  }

  /**
   A grid with a single point along some axis has no cells, so the triangle
   buffer would be empty and generation never completes.
   */
  lemma FlatGridFails(nx: int, ny: int, nz: int, s: Settings)
    requires nx == 1 || ny == 1 || nz == 1
    requires s.gridSize == Grid(nx, ny, nz)
    ensures !Generates(s)
  {
    SizesOfIntegralGrid(nx, ny, nz);
  }

  /** The host component. Inspector fields are public so a scene can edit them between frames. */
  class MasterMarchingCubes {
    // Inspector settings.
    var gridSize: Vector3
    var areaSize: Vector3
    var isoLevel: real
    var useSetNoise: bool
    var drawDebugSpheres: bool
    var gridValues: Utf16String

    // Shadows: the settings of the last completed generation.
    var currentGridSize: Vector3
    var crntAreaSize: Vector3
    var crntIsoLevel: real
    var crntUseSetNoise: bool
    var crntDrawDebugSpheres: bool

    var noiseTexture: RenderTexture3D?
    /** `meshObject.mesh`, once this component has assigned one. */
    var meshObjectMesh: Option<Mesh>
    var noiseFill: NoiseFill
    /** How many times `GenerateMesh` has been entered. */
    ghost var generations: nat

    function CurrentSettings(): Settings
      reads this
    {
      Settings(gridSize, areaSize, isoLevel, useSetNoise, drawDebugSpheres)
    }

    function Shadow(): Settings
      reads this
    {
      Settings(currentGridSize, crntAreaSize, crntIsoLevel, crntUseSetNoise, crntDrawDebugSpheres)
    }

    predicate ParametersChanged()
      reads this
    {
      Changed(CurrentSettings(), Shadow())
    }

    /** The noise texture, when there is one, is live: a released one is always replaced. */
    predicate Valid()
      reads this, noiseTexture
    {
      noiseTexture != null ==> !noiseTexture.released
    }

    /**
     The component as Unity deserialises it: the inspector values, and every
     other field at its C# default.
     */
    constructor (settings: Settings, gridValues: Utf16String)
      ensures CurrentSettings() == settings && this.gridValues == gridValues
      ensures Shadow() == AwakeShadow
      ensures noiseTexture == null && meshObjectMesh == None && noiseFill == Unfilled
      ensures generations == 0
      ensures Valid()
    {
      gridSize := settings.gridSize;
      areaSize := settings.areaSize;
      isoLevel := settings.isoLevel;
      useSetNoise := settings.useSetNoise;
      drawDebugSpheres := settings.drawDebugSpheres;
      this.gridValues := gridValues;
      currentGridSize := Zero;
      crntAreaSize := Zero;
      crntIsoLevel := 0.0;
      crntUseSetNoise := false;
      crntDrawDebugSpheres := false;
      noiseTexture := null;
      meshObjectMesh := None;
      noiseFill := Unfilled;
      generations := 0;
    }

    /** `Awake`: the grid-size shadow starts at zero; nothing else changes. */
    method Awake()
      modifies this
      ensures currentGridSize == Zero
      ensures CurrentSettings() == old(CurrentSettings()) && gridValues == old(gridValues)
      ensures Shadow() == old(Shadow()).(gridSize := Zero)
      ensures noiseTexture == old(noiseTexture) && meshObjectMesh == old(meshObjectMesh)
      ensures noiseFill == old(noiseFill) && generations == old(generations)
    {
      currentGridSize := Zero;
    }

    /**
     `Update`. When some tracked setting moved, `GenerateMesh` runs once, and if
     it completes every shadow takes its setting's value, so an immediate second
     `Update` does nothing. When generation throws, the shadows stay behind and
     the next frame tries again. When nothing moved, nothing changes.
     */
    method Update(env: Collaborators)
      requires Valid()
      modifies this, noiseTexture
      ensures Valid()
      ensures generations == old(generations) + (if old(ParametersChanged()) then 1 else 0)
      ensures CurrentSettings() == old(CurrentSettings()) && gridValues == old(gridValues)
      ensures Shadow() == if old(ParametersChanged()) && Generates(old(CurrentSettings()))
                          then old(CurrentSettings()) else old(Shadow())
      ensures ParametersChanged() <==> old(ParametersChanged()) && !Generates(old(CurrentSettings()))
      ensures !old(ParametersChanged()) ==> unchanged(this) && (noiseTexture != null ==> unchanged(noiseTexture))
      ensures old(ParametersChanged()) && Generates(old(CurrentSettings())) ==>
                meshObjectMesh.Some? && IsAssembledMesh(meshObjectMesh.value, env.kernelOutput, env.normalize)
      ensures old(ParametersChanged()) && !Generates(old(CurrentSettings())) ==> meshObjectMesh == old(meshObjectMesh)
      ensures old(ParametersChanged()) ==>
                && noiseTexture != null
                && (noiseTexture.width, noiseTexture.height, noiseTexture.volumeDepth) == TextureShape(gridSize)
                && (TextureFits(old(noiseTexture), gridSize) ==> noiseTexture == old(noiseTexture))
                && (!TextureFits(old(noiseTexture), gridSize) ==> fresh(noiseTexture))
                && (noiseTexture != old(noiseTexture) && old(noiseTexture) != null ==> old(noiseTexture).released)
                && noiseFill == FillFor(old(CurrentSettings()), gridValues, env.unicodeNumeric,
                                        KeptFill(old(noiseTexture), gridSize, old(noiseFill)))
    {
      if !OperatorEquals(gridSize, currentGridSize) ||
         !OperatorEquals(areaSize, crntAreaSize) ||
         drawDebugSpheres != crntDrawDebugSpheres ||
         useSetNoise != crntUseSetNoise ||
         isoLevel != crntIsoLevel
      {
        var completed := GenerateMesh(env);
        if !completed {
          return;
        }

        CopyShadows();
      }
    }

    /** The shadows take the current settings, so that they no longer count as changed. */
    method CopyShadows()
      modifies this
      ensures Shadow() == CurrentSettings() && !ParametersChanged()
      ensures CurrentSettings() == old(CurrentSettings()) && gridValues == old(gridValues)
      ensures noiseTexture == old(noiseTexture) && meshObjectMesh == old(meshObjectMesh)
      ensures noiseFill == old(noiseFill) && generations == old(generations)
    {
      currentGridSize := gridSize;
      crntAreaSize := areaSize;
      crntUseSetNoise := useSetNoise;
      crntDrawDebugSpheres := drawDebugSpheres;
      crntIsoLevel := isoLevel;
    }

    /**
     `GenerateMesh`: `DispatchNoiseShader`, then `DispatchGridDebugShader` when
     debug spheres are drawn, then `DispatchMarchingCubeShader`, which ends in
     `AssignMeshToMeshObject`. `completed` is false where one of them throws;
     the steps before the throw keep their effect.
     */
    method GenerateMesh(env: Collaborators) returns (completed: bool)
      requires Valid()
      modifies this, noiseTexture
      ensures Valid()
      ensures completed <==> Generates(old(CurrentSettings()))
      ensures generations == old(generations) + 1
      ensures CurrentSettings() == old(CurrentSettings()) && gridValues == old(gridValues)
      ensures Shadow() == old(Shadow())
      ensures noiseTexture != null
      ensures (noiseTexture.width, noiseTexture.height, noiseTexture.volumeDepth) == TextureShape(gridSize)
      ensures TextureFits(old(noiseTexture), gridSize) ==> noiseTexture == old(noiseTexture)
      ensures !TextureFits(old(noiseTexture), gridSize) ==> fresh(noiseTexture)
      ensures noiseTexture != old(noiseTexture) && old(noiseTexture) != null ==> old(noiseTexture).released
      ensures noiseFill == FillFor(old(CurrentSettings()), gridValues, env.unicodeNumeric,
                                   KeptFill(old(noiseTexture), gridSize, old(noiseFill)))
      ensures completed ==> meshObjectMesh.Some? && IsAssembledMesh(meshObjectMesh.value, env.kernelOutput, env.normalize)
      ensures !completed ==> meshObjectMesh == old(meshObjectMesh)
    {
      generations := generations + 1;
      completed := DispatchNoiseShader(env.unicodeNumeric);
      if !completed {
        return;
      }
      if drawDebugSpheres {
        completed := GridDebugPointCount(gridSize) > 0;
        if !completed {
          return;
        }
      }
      completed := DispatchMarchingCubeShader(env);
    }

    /**
     `DispatchNoiseShader`: the noise texture is brought to the grid's shape,
     then filled procedurally, or from the decoded literal values when
     `useSetNoise` is on. A texture that already has the grid's shape is kept
     with its contents. Decoding throws on a negative count and uploading
     throws on an empty buffer; the texture is already rebuilt by then, so a
     new texture stays unfilled and a kept one keeps its old noise.
     */
    method DispatchNoiseShader(unicodeNumeric: CodeUnit -> real) returns (completed: bool)
      requires Valid()
      modifies this, noiseTexture
      ensures Valid()
      ensures completed <==> (useSetNoise ==> LiteralPointCount(gridSize) > 0)
      ensures CurrentSettings() == old(CurrentSettings()) && gridValues == old(gridValues)
      ensures Shadow() == old(Shadow()) && generations == old(generations)
      ensures meshObjectMesh == old(meshObjectMesh)
      ensures noiseTexture != null
      ensures (noiseTexture.width, noiseTexture.height, noiseTexture.volumeDepth) == TextureShape(gridSize)
      ensures TextureFits(old(noiseTexture), gridSize) ==> noiseTexture == old(noiseTexture)
      ensures !TextureFits(old(noiseTexture), gridSize) ==> fresh(noiseTexture)
      ensures noiseTexture != old(noiseTexture) && old(noiseTexture) != null ==> old(noiseTexture).released
      ensures noiseFill == FillFor(CurrentSettings(), gridValues, unicodeNumeric,
                                   KeptFill(old(noiseTexture), gridSize, old(noiseFill)))
    {
      var shape := TextureShape(gridSize);
      var previous := noiseTexture;
      noiseTexture := InitRenderTexture3D(noiseTexture, shape.0, shape.1, shape.2);
      if noiseTexture != previous {
        noiseFill := Unfilled;  // a new texture holds no noise yet
      }
      if !useSetNoise {
        noiseFill := Procedural;
        return true;
      }
      var noiseValues := StringArrayToFloat(gridSize, gridValues, unicodeNumeric);
      if noiseValues.None? || noiseValues.value.Length <= 0 {
        return false;
      }
      noiseFill := Literal(noiseValues.value[..]);
      return true;
    }

    /**
     `DispatchMarchingCubeShader`: an append buffer with room for five
     triangles per cell (allocating it throws when that is no room at all),
     then the triangles the kernel appended are read back and assembled into
     the mesh of the mesh filter.
     */
    method DispatchMarchingCubeShader(env: Collaborators) returns (completed: bool)
      modifies this
      ensures completed <==> TriangleBufferCount(gridSize) > 0
      ensures CurrentSettings() == old(CurrentSettings()) && gridValues == old(gridValues)
      ensures Shadow() == old(Shadow()) && generations == old(generations)
      ensures noiseTexture == old(noiseTexture) && noiseFill == old(noiseFill)
      ensures completed ==> meshObjectMesh.Some? && IsAssembledMesh(meshObjectMesh.value, env.kernelOutput, env.normalize)
      ensures !completed ==> meshObjectMesh == old(meshObjectMesh)
    {
      var numberOfTriangles := TriangleBufferCount(gridSize);
      if numberOfTriangles <= 0 {
        return false;
      }
      var meshTriangles := new Triangle[|env.kernelOutput|](i requires 0 <= i < |env.kernelOutput| => env.kernelOutput[i]);
      assert meshTriangles[..] == env.kernelOutput;
      var mesh := AssignMeshToMeshObject(meshTriangles, env.normalize);
      meshObjectMesh := Some(mesh);
      return true;
    }
  }
}
