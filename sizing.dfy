/**
 The size arithmetic of `Master_MarchingCubes`: thread-group counts, buffer
 capacities and the noise texture's dimensions, each a function of the
 inspector's `gridSize`, which Unity stores as a float triple.
 */
module Sizing {
  import opened Vectors
  import opened UnityMath

  /** Width of a thread group of the noise kernels along each axis (8x8x8). */
  const GroupWidth: int := 8

  /** Triangles the marching-cubes table can emit for one cell, at worst. */
  const MaxTrianglesPerCell: int := 5

  /**
   `Mathf.CeilToInt(extent / 8.0f)`: the thread groups the noise and grid-debug
   kernels are dispatched with along one axis. They are the fewest 8-wide groups
   that cover `extent` points.
   */
  function NoiseThreadGroups(extent: real): (groups: int)
    ensures (GroupWidth * (groups - 1)) as real < extent <= (GroupWidth * groups) as real
  {
    CeilToInt(extent / GroupWidth as real)
  }

  /** On a whole, non-negative number of points this is integer ceiling division. */
  lemma NoiseThreadGroupsOfIntegral(n: nat)
    ensures NoiseThreadGroups(n as real) == (n + GroupWidth - 1) / GroupWidth
  {
    var g := NoiseThreadGroups(n as real);
    assert GroupWidth * (g - 1) < n <= GroupWidth * g;
  }

  /**
   `Mathf.CeilToInt(numOfCells.x)` with `numOfCells = gridSize - Vector3.one`:
   the marching-cubes kernel is dispatched with one group per cell and axis.
   */
  function CellThreadGroups(extent: real): (groups: int)
    ensures (groups - 1) as real < extent - 1.0 <= groups as real
  {
    CeilToInt(extent - 1.0)
  }

  /**
   The cells of the grid, `(int)(numOfCells.x * numOfCells.y * numOfCells.z)`
   with `numOfCells = gridSize - Vector3.one`.
   */
  function CellCount(gridSize: Vector3): (cells: int)
    ensures cells > 0 <==> Product(Minus(gridSize, One)) >= 1.0
  {
    TruncToInt(Product(Minus(gridSize, One)))
  }

  /** Capacity of the append buffer of triangles: five for every cell. */
  function TriangleBufferCount(gridSize: Vector3): (count: int)
    ensures count > 0 <==> Product(Minus(gridSize, One)) >= 1.0
    ensures count % MaxTrianglesPerCell == 0
  {
    CellCount(gridSize) * MaxTrianglesPerCell
  }

  /** Points of the grid-debug append buffer, `(int)(gridSize.x * gridSize.y * gridSize.z)`. */
  function GridDebugPointCount(gridSize: Vector3): (points: int)
    ensures points > 0 <==> Product(gridSize) >= 1.0
  {
    TruncToInt(Product(gridSize))
  }

  /** Dimensions of the 3D noise texture, `(int) gridSize.x` and so on. */
  function TextureShape(gridSize: Vector3): (shape: (int, int, int))
    ensures 0.0 <= gridSize.x ==> shape.0 as real <= gridSize.x < shape.0 as real + 1.0
    ensures 0.0 <= gridSize.y ==> shape.1 as real <= gridSize.y < shape.1 as real + 1.0
    ensures 0.0 <= gridSize.z ==> shape.2 as real <= gridSize.z < shape.2 as real + 1.0
    ensures shape.0 > 0 <==> gridSize.x >= 1.0
    ensures shape.1 > 0 <==> gridSize.y >= 1.0
    ensures shape.2 > 0 <==> gridSize.z >= 1.0
  {
    (TruncToInt(gridSize.x), TruncToInt(gridSize.y), TruncToInt(gridSize.z))
  }

  function Grid(nx: int, ny: int, nz: int): Vector3
  {
    Vector3(nx as real, ny as real, nz as real)
  }

  /** The product of a vector of three whole reals is the real of the integer product. */
  lemma ProductOfWhole(v: Vector3, a: int, b: int, c: int)
    requires v.x == a as real && v.y == b as real && v.z == c as real
    ensures Product(v) == (a * b * c) as real
  {
    RealOfTripleProduct(v.x, v.y, v.z, a, b, c);
  }

  lemma CellCountOfIntegral(nx: int, ny: int, nz: int)
    ensures CellCount(Grid(nx, ny, nz)) == (nx - 1) * (ny - 1) * (nz - 1)
  {
    var cells := Minus(Grid(nx, ny, nz), One);
    ProductOfWhole(cells, nx - 1, ny - 1, nz - 1);
    ConversionsOfWhole(Product(cells), (nx - 1) * (ny - 1) * (nz - 1));
  }

  lemma GridPointCountOfIntegral(nx: int, ny: int, nz: int)
    ensures GridDebugPointCount(Grid(nx, ny, nz)) == nx * ny * nz
  {
    ProductOfWhole(Grid(nx, ny, nz), nx, ny, nz);
    ConversionsOfWhole(Product(Grid(nx, ny, nz)), nx * ny * nz);
  }

  /**
   For a grid of whole point counts the capacity is five triangles for each of
   the `(nx-1)(ny-1)(nz-1)` cells, and the texture has the grid's own dimensions.
   */
  lemma SizesOfIntegralGrid(nx: int, ny: int, nz: int)
    ensures TriangleBufferCount(Grid(nx, ny, nz)) == 5 * ((nx - 1) * (ny - 1) * (nz - 1))
    ensures GridDebugPointCount(Grid(nx, ny, nz)) == nx * ny * nz
    ensures TextureShape(Grid(nx, ny, nz)) == (nx, ny, nz)
  {
    CellCountOfIntegral(nx, ny, nz);
    GridPointCountOfIntegral(nx, ny, nz);
    ConversionsOfIntegral(nx);
    ConversionsOfIntegral(ny);
    ConversionsOfIntegral(nz);
  }

  /** A grid of at least two points per axis has room for at least one cell's triangles. */
  lemma CapacityOfProperGrid(nx: int, ny: int, nz: int)
    requires nx >= 2 && ny >= 2 && nz >= 2
    ensures TriangleBufferCount(Grid(nx, ny, nz)) >= MaxTrianglesPerCell
    ensures GridDebugPointCount(Grid(nx, ny, nz)) >= 8
  {
    SizesOfIntegralGrid(nx, ny, nz);
    ProductAtLeast(nx - 1, ny - 1, nz - 1, 1);
    ProductAtLeast(nx, ny, nz, 2);
  }

  lemma ProductAtLeast(a: int, b: int, c: int, m: nat)
    requires a >= m && b >= m && c >= m
    ensures a * b * c >= m * m * m
  {
    ProductMonotone(a, b, m, m);
    ProductMonotone(a * b, c, m * m, m);
  }

  lemma ProductMonotone(a: int, b: int, m: nat, n: nat)
    requires a >= m && b >= n
    ensures a * b >= m * n
  {
    assert a * b - m * n == (a - m) * b + m * (b - n);
  }
}
