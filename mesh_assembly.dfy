/**
 Mesh assembly: `AssignMeshToMeshObject` and `AddOrSum`.

 The triangle soup read back from the marching-cubes kernel is flattened into
 three parallel arrays (positions, normals, an identity index list); a dictionary
 keyed by exact position sums the raw normals of every corner at that position,
 and a second pass gives each corner the normalised sum for its position.

 As written, all three corners of a triangle carry that triangle's `normal1`;
 `normal2` and `normal3` are never read. The model keeps this behaviour.
 */
module MeshAssembly {
  import opened Vectors

  /** One triangle as the kernel appends it: three corners and three normals. */
  datatype Triangle = Triangle(point1: Vector3, point2: Vector3, point3: Vector3,
                               normal1: Vector3, normal2: Vector3, normal3: Vector3)

  /** What is handed to the `MeshFilter`: positions, index list and normals. */
  datatype Mesh = Mesh(name: string, vertices: seq<Vector3>, triangles: seq<int>, normals: seq<Vector3>)

  const MeshName: string := "Marching Cubes Mesh"

  /** Corner `c` of a triangle: `point1`, `point2` or `point3`. */
  function Corner(t: Triangle, c: nat): Vector3
    requires c < 3
  {
    if c == 0 then t.point1 else if c == 1 then t.point2 else t.point3
  }

  /** `AddOrSum`, on the dictionary as a value: the dictionary it leaves behind. */
  function AddOrSum(dict: map<Vector3, Vector3>, key: Vector3, valueToAdd: Vector3): (result: map<Vector3, Vector3>)
    ensures key in result
  {
    dict[key := if key in dict then Plus(dict[key], valueToAdd) else valueToAdd]
  }

  /**
   `AddOrSum` inserts the value under an absent key and adds it to the stored
   value of a present one; every other entry is unchanged, and the key set grows
   by that key alone.
   */
  lemma AddOrSumUpdatesOneKey(dict: map<Vector3, Vector3>, key: Vector3, valueToAdd: Vector3)
    ensures forall k :: k in AddOrSum(dict, key, valueToAdd) <==> k in dict || k == key
    ensures key in dict ==> AddOrSum(dict, key, valueToAdd)[key] == Plus(dict[key], valueToAdd)
    ensures key !in dict ==> AddOrSum(dict, key, valueToAdd)[key] == valueToAdd
    ensures forall k :: k in dict && k != key ==> AddOrSum(dict, key, valueToAdd)[k] == dict[k]
  {
  }

  /** `Dictionary.TryGetValue` as the second loop uses it: the stored value, or `default(Vector3)` when the key is absent. */
  function LookupOrDefault(dict: map<Vector3, Vector3>, key: Vector3): (value: Vector3)
    ensures value != Zero ==> key in dict
  {
    if key in dict then dict[key] else Zero
  }

  /** What a corner at position `corner` carrying `normal` contributes to the normal sum at `p`. */
  function Contribution(corner: Vector3, normal: Vector3, p: Vector3): Vector3
  {
    if p == corner then normal else Zero
  }

  /** Seen through `LookupOrDefault`, `AddOrSum` adds the value at its key and nothing anywhere else. */
  lemma LookupAfterAddOrSum(dict: map<Vector3, Vector3>, key: Vector3, valueToAdd: Vector3, p: Vector3)
    ensures LookupOrDefault(AddOrSum(dict, key, valueToAdd), p) == Plus(LookupOrDefault(dict, p), Contribution(key, valueToAdd, p))
  {
    AddOrSumUpdatesOneKey(dict, key, valueToAdd);
  }

  /** The three `AddOrSum` calls the first loop makes for one triangle, all with `normal1`. */
  function AddTriangle(dict: map<Vector3, Vector3>, t: Triangle): map<Vector3, Vector3>
  {
    AddOrSum(AddOrSum(AddOrSum(dict, t.point1, t.normal1), t.point2, t.normal1), t.point3, t.normal1)
  }

  lemma LookupAfterAddTriangle(dict: map<Vector3, Vector3>, t: Triangle, p: Vector3)
    ensures LookupOrDefault(AddTriangle(dict, t), p) == Plus(Plus(Plus(LookupOrDefault(dict, p),
              Contribution(t.point1, t.normal1, p)), Contribution(t.point2, t.normal1, p)), Contribution(t.point3, t.normal1, p))
  {
    var d1 := AddOrSum(dict, t.point1, t.normal1);
    var d2 := AddOrSum(d1, t.point2, t.normal1);
    LookupAfterAddOrSum(dict, t.point1, t.normal1, p);
    LookupAfterAddOrSum(d1, t.point2, t.normal1, p);
    LookupAfterAddOrSum(d2, t.point3, t.normal1, p);
  }

  /** The dictionary after the first loop has handled the first `n` triangles. */
  function AccumulatedNormals(tris: seq<Triangle>, n: nat): map<Vector3, Vector3>
    requires n <= |tris|
  {
    if n == 0 then map[] else AddTriangle(AccumulatedNormals(tris, n - 1), tris[n - 1])
  }

  /** Every corner position among the first `n` triangles. */
  function Positions(tris: seq<Triangle>, n: nat): set<Vector3>
    requires n <= |tris|
  {
    if n == 0 then {} else Positions(tris, n - 1) + {tris[n - 1].point1, tris[n - 1].point2, tris[n - 1].point3}
  }

  /** The positions are exactly the corners of the first `n` triangles. */
  lemma {:induction false} PositionsAreCorners(tris: seq<Triangle>, n: nat)
    requires n <= |tris|
    ensures forall i, c :: 0 <= i < n && 0 <= c < 3 ==> Corner(tris[i], c) in Positions(tris, n)
    ensures forall q :: q in Positions(tris, n) ==> exists i, c :: 0 <= i < n && 0 <= c < 3 && q == Corner(tris[i], c)
  {
    if n > 0 {
      PositionsAreCorners(tris, n - 1);
      var t := tris[n - 1];
      assert t.point1 == Corner(t, 0) && t.point2 == Corner(t, 1) && t.point3 == Corner(t, 2);
    }
  }

  /**
   Reference definition of the smoothed normal before normalisation: over the
   first `n` triangles, the sum of `normal1` over every corner whose position is
   exactly `p` (zero when there is none).
   */
  function NormalSum(tris: seq<Triangle>, n: nat, p: Vector3): Vector3
    requires n <= |tris|
  {
    if n == 0 then Zero
    else
      var t := tris[n - 1];
      Plus(Plus(Plus(NormalSum(tris, n - 1, p),
        Contribution(t.point1, t.normal1, p)), Contribution(t.point2, t.normal1, p)), Contribution(t.point3, t.normal1, p))
  }

  lemma AddTriangleKeys(dict: map<Vector3, Vector3>, t: Triangle)
    ensures forall k :: k in AddTriangle(dict, t) <==> k in dict || k in {t.point1, t.point2, t.point3}
  {
    var d1 := AddOrSum(dict, t.point1, t.normal1);
    var d2 := AddOrSum(d1, t.point2, t.normal1);
    AddOrSumUpdatesOneKey(dict, t.point1, t.normal1);
    AddOrSumUpdatesOneKey(d1, t.point2, t.normal1);
    AddOrSumUpdatesOneKey(d2, t.point3, t.normal1);
  }

  /** After the first loop has handled `n` triangles, the dictionary's keys are exactly the corner positions seen. */
  lemma {:induction false} AccumulatedNormalsKeys(tris: seq<Triangle>, n: nat)
    requires n <= |tris|
    ensures forall p :: p in AccumulatedNormals(tris, n) <==> p in Positions(tris, n)
  {
    if n > 0 {
      var t := tris[n - 1];
      var d0 := AccumulatedNormals(tris, n - 1);
      AccumulatedNormalsKeys(tris, n - 1);
      AddTriangleKeys(d0, t);
      assert AccumulatedNormals(tris, n) == AddTriangle(d0, t);
    }
  }

  /** Every corner of every triangle is a key of the finished dictionary, so each lookup of the second loop finds its entry. */
  lemma CornersAreKeys(tris: seq<Triangle>)
    ensures forall i, c :: 0 <= i < |tris| && 0 <= c < 3 ==> Corner(tris[i], c) in AccumulatedNormals(tris, |tris|)
  {
    AccumulatedNormalsKeys(tris, |tris|);
    PositionsAreCorners(tris, |tris|);
  }

  /**
   Looking any position up in the dictionary the first loop has built from `n`
   triangles gives the normal sum there: its entry for a corner position, and
   zero for a position no corner has.
   */
  lemma {:induction false} LookupAgreesWithSum(tris: seq<Triangle>, n: nat, p: Vector3)
    requires n <= |tris|
    ensures LookupOrDefault(AccumulatedNormals(tris, n), p) == NormalSum(tris, n, p)
  {
    if n > 0 {
      var d0, t := AccumulatedNormals(tris, n - 1), tris[n - 1];
      LookupAgreesWithSum(tris, n - 1, p);
      LookupAfterAddTriangle(d0, t, p);
      calc {
        LookupOrDefault(AccumulatedNormals(tris, n), p);
        LookupOrDefault(AddTriangle(d0, t), p);
        Plus(Plus(Plus(LookupOrDefault(d0, p),
          Contribution(t.point1, t.normal1, p)), Contribution(t.point2, t.normal1, p)), Contribution(t.point3, t.normal1, p));
        Plus(Plus(Plus(NormalSum(tris, n - 1, p),
          Contribution(t.point1, t.normal1, p)), Contribution(t.point2, t.normal1, p)), Contribution(t.point3, t.normal1, p));
        NormalSum(tris, n, p);
      }
    }
  }

  /**
   After the first loop has handled `n` triangles, each key of the dictionary
   holds the sum of the `normal1` of every corner at that position.
   */
  lemma AccumulatedNormalsAreSums(tris: seq<Triangle>, n: nat)
    requires n <= |tris|
    ensures forall p :: p in AccumulatedNormals(tris, n) ==>
              AccumulatedNormals(tris, n)[p] == NormalSum(tris, n, p)
  {
    forall p | p in AccumulatedNormals(tris, n)
      ensures AccumulatedNormals(tris, n)[p] == NormalSum(tris, n, p)
    {
      LookupAgreesWithSum(tris, n, p);
    }
  }

  /**
   Only `normal1` reaches the sums, as all three corners of a triangle carry
   it: triangles that agree on their corners and their first normal give the
   same sum at every position, whatever their `normal2` and `normal3`.
   */
  lemma {:induction false} SecondAndThirdNormalsIgnored(tris: seq<Triangle>, others: seq<Triangle>, n: nat, p: Vector3)
    requires n <= |tris| && n <= |others|
    requires forall i :: 0 <= i < n ==>
               others[i] == tris[i].(normal2 := others[i].normal2, normal3 := others[i].normal3)
    ensures NormalSum(others, n, p) == NormalSum(tris, n, p)
  {
    if n > 0 {
      SecondAndThirdNormalsIgnored(tris, others, n - 1, p);
    }
  }

  /** The vertex array's first `3n` entries once the first loop has handled `n` triangles. */
  function Vertices(tris: seq<Triangle>, n: nat): (verts: seq<Vector3>)
    requires n <= |tris|
    ensures |verts| == 3 * n
  {
    if n == 0 then []
    else Vertices(tris, n - 1) + [tris[n - 1].point1, tris[n - 1].point2, tris[n - 1].point3]
  }

  /** Vertex `3i + c` is corner `c` of triangle `i`. */
  lemma {:induction false} VerticesAreCorners(tris: seq<Triangle>, n: nat)
    requires n <= |tris|
    ensures forall i, c :: 0 <= i < n && 0 <= c < 3 ==> Vertices(tris, n)[3 * i + c] == Corner(tris[i], c)
  {
    if n > 0 {
      VerticesAreCorners(tris, n - 1);
    }
  }

  /** The normals after the first loop: each corner carries its triangle's `normal1`, as written. */
  function FlatNormals(tris: seq<Triangle>, n: nat): (normals: seq<Vector3>)
    requires n <= |tris|
    ensures |normals| == 3 * n
  {
    if n == 0 then []
    else FlatNormals(tris, n - 1) + [tris[n - 1].normal1, tris[n - 1].normal1, tris[n - 1].normal1]
  }

  /** After the first loop all three normals of triangle `i` are its `normal1`; `normal2` and `normal3` are unused. */
  lemma {:induction false} FlatNormalsAreFirstNormals(tris: seq<Triangle>, n: nat)
    requires n <= |tris|
    ensures forall i :: 0 <= i < n ==>
              var normals := FlatNormals(tris, n);
              normals[3 * i] == tris[i].normal1 && normals[3 * i + 1] == tris[i].normal1 && normals[3 * i + 2] == tris[i].normal1
  {
    if n > 0 {
      FlatNormalsAreFirstNormals(tris, n - 1);
    }
  }

  /** The index list `0, 1, ..., m - 1`. */
  function Identity(m: nat): seq<int>
  {
    seq(m, k => k)
  }

  lemma IdentityExtends(m: nat)
    ensures Identity(m) + [m, m + 1, m + 2] == Identity(m + 3)
  {
    var extended := Identity(m) + [m, m + 1, m + 2];
    forall k | 0 <= k < m + 3
      ensures extended[k] == k
    {
      if k < m {
        assert extended[k] == Identity(m)[k];
      }
    }
  }

  /**
   The normal array's first `3i` entries once the second loop has handled `i`
   triangles: each vertex gets the normalised value the dictionary holds for its
   position.
   */
  function SmoothedNormals(verts: seq<Vector3>, i: nat, dict: map<Vector3, Vector3>, normalize: Vector3 -> Vector3)
    : (normals: seq<Vector3>)
    requires 3 * i <= |verts|
    ensures |normals| == 3 * i
  {
    if i == 0 then []
    else
      SmoothedNormals(verts, i - 1, dict, normalize)
        + [normalize(LookupOrDefault(dict, verts[3 * i - 3])), normalize(LookupOrDefault(dict, verts[3 * i - 2])),
           normalize(LookupOrDefault(dict, verts[3 * i - 1]))]
  }

  lemma {:induction false} SmoothedNormalsAt(verts: seq<Vector3>, i: nat, dict: map<Vector3, Vector3>,
                                             normalize: Vector3 -> Vector3)
    requires 3 * i <= |verts|
    ensures forall k :: 0 <= k < 3 * i ==>
              SmoothedNormals(verts, i, dict, normalize)[k] == normalize(LookupOrDefault(dict, verts[k]))
  {
    if i > 0 {
      SmoothedNormalsAt(verts, i - 1, dict, normalize);
    }
  }

  /**
   The mesh `AssignMeshToMeshObject` builds from `tris`: `3 * |tris|` vertices,
   normals and indices; the vertices of triangle `i` are its three corners in
   order at `3i`, `3i+1`, `3i+2`; index `k` is `k`; and every vertex's normal is
   the normalised sum of `normal1` over all corners sharing its exact position.
   */
  ghost predicate IsAssembledMesh(mesh: Mesh, tris: seq<Triangle>, normalize: Vector3 -> Vector3)
  {
    && mesh.name == MeshName
    && |mesh.vertices| == 3 * |tris|
    && |mesh.normals| == 3 * |tris|
    && |mesh.triangles| == 3 * |tris|
    && (forall i, c :: 0 <= i < |tris| && 0 <= c < 3 ==> mesh.vertices[3 * i + c] == Corner(tris[i], c))
    && (forall k :: 0 <= k < |mesh.triangles| ==> mesh.triangles[k] == k)
    && (forall k :: 0 <= k < |mesh.normals| ==>
          mesh.normals[k] == normalize(NormalSum(tris, |tris|, mesh.vertices[k])))
  }

  /** In the arrays the two loops leave behind, each vertex's normal is the normalised sum at its own position. */
  lemma NormalsFollowPositions(tris: seq<Triangle>, normalize: Vector3 -> Vector3)
    ensures var verts := Vertices(tris, |tris|);
            var normals := SmoothedNormals(verts, |tris|, AccumulatedNormals(tris, |tris|), normalize);
            forall k :: 0 <= k < 3 * |tris| ==> normals[k] == normalize(NormalSum(tris, |tris|, verts[k]))
  {
    var n := |tris|;
    var verts := Vertices(tris, n);
    var dict := AccumulatedNormals(tris, n);
    SmoothedNormalsAt(verts, n, dict, normalize);
    forall k | 0 <= k < 3 * n
      ensures LookupOrDefault(dict, verts[k]) == NormalSum(tris, n, verts[k])
    {
      LookupAgreesWithSum(tris, n, verts[k]);
    }
  }

  /** The arrays the two loops leave behind make up the assembled mesh. */
  lemma AssembledFromLoops(tris: seq<Triangle>, normalize: Vector3 -> Vector3)
    ensures var verts := Vertices(tris, |tris|);
            IsAssembledMesh(Mesh(MeshName, verts, Identity(3 * |tris|),
                                 SmoothedNormals(verts, |tris|, AccumulatedNormals(tris, |tris|), normalize)),
                            tris, normalize)
  {
    VerticesAreCorners(tris, |tris|);
    NormalsFollowPositions(tris, normalize);
  }

  /** In an assembled mesh, vertices at the same exact position carry the same normal. */
  lemma SharedPositionsShareNormals(mesh: Mesh, tris: seq<Triangle>, normalize: Vector3 -> Vector3)
    requires IsAssembledMesh(mesh, tris, normalize)
    ensures forall k, l :: 0 <= k < |mesh.vertices| && 0 <= l < |mesh.vertices| && mesh.vertices[k] == mesh.vertices[l]
              ==> mesh.normals[k] == mesh.normals[l]
  {
  }

  /** The body of the first loop: store triangle `t` at `index` and add its corners to the dictionary. */
  method StoreTriangle(t: Triangle, index: nat, triangleVertices: array<Vector3>, triangleNormals: array<Vector3>,
                       triangleIds: array<int>, averagedVerticeNormals: map<Vector3, Vector3>)
    returns (dict: map<Vector3, Vector3>)
    requires index + 3 <= triangleVertices.Length && index + 3 <= triangleNormals.Length && index + 3 <= triangleIds.Length
    requires triangleVertices != triangleNormals
    modifies triangleVertices, triangleNormals, triangleIds
    ensures triangleVertices[..] == old(triangleVertices[..])[index := t.point1][index + 1 := t.point2][index + 2 := t.point3]
    ensures triangleNormals[..] == old(triangleNormals[..])[index := t.normal1][index + 1 := t.normal1][index + 2 := t.normal1]
    ensures triangleIds[..] == old(triangleIds[..])[index := index][index + 1 := index + 1][index + 2 := index + 2]
    ensures triangleVertices[..index + 3] == old(triangleVertices[..index]) + [t.point1, t.point2, t.point3]
    ensures triangleNormals[..index + 3] == old(triangleNormals[..index]) + [t.normal1, t.normal1, t.normal1]
    ensures triangleIds[..index + 3] == old(triangleIds[..index]) + [index, index + 1, index + 2]
    ensures dict == AddTriangle(averagedVerticeNormals, t)
  {
    triangleVertices[index] := t.point1;
    triangleVertices[index + 1] := t.point2;
    triangleVertices[index + 2] := t.point3;

    triangleNormals[index] := t.normal1;
    triangleNormals[index + 1] := t.normal1;
    triangleNormals[index + 2] := t.normal1;

    triangleIds[index] := index;
    triangleIds[index + 1] := index + 1;
    triangleIds[index + 2] := index + 2;

    dict := AddOrSum(averagedVerticeNormals, triangleVertices[index], triangleNormals[index]);
    dict := AddOrSum(dict, triangleVertices[index + 1], triangleNormals[index + 1]);
    dict := AddOrSum(dict, triangleVertices[index + 2], triangleNormals[index + 2]);
  }

  /** The body of the second loop: give the three vertices at `index` their normalised sums. */
  method SmoothTriangle(index: nat, triangleVertices: array<Vector3>, triangleNormals: array<Vector3>,
                        averagedVerticeNormals: map<Vector3, Vector3>, normalize: Vector3 -> Vector3)
    requires index + 3 <= triangleVertices.Length && index + 3 <= triangleNormals.Length
    requires triangleVertices != triangleNormals
    modifies triangleNormals
    ensures triangleNormals[..] == old(triangleNormals[..])
              [index := normalize(LookupOrDefault(averagedVerticeNormals, triangleVertices[index]))]
              [index + 1 := normalize(LookupOrDefault(averagedVerticeNormals, triangleVertices[index + 1]))]
              [index + 2 := normalize(LookupOrDefault(averagedVerticeNormals, triangleVertices[index + 2]))]
    ensures triangleNormals[..index + 3] == old(triangleNormals[..index]) +
              [normalize(LookupOrDefault(averagedVerticeNormals, triangleVertices[index])),
               normalize(LookupOrDefault(averagedVerticeNormals, triangleVertices[index + 1])),
               normalize(LookupOrDefault(averagedVerticeNormals, triangleVertices[index + 2]))]
  {
    var tempNormal := LookupOrDefault(averagedVerticeNormals, triangleVertices[index]);
    triangleNormals[index] := normalize(tempNormal);

    tempNormal := LookupOrDefault(averagedVerticeNormals, triangleVertices[index + 1]);
    triangleNormals[index + 1] := normalize(tempNormal);

    tempNormal := LookupOrDefault(averagedVerticeNormals, triangleVertices[index + 2]);
    triangleNormals[index + 2] := normalize(tempNormal);
  }

  /**
   The first loop of `AssignMeshToMeshObject`: lays the triangles' corners out in
   the three arrays and sums the raw normals per position in the dictionary.
   */
  method FlattenAndAccumulate(triangles: array<Triangle>, triangleVertices: array<Vector3>,
                              triangleNormals: array<Vector3>, triangleIds: array<int>)
    returns (averagedVerticeNormals: map<Vector3, Vector3>)
    requires triangleVertices.Length == triangleNormals.Length == triangleIds.Length == 3 * triangles.Length
    requires triangleVertices != triangleNormals
    modifies triangleVertices, triangleNormals, triangleIds
    ensures triangleVertices[..] == Vertices(triangles[..], triangles.Length)
    ensures triangleNormals[..] == FlatNormals(triangles[..], triangles.Length)
    ensures triangleIds[..] == Identity(3 * triangles.Length)
    ensures averagedVerticeNormals == AccumulatedNormals(triangles[..], triangles.Length)
  {
    ghost var tris := triangles[..];
    var n := triangles.Length;
    averagedVerticeNormals := map[];
    var index := 0;
    var i := 0;
    while i < n
      invariant 0 <= i <= n
      invariant triangles[..] == tris
      invariant triangleVertices[..3 * i] == Vertices(tris, i)
      invariant triangleNormals[..3 * i] == FlatNormals(tris, i)
      invariant triangleIds[..3 * i] == Identity(3 * i)
      invariant averagedVerticeNormals == AccumulatedNormals(tris, i)
    {
      index := 3 * i;
      averagedVerticeNormals :=
        StoreTriangle(triangles[i], index, triangleVertices, triangleNormals, triangleIds, averagedVerticeNormals);
      IdentityExtends(index);
      i := i + 1;
    }
    assert triangleVertices[..] == triangleVertices[..3 * n];
    assert triangleNormals[..] == triangleNormals[..3 * n];
    assert triangleIds[..] == triangleIds[..3 * n];
  }

  /**
   The second loop of `AssignMeshToMeshObject`: every vertex's normal becomes the
   normalised dictionary entry for its position.
   */
  method SmoothNormals(triangleCount: nat, triangleVertices: array<Vector3>, triangleNormals: array<Vector3>,
                       averagedVerticeNormals: map<Vector3, Vector3>, normalize: Vector3 -> Vector3)
    requires triangleVertices.Length == triangleNormals.Length == 3 * triangleCount
    requires triangleVertices != triangleNormals
    modifies triangleNormals
    ensures triangleNormals[..] == SmoothedNormals(triangleVertices[..], triangleCount, averagedVerticeNormals, normalize)
  {
    ghost var verts := triangleVertices[..];
    var index := 0;
    var i := 0;
    while i < triangleCount
      invariant 0 <= i <= triangleCount
      invariant triangleVertices[..] == verts
      invariant triangleNormals[..3 * i] == SmoothedNormals(verts, i, averagedVerticeNormals, normalize)
    {
      index := 3 * i;
      SmoothTriangle(index, triangleVertices, triangleNormals, averagedVerticeNormals, normalize);
      assert triangleVertices[index] == verts[3 * (i + 1) - 3];
      assert triangleVertices[index + 1] == verts[3 * (i + 1) - 2];
      assert triangleVertices[index + 2] == verts[3 * (i + 1) - 1];
      i := i + 1;
    }
    assert triangleNormals[..] == triangleNormals[..3 * triangleCount];
  }

  /**
   `AssignMeshToMeshObject` up to the final `meshObject.mesh = mesh`, which the
   host does with the result. `normalize` is `Vector3.normalized`.
   */
  method AssignMeshToMeshObject(triangles: array<Triangle>, normalize: Vector3 -> Vector3)
    returns (mesh: Mesh)
    ensures IsAssembledMesh(mesh, triangles[..], normalize)
    ensures forall k, l :: 0 <= k < |mesh.vertices| && 0 <= l < |mesh.vertices| && mesh.vertices[k] == mesh.vertices[l]
              ==> mesh.normals[k] == mesh.normals[l]
  {
    var triangleVertices := new Vector3[triangles.Length * 3];
    var triangleNormals := new Vector3[triangles.Length * 3];
    var triangleIds := new int[triangles.Length * 3];

    var averagedVerticeNormals := FlattenAndAccumulate(triangles, triangleVertices, triangleNormals, triangleIds);
    SmoothNormals(triangles.Length, triangleVertices, triangleNormals, averagedVerticeNormals, normalize);

    mesh := Mesh(MeshName, triangleVertices[..], triangleIds[..], triangleNormals[..]);
    AssembledFromLoops(triangles[..], normalize);
    SharedPositionsShareNormals(mesh, triangles[..], normalize);
  }
}
