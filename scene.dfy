/** The scene: materials, world-space triangles, objects with their bounding
    boxes, light sources and the world that holds them (classes Triangle,
    Material, WorldObject, WorldSpace and the light classes of Raytracer.cs). */
module Scene {
  import opened Colours
  import opened Vectors
  import opened VectorCells

  datatype Material = Material(
    diffuse: Colour,
    specular: Colour,
    diffuseVal: real,
    reflectivity: real,
    shininess: real)

  /** A world-space triangle. Rays exclude the triangle they leave from by
      reference, so a triangle is an object with an identity; its fields are
      fixed once it is built. */
  class Triangle {
    const v0: Vector3
    const v1: Vector3
    const v2: Vector3
    const normal: Vector3
    const material: Material

    constructor (a: Vector3, b: Vector3, c: Vector3, n: Vector3, m: Material)
      ensures v0 == a && v1 == b && v2 == c && normal == n && material == m
    {
      v0, v1, v2, normal, material := a, b, c, n, m;
    }
  }

  /** The light variants. The base LightSource class (the world's default
      light) is shaded like a point light, so it is a PointLight here. The
      spot angle is in radians, as the SpotLight constructor stores it. */
  datatype Light =
    | PointLight(origin: Vector3, brightness: real, colour: Colour)
    | SpotLight(origin: Vector3, lightVec: Vector3, brightness: real, colour: Colour, spotAngle: real)
    | DirectionalLight(lightVec: Vector3, brightness: real, colour: Colour)

  /** What a render reads of one object: its bounding box and its triangles. */
  datatype Mesh = Mesh(minAABB: Vector3, maxAABB: Vector3, triangles: seq<Triangle>)

  /** What a render reads of the world. */
  datatype SceneView = SceneView(objects: seq<Mesh>, light: Light, ambientBrightness: real)

  /** The inputs of the trigonometric object transform. */
  datatype Pose = Pose(
    origin: Vector3,
    xAngle: real, yAngle: real, zAngle: real,
    scaleX: real, scaleY: real, scaleZ: real)

  /** The rotation, scale and translation of one point for a pose. It uses
      sines and cosines, so the model takes it as a parameter. */
  type Placement = (Pose, Vector3) -> Vector3

  // ---------------------------------------------------------------------------
  // Bounding boxes

  predicate Within(lo: Vector3, hi: Vector3, p: Vector3) {
    lo.x <= p.x <= hi.x && lo.y <= p.y <= hi.y && lo.z <= p.z <= hi.z
  }

  /** Every point lies in the box. */
  predicate Encloses(lo: Vector3, hi: Vector3, points: seq<Vector3>) {
    forall k :: 0 <= k < |points| ==> Within(lo, hi, points[k])
  }

  /** Each of the six bounds is the coordinate of some point. */
  predicate Attained(lo: Vector3, hi: Vector3, points: seq<Vector3>) {
    && (exists k :: 0 <= k < |points| && points[k].x == lo.x)
    && (exists k :: 0 <= k < |points| && points[k].y == lo.y)
    && (exists k :: 0 <= k < |points| && points[k].z == lo.z)
    && (exists k :: 0 <= k < |points| && points[k].x == hi.x)
    && (exists k :: 0 <= k < |points| && points[k].y == hi.y)
    && (exists k :: 0 <= k < |points| && points[k].z == hi.z)
  }

  /** The tightest axis-aligned box: it encloses the points and touches them
      on all six sides. An empty point set gives the box at the origin. */
  predicate IsExtent(lo: Vector3, hi: Vector3, points: seq<Vector3>) {
    && Encloses(lo, hi, points)
    && (|points| > 0 ==> Attained(lo, hi, points))
    && (|points| == 0 ==> lo == ZERO && hi == ZERO)
  }

  /** The extent loop of WorldObject.CalculatePoints. */
  method Extent(points: seq<Vector3>) returns (minAABB: Vector3, maxAABB: Vector3)
    ensures IsExtent(minAABB, maxAABB, points)
  {
    var minX, minY, minZ, maxX, maxY, maxZ := 0.0, 0.0, 0.0, 0.0, 0.0, 0.0;
    ghost var iMinX, iMinY, iMinZ, iMaxX, iMaxY, iMaxZ := 0, 0, 0, 0, 0, 0;
    for i := 0 to |points|
      invariant i == 0 ==> minX == minY == minZ == maxX == maxY == maxZ == 0.0
      invariant Encloses(Vector3(minX, minY, minZ), Vector3(maxX, maxY, maxZ), points[..i])
      invariant 0 < i ==> iMinX < i && points[iMinX].x == minX && iMaxX < i && points[iMaxX].x == maxX
      invariant 0 < i ==> iMinY < i && points[iMinY].y == minY && iMaxY < i && points[iMaxY].y == maxY
      invariant 0 < i ==> iMinZ < i && points[iMinZ].z == minZ && iMaxZ < i && points[iMaxZ].z == maxZ
    {
      var p := points[i];
      if i == 0 {
        minX, minY, minZ, maxX, maxY, maxZ := p.x, p.y, p.z, p.x, p.y, p.z;
        iMinX, iMinY, iMinZ, iMaxX, iMaxY, iMaxZ := 0, 0, 0, 0, 0, 0;
      }
      if p.x < minX {
        minX := p.x;
        iMinX := i;
      }
      if p.y < minY {
        minY := p.y;
        iMinY := i;
      }
      if p.z < minZ {
        minZ := p.z;
        iMinZ := i;
      }
      if p.x > maxX {
        maxX := p.x;
        iMaxX := i;
      }
      if p.y > maxY {
        maxY := p.y;
        iMaxY := i;
      }
      if p.z > maxZ {
        maxZ := p.z;
        iMaxZ := i;
      }
    }
    minAABB := Vector3(minX, minY, minZ);
    maxAABB := Vector3(maxX, maxY, maxZ);
    assert points[..|points|] == points;
  }

  /** The box of a point set is unique: two boxes that are both extents are equal. */
  lemma ExtentUnique(lo: Vector3, hi: Vector3, lo': Vector3, hi': Vector3, points: seq<Vector3>)
    requires IsExtent(lo, hi, points) && IsExtent(lo', hi', points)
    ensures lo == lo' && hi == hi'
  {
    if |points| > 0 {
      LowerCornerUnique(lo, hi, lo', hi', points);
      UpperCornerUnique(lo, hi, lo', hi', points);
    }
  }

  lemma LowerCornerUnique(lo: Vector3, hi: Vector3, lo': Vector3, hi': Vector3, points: seq<Vector3>)
    requires |points| > 0 && IsExtent(lo, hi, points) && IsExtent(lo', hi', points)
    ensures lo == lo'
  {
    var a :| 0 <= a < |points| && points[a].x == lo.x;
    var b :| 0 <= b < |points| && points[b].x == lo'.x;
    assert Within(lo, hi, points[b]) && Within(lo', hi', points[a]);
    var c :| 0 <= c < |points| && points[c].y == lo.y;
    var d :| 0 <= d < |points| && points[d].y == lo'.y;
    assert Within(lo, hi, points[d]) && Within(lo', hi', points[c]);
    var e :| 0 <= e < |points| && points[e].z == lo.z;
    var f :| 0 <= f < |points| && points[f].z == lo'.z;
    assert Within(lo, hi, points[f]) && Within(lo', hi', points[e]);
  }

  lemma UpperCornerUnique(lo: Vector3, hi: Vector3, lo': Vector3, hi': Vector3, points: seq<Vector3>)
    requires |points| > 0 && IsExtent(lo, hi, points) && IsExtent(lo', hi', points)
    ensures hi == hi'
  {
    var g :| 0 <= g < |points| && points[g].x == hi.x;
    var h :| 0 <= h < |points| && points[h].x == hi'.x;
    assert Within(lo, hi, points[h]) && Within(lo', hi', points[g]);
    var m :| 0 <= m < |points| && points[m].y == hi.y;
    var n :| 0 <= n < |points| && points[n].y == hi'.y;
    assert Within(lo, hi, points[n]) && Within(lo', hi', points[m]);
    var q :| 0 <= q < |points| && points[q].z == hi.z;
    var r :| 0 <= r < |points| && points[r].z == hi'.z;
    assert Within(lo, hi, points[r]) && Within(lo', hi', points[q]);
  }

  /** The normal the renderer gives a triangle: the unit vector of
      (v1 - v0) x (v2 - v0), in vertex order. */
  function FaceNormal(unit: Vector3 -> Vector3, a: Vector3, b: Vector3, c: Vector3): (r: Vector3)
    ensures a == b || b == c || a == c ==> r == unit(ZERO)
  {
    unit(CrossProduct(Subtract(b, a), Subtract(c, a)))
  }

  /** When unit rescales its argument, the face normal is orthogonal to both
      edges of the triangle. */
  lemma {:induction false} FaceNormalOrthogonal(unit: Vector3 -> Vector3, a: Vector3, b: Vector3, c: Vector3, k: real)
    requires unit(CrossProduct(Subtract(b, a), Subtract(c, a))) == Vectors.Multiply(CrossProduct(Subtract(b, a), Subtract(c, a)), k)
    ensures DotProduct(Subtract(b, a), FaceNormal(unit, a, b, c)) == 0.0
    ensures DotProduct(Subtract(c, a), FaceNormal(unit, a, b, c)) == 0.0
  {
    var cross := CrossProduct(Subtract(b, a), Subtract(c, a));
    CrossOrthogonal(Subtract(b, a), Subtract(c, a));
    ScaledOrthogonal(cross, k, Subtract(b, a));
    ScaledOrthogonal(cross, k, Subtract(c, a));
  }

  /** A triangle built from one row of an index table: its vertices are the
      placed points the row names, in order, its normal the face normal. */
  predicate BuiltFrom(t: Triangle, row: (int, int, int), placed: seq<Vector3>, unit: Vector3 -> Vector3, m: Material) {
    var (a, b, c) := row;
    && 0 <= a < |placed| && 0 <= b < |placed| && 0 <= c < |placed|
    && t.v0 == placed[a] && t.v1 == placed[b] && t.v2 == placed[c]
    && t.normal == FaceNormal(unit, placed[a], placed[b], placed[c])
    && t.material == m
  }

  /** The non-null view of a filled triangle array. */
  function NonNull(s: seq<Triangle?>): (r: seq<Triangle>)
    requires forall i :: 0 <= i < |s| ==> s[i] != null
    ensures |r| == |s| && forall i :: 0 <= i < |s| ==> r[i] == s[i]
  {
    if |s| == 0 then [] else NonNull(s[..|s| - 1]) + [s[|s| - 1]]
  }

  // ---------------------------------------------------------------------------
  // Objects

  /** A mesh placed in the world. Its transformed points, bounding box and
      triangles are stale until CalculateTriangles runs. */
  class WorldObject {
    var origin: VectorCell
    var minAABB: Vector3
    var maxAABB: Vector3
    var points: seq<Vector3>
    var transformedPoints: array?<Vector3>
    var triangleIndices: seq<(int, int, int)>
    var triangles: array<Triangle?>
    var materials: seq<Material>
    var xAngle: real
    var yAngle: real
    var zAngle: real
    var scaleX: real
    var scaleY: real
    var scaleZ: real

    constructor (o: VectorCell, pts: seq<Vector3>, tris: seq<(int, int, int)>, mats: seq<Material>)
      ensures origin == o && points == pts && triangleIndices == tris && materials == mats
      ensures xAngle == 0.0 && yAngle == 0.0 && zAngle == 0.0
      ensures scaleX == 1.0 && scaleY == 1.0 && scaleZ == 1.0
      ensures transformedPoints == null
      ensures fresh(triangles) && triangles.Length == |tris|
      ensures forall i :: 0 <= i < triangles.Length ==> triangles[i] == null
    {
      xAngle, yAngle, zAngle := 0.0, 0.0, 0.0;
      scaleX, scaleY, scaleZ := 1.0, 1.0, 1.0;
      origin := o;
      points := pts;
      materials := mats;
      triangleIndices := tris;
      triangles := new Triangle?[|tris|](_ => null);
      transformedPoints := null;
      minAABB, maxAABB := ZERO, ZERO;
    }

    function CurrentPose(): Pose
      reads this, origin
    {
      Pose(origin.Value(), xAngle, yAngle, zAngle, scaleX, scaleY, scaleZ)
    }

    /** What CalculatePoints derives from the pose: the placed points and
        their bounding box, stale until it runs again. */
    function Derived(): (array?<Vector3>, Vector3, Vector3)
      reads this
    {
      (transformedPoints, minAABB, maxAABB)
    }

    /** Moves the origin in place: every holder of the same origin object moves too. */
    method Translate(movement: Vector3)
      modifies origin
      ensures origin.Value() == Vectors.Add(old(origin.Value()), movement)
    {
      origin.Add(movement);
    }

    /** Replaces the origin by the given object (which is then shared). */
    method MoveTo(position: VectorCell)
      modifies this
      ensures origin == position
      ensures xAngle == old(xAngle) && yAngle == old(yAngle) && zAngle == old(zAngle)
      ensures scaleX == old(scaleX) && scaleY == old(scaleY) && scaleZ == old(scaleZ)
      ensures points == old(points) && triangles == old(triangles)
      ensures triangleIndices == old(triangleIndices) && materials == old(materials)
      ensures Derived() == old(Derived())
    {
      origin := position;
    }

    method Scale(scale: Vector3)
      modifies this
      ensures scaleX == scale.x && scaleY == scale.y && scaleZ == scale.z
      ensures origin == old(origin) && xAngle == old(xAngle) && yAngle == old(yAngle) && zAngle == old(zAngle)
      ensures points == old(points) && triangles == old(triangles)
      ensures triangleIndices == old(triangleIndices) && materials == old(materials)
      ensures Derived() == old(Derived())
    {
      scaleX := scale.x;
      scaleY := scale.y;
      scaleZ := scale.z;
    }

    /** The fields CalculatePoints leaves as they were: the origin, the mesh
        data, the rotation angles and the scale factors. */
    function Setup(): (VectorCell, seq<Vector3>, seq<(int, int, int)>, array<Triangle?>, seq<Material>,
                       (real, real, real), (real, real, real))
      reads this
    {
      (origin, points, triangleIndices, triangles, materials, (xAngle, yAngle, zAngle), (scaleX, scaleY, scaleZ))
    }

    /** Places every point for the current pose and computes the bounding box
        of the placed points. */
    method CalculatePoints(place: Placement)
      modifies this
      ensures transformedPoints != null && fresh(transformedPoints)
      ensures transformedPoints.Length == |points|
      ensures forall i :: 0 <= i < |points| ==> transformedPoints[i] == place(old(CurrentPose()), points[i])
      ensures IsExtent(minAABB, maxAABB, transformedPoints[..])
      ensures Setup() == old(Setup())
    {
      var placed := PlacePoints(place, CurrentPose());
      var lo, hi := Extent(placed[..]);
      transformedPoints, minAABB, maxAABB := placed, lo, hi;
    }

    /** The point loop of CalculatePoints: a new array of the placed points. */
    method PlacePoints(place: Placement, pose: Pose) returns (placed: array<Vector3>)
      ensures fresh(placed) && placed.Length == |points|
      ensures forall i :: 0 <= i < |points| ==> placed[i] == place(pose, points[i])
    {
      placed := new Vector3[|points|];
      for i := 0 to |points|
        modifies placed
        invariant forall k :: 0 <= k < i ==> placed[k] == place(pose, points[k])
      {
        placed[i] := place(pose, points[i]);
      }
    }

    /** Every index of the first n rows of the index table names a point. */
    predicate IndicesInRange(n: int)
      reads this
    {
      forall i :: 0 <= i < n && i < |triangleIndices| ==>
        && 0 <= triangleIndices[i].0 < |points|
        && 0 <= triangleIndices[i].1 < |points|
        && 0 <= triangleIndices[i].2 < |points|
    }

    /** Every slot of the triangle array holds a triangle. */
    predicate Built()
      reads this, triangles
    {
      forall i :: 0 <= i < triangles.Length ==> triangles[i] != null
    }

    /** Recomputes the placed points and the bounding box, then builds a new
        triangle for every row of the index table. */
    method CalculateTriangles(place: Placement, unit: Vector3 -> Vector3)
      requires triangles.Length <= |triangleIndices| && triangles.Length <= |materials|
      requires IndicesInRange(triangles.Length)
      modifies this, triangles
      ensures Setup() == old(Setup()) && Built()
      ensures transformedPoints != null && fresh(transformedPoints)
      ensures transformedPoints.Length == |points|
      ensures forall i :: 0 <= i < |points| ==> transformedPoints[i] == place(old(CurrentPose()), points[i])
      ensures IsExtent(minAABB, maxAABB, transformedPoints[..])
      ensures forall i :: 0 <= i < triangles.Length ==>
        && triangles[i] != null && fresh(triangles[i])
        && BuiltFrom(triangles[i], triangleIndices[i], transformedPoints[..], unit, materials[i])
    {
      CalculatePoints(place);
      BuildTriangles(transformedPoints, unit);
    }

    /** The triangle loop of CalculateTriangles: a new triangle in every slot. */
    method BuildTriangles(placed: array<Vector3>, unit: Vector3 -> Vector3)
      requires placed.Length == |points|
      requires triangles.Length <= |triangleIndices| && triangles.Length <= |materials|
      requires IndicesInRange(triangles.Length)
      modifies triangles
      ensures forall i :: 0 <= i < triangles.Length ==>
        && triangles[i] != null && fresh(triangles[i])
        && BuiltFrom(triangles[i], triangleIndices[i], placed[..], unit, materials[i])
    {
      for i := 0 to triangles.Length
        invariant forall k :: 0 <= k < i ==>
          && triangles[k] != null && fresh(triangles[k])
          && BuiltFrom(triangles[k], triangleIndices[k], placed[..], unit, materials[k])
      {
        var t := BuildTriangle(placed, triangleIndices[i], materials[i], unit);
        triangles[i] := t;
      }
    }

    /** The body of CalculateTriangles' loop: a new triangle over the placed
        points one row of the index table names. */
    static method BuildTriangle(placed: array<Vector3>, row: (int, int, int), m: Material, unit: Vector3 -> Vector3)
      returns (t: Triangle)
      requires 0 <= row.0 < placed.Length && 0 <= row.1 < placed.Length && 0 <= row.2 < placed.Length
      ensures fresh(t) && BuiltFrom(t, row, placed[..], unit, m)
    {
      var (a, b, c) := row;
      var v0, v1, v2 := placed[a], placed[b], placed[c];
      var u := Subtract(v1, v0);
      var v := Subtract(v2, v0);
      t := new Triangle(v0, v1, v2, unit(CrossProduct(u, v)), m);
    }

    /** The object as a render reads it. */
    function View(): Mesh
      reads this, triangles
      requires Built()
    {
      Mesh(minAABB, maxAABB, NonNull(triangles[..]))
    }
  }

  /** The meshes of a sequence of built objects, in order. */
  function Views(objects: seq<WorldObject>): (r: seq<Mesh>)
    reads set o | o in objects, set o | o in objects :: o.triangles
    requires forall o :: o in objects ==> o.Built()
    ensures |r| == |objects|
    ensures forall i :: 0 <= i < |objects| ==> r[i] == objects[i].View()
  {
    if |objects| == 0 then [] else Views(objects[..|objects| - 1]) + [objects[|objects| - 1].View()]
  }

  /** The world: its objects in insertion order, one light and the ambient brightness. */
  class WorldSpace {
    var objects: seq<WorldObject>
    var light: Light
    var ambientBrightness: real

    constructor (ambient: real)
      ensures objects == [] && light == PointLight(ZERO, 0.0, BLACK) && ambientBrightness == ambient
    {
      objects := [];
      light := PointLight(ZERO, 0.0, BLACK);
      ambientBrightness := ambient;
    }

    method AddObject(obj: WorldObject)
      modifies this
      ensures objects == old(objects) + [obj]
      ensures light == old(light) && ambientBrightness == old(ambientBrightness)
    {
      objects := objects + [obj];
    }

    method SetLight(l: Light)
      modifies this
      ensures light == l
      ensures objects == old(objects) && ambientBrightness == old(ambientBrightness)
    {
      light := l;
    }

    predicate Built()
      reads this, objects, set o | o in objects :: o.triangles
    {
      forall o :: o in objects ==> o.Built()
    }

    /** The world as a render reads it. */
    function View(): SceneView
      reads this, objects, set o | o in objects :: o.triangles
      requires Built()
    {
      SceneView(Views(objects), light, ambientBrightness)
    }
  }
}
