/** Ray casting: every triangle a ray strikes (Camera.GetRayHit), the
    near/far clipping filter (Camera.GetRayHitClipping) and the nearest-hit
    scan that Camera.RayTrace and Camera.GetImage both perform. */
module Intersection {
  import opened Vectors
  import opened Scene
  import opened Sequences

  /** One entry of the three parallel lists of a RayHit. */
  datatype Hit = Hit(triangle: Triangle, intersect: Vector3, distance: real)

  /** The RayHit record: a flag and three parallel lists. */
  datatype RayHit = RayHit(hit: bool, triangles: seq<Triangle>, intersects: seq<Vector3>, distances: seq<real>)

  /** The verdict of the AABB slab test for (minAABB, maxAABB, start, ray):
      true when the slab interval collapses (tmax == tmin) and the object is
      skipped. The test divides by ray components that may be zero, so the
      model takes it as a parameter. */
  type SlabMiss = (Vector3, Vector3, Vector3, Vector3) -> bool

  function TrianglesOf(hits: seq<Hit>): (r: seq<Triangle>)
    ensures |r| == |hits| && forall k :: 0 <= k < |hits| ==> r[k] == hits[k].triangle
  {
    if |hits| == 0 then [] else TrianglesOf(hits[..|hits| - 1]) + [hits[|hits| - 1].triangle]
  }

  function IntersectsOf(hits: seq<Hit>): (r: seq<Vector3>)
    ensures |r| == |hits| && forall k :: 0 <= k < |hits| ==> r[k] == hits[k].intersect
  {
    if |hits| == 0 then [] else IntersectsOf(hits[..|hits| - 1]) + [hits[|hits| - 1].intersect]
  }

  function DistancesOf(hits: seq<Hit>): (r: seq<real>)
    ensures |r| == |hits| && forall k :: 0 <= k < |hits| ==> r[k] == hits[k].distance
  {
    if |hits| == 0 then [] else DistancesOf(hits[..|hits| - 1]) + [hits[|hits| - 1].distance]
  }

  /** h lists exactly the given hits, in order, and its flag says whether there are any. */
  predicate Records(h: RayHit, hits: seq<Hit>) {
    && h.hit == (|hits| > 0)
    && h.triangles == TrianglesOf(hits)
    && h.intersects == IntersectsOf(hits)
    && h.distances == DistancesOf(hits)
  }

  /** The lists are aligned and the flag is set exactly when they are non-empty. */
  predicate Consistent(h: RayHit) {
    && |h.triangles| == |h.intersects| == |h.distances|
    && h.hit == (|h.triangles| > 0)
  }

  /** Appending one hit to each list records one more hit. */
  lemma RecordsSnoc(h: RayHit, hits: seq<Hit>, x: Hit)
    requires Records(h, hits)
    ensures Records(RayHit(true, h.triangles + [x.triangle], h.intersects + [x.intersect], h.distances + [x.distance]), hits + [x])
  {
    assert (hits + [x])[..|hits|] == hits;
  }

  lemma RecordsIsConsistent(h: RayHit, hits: seq<Hit>)
    requires Records(h, hits)
    ensures Consistent(h) && |h.triangles| == |hits|
  {
  }

  // ---------------------------------------------------------------------------
  // One triangle

  /** The three edge sign tests: the point lies on the inner side of every edge. */
  predicate InsideEdges(t: Triangle, p: Vector3) {
    && DotProduct(t.normal, CrossProduct(Subtract(p, t.v0), Subtract(t.v0, t.v1))) >= 0.0
    && DotProduct(t.normal, CrossProduct(Subtract(t.v2, t.v1), Subtract(p, t.v1))) >= 0.0
    && DotProduct(t.normal, CrossProduct(Subtract(t.v0, t.v2), Subtract(p, t.v2))) >= 0.0
  }

  /** The ray parameter where the ray meets the triangle's plane, or 0 when
      the ray is parallel to it. */
  function PlaneDistance(t: Triangle, start: Vector3, ray: Vector3): real {
    var nr := DotProduct(t.normal, ray);
    if nr != 0.0 then -DotProduct(t.normal, Subtract(start, t.v1)) / nr else 0.0
  }

  /** What one triangle adds to a cast: nothing, or the point where the ray
      crosses it with the ray parameter. */
  function TriangleHit(t: Triangle, start: Vector3, ray: Vector3, exclusionTriangle: Triangle?): (r: seq<Hit>)
    ensures |r| <= 1
    ensures forall x :: x in r ==> x.triangle == t && Qualifies(x, start, ray, exclusionTriangle)
  {
    if t == exclusionTriangle || DotProduct(t.normal, ray) >= 0.0 then []
    else
      var d := PlaneDistance(t, start, ray);
      if d <= 0.0 then []
      else
        var p := Add(start, Multiply(ray, d));
        if InsideEdges(t, p) then [Hit(t, p, d)] else []
  }

  /** What every recorded hit satisfies. */
  predicate Qualifies(x: Hit, start: Vector3, ray: Vector3, exclusionTriangle: Triangle?) {
    && x.distance > 0.0
    && x.triangle != exclusionTriangle
    && DotProduct(x.triangle.normal, ray) < 0.0
    && x.intersect == Add(start, Multiply(ray, x.distance))
    && InsideEdges(x.triangle, x.intersect)
  }

  /** The per-triangle test in the inner loop of GetRayHit. */
  method TestTriangle(currentTriangle: Triangle, start: Vector3, ray: Vector3, exclusionTriangle: Triangle?)
    returns (found: bool, intersect: Vector3, t: real)
    ensures found ==> Strike(start, ray, exclusionTriangle)(currentTriangle) == [Hit(currentTriangle, intersect, t)]
    ensures !found ==> Strike(start, ray, exclusionTriangle)(currentTriangle) == []
  {
    found, intersect, t := false, ZERO, 0.0;
    if currentTriangle == exclusionTriangle {
      return;
    }
    if DotProduct(currentTriangle.normal, ray) >= 0.0 {
      return;
    }
    var npb := DotProduct(currentTriangle.normal, Subtract(start, currentTriangle.v1));
    var nr := DotProduct(currentTriangle.normal, ray);
    if nr != 0.0 {
      t := -npb / nr;
    }
    if t <= 0.0 {
      return;
    }
    var ab := Subtract(currentTriangle.v0, currentTriangle.v1);
    var cb := Subtract(currentTriangle.v2, currentTriangle.v1);
    var ac := Subtract(currentTriangle.v0, currentTriangle.v2);
    intersect := Add(start, Multiply(ray, t));
    var da := Subtract(intersect, currentTriangle.v0);
    var db := Subtract(intersect, currentTriangle.v1);
    var dc := Subtract(intersect, currentTriangle.v2);
    found :=
      && DotProduct(currentTriangle.normal, CrossProduct(da, ab)) >= 0.0
      && DotProduct(currentTriangle.normal, CrossProduct(cb, db)) >= 0.0
      && DotProduct(currentTriangle.normal, CrossProduct(ac, dc)) >= 0.0;
  }

  /** A recorded intersection lies on the plane of its triangle. */
  lemma {:induction false} HitOnPlane(t: Triangle, start: Vector3, ray: Vector3, exclusionTriangle: Triangle?)
    requires TriangleHit(t, start, ray, exclusionTriangle) != []
    ensures var x := TriangleHit(t, start, ray, exclusionTriangle)[0];
      DotProduct(t.normal, Subtract(x.intersect, t.v1)) == 0.0
  {
    var x := TriangleHit(t, start, ray, exclusionTriangle)[0];
    var nr := DotProduct(t.normal, ray);
    var npb := DotProduct(t.normal, Subtract(start, t.v1));
    DotSubtract(t.normal, x.intersect, t.v1);
    DotAlongRay(t.normal, start, ray, x.distance);
    DotSubtract(t.normal, start, t.v1);
    calc {
      DotProduct(t.normal, Subtract(x.intersect, t.v1));
      DotProduct(t.normal, start) + x.distance * nr - DotProduct(t.normal, t.v1);
      npb + (-npb / nr) * nr;
      0.0;
    }
  }

  /** The converse of TriangleHit's contract: a point of t's plane that
      passes every test of the cast is the hit t yields. */
  lemma {:induction false} TriangleHitComplete(t: Triangle, start: Vector3, ray: Vector3,
                                               exclusionTriangle: Triangle?, x: Hit)
    requires x.triangle == t && Qualifies(x, start, ray, exclusionTriangle)
    requires DotProduct(t.normal, Subtract(x.intersect, t.v1)) == 0.0
    ensures TriangleHit(t, start, ray, exclusionTriangle) == [x]
  {
    var nr := DotProduct(t.normal, ray);
    var npb := DotProduct(t.normal, Subtract(start, t.v1));
    DotSubtract(t.normal, x.intersect, t.v1);
    DotAlongRay(t.normal, start, ray, x.distance);
    DotSubtract(t.normal, start, t.v1);
    assert npb + x.distance * nr == 0.0;
    assert x.distance == -npb / nr;
    assert PlaneDistance(t, start, ray) == x.distance;
  }

  /** A ray parallel to a triangle's plane never hits it, and neither does a
      ray that meets the triangle from behind. */
  lemma BackFacesMiss(t: Triangle, start: Vector3, ray: Vector3, exclusionTriangle: Triangle?)
    requires DotProduct(t.normal, ray) >= 0.0
    ensures TriangleHit(t, start, ray, exclusionTriangle) == []
  {
  }

  // ---------------------------------------------------------------------------
  // The whole scene
  //
  // The traversal is stated over two function values, the slab test's verdict
  // per object and the per-triangle test, so that facts about the traversal
  // are proved once and apart from the triangle arithmetic.

  /** The per-triangle test of one cast, as a function of the triangle. */
  function Strike(start: Vector3, ray: Vector3, exclusionTriangle: Triangle?): Triangle -> seq<Hit> {
    (t: Triangle) => TriangleHit(t, start, ray, exclusionTriangle)
  }

  /** The objects the slab test keeps for one cast. */
  function Kept(start: Vector3, ray: Vector3, slabMiss: SlabMiss): Mesh -> bool {
    (o: Mesh) => !slabMiss(o.minAABB, o.maxAABB, start, ray)
  }

  /** The hits of one object's triangles, in triangle order. */
  function ObjectHits(triangles: seq<Triangle>, strike: Triangle -> seq<Hit>): seq<Hit> {
    if |triangles| == 0 then []
    else
      var n := |triangles| - 1;
      ObjectHits(triangles[..n], strike) + strike(triangles[n])
  }

  /** The hits of a traversal: object by object, triangle by triangle, unsorted. */
  function Gather(objects: seq<Mesh>, kept: Mesh -> bool, strike: Triangle -> seq<Hit>): seq<Hit> {
    if |objects| == 0 then []
    else
      var n := |objects| - 1;
      Gather(objects[..n], kept, strike) + (if kept(objects[n]) then ObjectHits(objects[n].triangles, strike) else [])
  }

  /** The hits of one cast from start along ray. */
  function SceneHits(objects: seq<Mesh>, start: Vector3, ray: Vector3, exclusionTriangle: Triangle?, slabMiss: SlabMiss): (r: seq<Hit>)
    ensures forall x :: x in r ==> Qualifies(x, start, ray, exclusionTriangle)
  {
    var kept, strike := Kept(start, ray, slabMiss), Strike(start, ray, exclusionTriangle);
    GatherSource(objects, kept, strike);
    Gather(objects, kept, strike)
  }

  /** Camera.GetRayHit: casts a ray from start along ray against every object
      and records every triangle it strikes. */
  method GetRayHit(objects: seq<Mesh>, start: Vector3, ray: Vector3, exclusionTriangle: Triangle?, slabMiss: SlabMiss)
    returns (h: RayHit)
    ensures Records(h, SceneHits(objects, start, ray, exclusionTriangle, slabMiss))
  {
    ghost var kept := Kept(start, ray, slabMiss);
    ghost var strike := Strike(start, ray, exclusionTriangle);
    h := RayHit(false, [], [], []);
    ghost var hits: seq<Hit> := [];
    for i := 0 to |objects|
      invariant hits == Gather(objects[..i], kept, strike)
      invariant Records(h, hits)
    {
      assert objects[..i + 1][..i] == objects[..i];
      var mesh := objects[i];
      if slabMiss(mesh.minAABB, mesh.maxAABB, start, ray) {
        continue;
      }
      h := CastMesh(h, hits, mesh.triangles, start, ray, exclusionTriangle);
      hits := hits + ObjectHits(mesh.triangles, strike);
    }
    assert objects[..|objects|] == objects;
  }

  /** The inner loop of GetRayHit: tests each triangle of one object in turn
      and appends every hit to the three lists. */
  method CastMesh(h: RayHit, ghost hits: seq<Hit>, triangles: seq<Triangle>, start: Vector3, ray: Vector3, exclusionTriangle: Triangle?)
    returns (r: RayHit)
    requires Records(h, hits)
    ensures Records(r, hits + ObjectHits(triangles, Strike(start, ray, exclusionTriangle)))
  {
    ghost var strike := Strike(start, ray, exclusionTriangle);
    r := h;
    for j := 0 to |triangles|
      invariant Records(r, hits + ObjectHits(triangles[..j], strike))
    {
      ghost var before := hits + ObjectHits(triangles[..j], strike);
      ObjectHitsSnoc(triangles, j, strike);
      var found, intersect, t := TestTriangle(triangles[j], start, ray, exclusionTriangle);
      if found {
        RecordsSnoc(r, before, Hit(triangles[j], intersect, t));
        r := RayHit(true, r.triangles + [triangles[j]], r.intersects + [intersect], r.distances + [t]);
        AppendAssociative(hits, ObjectHits(triangles[..j], strike), [Hit(triangles[j], intersect, t)]);
      } else {
        AppendEmpty(ObjectHits(triangles[..j], strike));
      }
    }
    assert triangles[..|triangles|] == triangles;
  }

  // ---------------------------------------------------------------------------
  // What a cast records

  lemma ObjectHitsSnoc(triangles: seq<Triangle>, j: nat, strike: Triangle -> seq<Hit>)
    requires j < |triangles|
    ensures ObjectHits(triangles[..j + 1], strike) == ObjectHits(triangles[..j], strike) + strike(triangles[j])
  {
    assert triangles[..j + 1][..j] == triangles[..j];
  }

  lemma {:induction false} ObjectHitsSource(triangles: seq<Triangle>, strike: Triangle -> seq<Hit>)
    ensures forall x :: x in ObjectHits(triangles, strike) ==> exists j :: 0 <= j < |triangles| && x in strike(triangles[j])
  {
    if |triangles| > 0 {
      var n := |triangles| - 1;
      ObjectHitsSource(triangles[..n], strike);
      forall x | x in ObjectHits(triangles, strike)
        ensures exists j :: 0 <= j < |triangles| && x in strike(triangles[j])
      {
        if x in ObjectHits(triangles[..n], strike) {
          var j :| 0 <= j < n && x in strike(triangles[..n][j]);
          assert triangles[..n][j] == triangles[j];
        } else {
          assert x in strike(triangles[n]);
        }
      }
    }
  }

  /** Every gathered hit comes from a triangle of a kept object. */
  lemma {:induction false} GatherSource(objects: seq<Mesh>, kept: Mesh -> bool, strike: Triangle -> seq<Hit>)
    ensures forall x :: x in Gather(objects, kept, strike) ==>
      exists i, j :: 0 <= i < |objects| && kept(objects[i]) && 0 <= j < |objects[i].triangles| && x in strike(objects[i].triangles[j])
  {
    if |objects| > 0 {
      var n := |objects| - 1;
      GatherSource(objects[..n], kept, strike);
      ObjectHitsSource(objects[n].triangles, strike);
      forall x | x in Gather(objects, kept, strike)
        ensures exists i, j :: 0 <= i < |objects| && kept(objects[i]) && 0 <= j < |objects[i].triangles| && x in strike(objects[i].triangles[j])
      {
        if x in Gather(objects[..n], kept, strike) {
          var i, j :| 0 <= i < n && kept(objects[..n][i]) && 0 <= j < |objects[..n][i].triangles| && x in strike(objects[..n][i].triangles[j]);
          assert objects[..n][i] == objects[i];
        } else {
          var j :| 0 <= j < |objects[n].triangles| && x in strike(objects[n].triangles[j]);
        }
      }
    }
  }

  /** Every recorded hit lies strictly ahead of the start point, on a
      front-facing triangle other than the excluded one, at start + ray * t,
      inside all three edges; and its triangle belongs to an object the slab
      test did not skip. */
  lemma SceneHitsSound(objects: seq<Mesh>, start: Vector3, ray: Vector3, exclusionTriangle: Triangle?, slabMiss: SlabMiss, x: Hit)
    requires x in SceneHits(objects, start, ray, exclusionTriangle, slabMiss)
    ensures Qualifies(x, start, ray, exclusionTriangle)
    ensures exists i :: 0 <= i < |objects| && !slabMiss(objects[i].minAABB, objects[i].maxAABB, start, ray) && x.triangle in objects[i].triangles
  {
    var kept, strike := Kept(start, ray, slabMiss), Strike(start, ray, exclusionTriangle);
    GatherSource(objects, kept, strike);
    var i, j :| 0 <= i < |objects| && kept(objects[i]) && 0 <= j < |objects[i].triangles| && x in strike(objects[i].triangles[j]);
  }

  lemma {:induction false} ObjectHitsComplete(triangles: seq<Triangle>, j: nat, strike: Triangle -> seq<Hit>)
    requires j < |triangles|
    ensures forall x :: x in strike(triangles[j]) ==> x in ObjectHits(triangles, strike)
  {
    var n := |triangles| - 1;
    if j < n {
      ObjectHitsComplete(triangles[..n], j, strike);
      assert triangles[..n][j] == triangles[j];
    }
  }

  lemma {:induction false} GatherComplete(objects: seq<Mesh>, i: nat, j: nat, kept: Mesh -> bool, strike: Triangle -> seq<Hit>)
    requires i < |objects| && j < |objects[i].triangles| && kept(objects[i])
    ensures forall x :: x in strike(objects[i].triangles[j]) ==> x in Gather(objects, kept, strike)
  {
    var n := |objects| - 1;
    if i < n {
      assert objects[..n][i] == objects[i];
      GatherComplete(objects[..n], i, j, kept, strike);
    } else {
      ObjectHitsComplete(objects[i].triangles, j, strike);
    }
  }

  /** Every triangle of an object the slab test keeps that passes the
      per-triangle test is recorded. */
  lemma SceneHitsComplete(objects: seq<Mesh>, i: nat, j: nat, start: Vector3, ray: Vector3, exclusionTriangle: Triangle?, slabMiss: SlabMiss)
    requires i < |objects| && j < |objects[i].triangles| && !slabMiss(objects[i].minAABB, objects[i].maxAABB, start, ray)
    ensures forall x :: x in TriangleHit(objects[i].triangles[j], start, ray, exclusionTriangle) ==>
      x in SceneHits(objects, start, ray, exclusionTriangle, slabMiss)
    ensures forall x: Hit ::
      (x.triangle == objects[i].triangles[j] && Qualifies(x, start, ray, exclusionTriangle)
       && DotProduct(x.triangle.normal, Subtract(x.intersect, x.triangle.v1)) == 0.0) ==>
      x in SceneHits(objects, start, ray, exclusionTriangle, slabMiss)
  {
    var t := objects[i].triangles[j];
    var kept, strike := Kept(start, ray, slabMiss), Strike(start, ray, exclusionTriangle);
    GatherComplete(objects, i, j, kept, strike);
    assert strike(t) == TriangleHit(t, start, ray, exclusionTriangle);
    forall x: Hit | x.triangle == t && Qualifies(x, start, ray, exclusionTriangle)
      && DotProduct(x.triangle.normal, Subtract(x.intersect, x.triangle.v1)) == 0.0
      ensures x in SceneHits(objects, start, ray, exclusionTriangle, slabMiss)
    {
      TriangleHitComplete(t, start, ray, exclusionTriangle, x);
      assert x in TriangleHit(t, start, ray, exclusionTriangle);
    }
  }

  /** The objects kept, in order. */
  function Survivors(objects: seq<Mesh>, kept: Mesh -> bool): (r: seq<Mesh>)
    ensures forall k :: 0 <= k < |r| ==> r[k] in objects && kept(r[k])
    ensures forall k :: 0 <= k < |objects| && kept(objects[k]) ==> objects[k] in r
  {
    if |objects| == 0 then []
    else
      var n := |objects| - 1;
      Survivors(objects[..n], kept) + (if kept(objects[n]) then [objects[n]] else [])
  }

  lemma {:induction false} GatherAppend(a: seq<Mesh>, b: seq<Mesh>, kept: Mesh -> bool, strike: Triangle -> seq<Hit>)
    ensures Gather(a + b, kept, strike) == Gather(a, kept, strike) + Gather(b, kept, strike)
  {
    if |b| == 0 {
      assert a + b == a;
    } else {
      var n := |b| - 1;
      assert (a + b)[..|a + b| - 1] == a + b[..n];
      GatherAppend(a, b[..n], kept, strike);
    }
  }

  /** Objects whose slab interval collapses contribute nothing: the cast
      records the same hits as a cast against the surviving objects alone. */
  lemma {:induction false} SkippedObjectsContributeNothing(objects: seq<Mesh>, kept: Mesh -> bool, strike: Triangle -> seq<Hit>)
    ensures Gather(objects, kept, strike) == Gather(Survivors(objects, kept), kept, strike)
  {
    if |objects| > 0 {
      var n := |objects| - 1;
      var o := objects[n];
      SkippedObjectsContributeNothing(objects[..n], kept, strike);
      var rest := Survivors(objects[..n], kept);
      if kept(o) {
        GatherAppend(rest, [o], kept, strike);
        assert [o][..0] == [];
      } else {
        assert rest + [] == rest;
      }
    }
  }

  // ---------------------------------------------------------------------------
  // Clipping

  /** The camera data GetRayHitClipping uses, with the near and far planes it is given. */
  datatype Clipping = Clipping(perspective: bool, direction: Vector3, screenDistance: real, near: real, far: real)

  /** The depth compared with the clipping planes: for a perspective camera
      the distance along the ray is scaled by dot(ray, direction). */
  function Depth(c: Clipping, ray: Vector3, distance: real): real {
    if c.perspective then distance * DotProduct(ray, c.direction) else distance
  }

  predicate InClip(c: Clipping, ray: Vector3, x: Hit) {
    c.near - c.screenDistance <= Depth(c, ray, x.distance) <= c.far - c.screenDistance
  }

  /** The hits between the clipping planes, in their original order and with
      their original distances. */
  function Clip(c: Clipping, ray: Vector3, hits: seq<Hit>): (r: seq<Hit>)
    ensures |r| <= |hits|
    ensures forall x :: x in r ==> x in hits && InClip(c, ray, x)
  {
    if |hits| == 0 then []
    else Clip(c, ray, hits[..|hits| - 1]) + (if InClip(c, ray, hits[|hits| - 1]) then [hits[|hits| - 1]] else [])
  }

  lemma ClipSnoc(c: Clipping, ray: Vector3, hits: seq<Hit>, i: nat)
    requires i < |hits|
    ensures Clip(c, ray, hits[..i + 1]) == Clip(c, ray, hits[..i]) + (if InClip(c, ray, hits[i]) then [hits[i]] else [])
  {
    assert hits[..i + 1][..i] == hits[..i];
  }

  /** One step of the clipping loop: the record of the first i hits that
      survive grows by hit i exactly when it lies between the planes. */
  lemma {:induction false} RecordsClipStep(c: Clipping, ray: Vector3, hits: seq<Hit>, i: nat, h: RayHit, next: RayHit)
    requires i < |hits| && Records(h, Clip(c, ray, hits[..i]))
    requires next == if InClip(c, ray, hits[i])
      then RayHit(true, h.triangles + [hits[i].triangle], h.intersects + [hits[i].intersect], h.distances + [hits[i].distance])
      else h
    ensures Records(next, Clip(c, ray, hits[..i + 1]))
  {
    ClipSnoc(c, ray, hits, i);
    if InClip(c, ray, hits[i]) {
      RecordsSnoc(h, Clip(c, ray, hits[..i]), hits[i]);
    } else {
      AppendEmpty(Clip(c, ray, hits[..i]));
    }
  }

  /** A hit survives clipping exactly when it was a hit and lies between the planes. */
  lemma {:induction false} ClipMembership(c: Clipping, ray: Vector3, hits: seq<Hit>)
    ensures forall x :: x in Clip(c, ray, hits) <==> x in hits && InClip(c, ray, x)
  {
    if |hits| > 0 {
      var n := |hits| - 1;
      ClipMembership(c, ray, hits[..n]);
      assert hits == hits[..n] + [hits[n]];
    }
  }

  /** Clipping keeps order: the clip of a concatenation is the concatenation of the clips. */
  lemma {:induction false} ClipAppend(c: Clipping, ray: Vector3, a: seq<Hit>, b: seq<Hit>)
    ensures Clip(c, ray, a + b) == Clip(c, ray, a) + Clip(c, ray, b)
  {
    if |b| == 0 {
      assert a + b == a;
    } else {
      var n := |b| - 1;
      assert (a + b)[..|a + b| - 1] == a + b[..n];
      ClipAppend(c, ray, a, b[..n]);
    }
  }

  lemma {:induction false} ClipIdempotent(c: Clipping, ray: Vector3, hits: seq<Hit>)
    ensures Clip(c, ray, Clip(c, ray, hits)) == Clip(c, ray, hits)
  {
    if |hits| > 0 {
      var n := |hits| - 1;
      ClipIdempotent(c, ray, hits[..n]);
      var kept := if InClip(c, ray, hits[n]) then [hits[n]] else [];
      ClipAppend(c, ray, Clip(c, ray, hits[..n]), kept);
      if kept != [] {
        assert kept[..0] == [];
      }
    }
  }

  // ---------------------------------------------------------------------------
  // Nearest hit

  /** The index of the smallest distance; the first such index on ties. */
  function FirstNearest(distances: seq<real>): (k: nat)
    requires |distances| > 0
    ensures k < |distances|
    ensures forall j :: 0 <= j < |distances| ==> distances[k] <= distances[j]
    ensures forall j :: 0 <= j < k ==> distances[k] < distances[j]
  {
    if |distances| == 1 then 0
    else
      var k := FirstNearest(distances[..|distances| - 1]);
      if distances[|distances| - 1] < distances[k] then |distances| - 1 else k
  }

  /** The two properties determine the index. */
  lemma FirstNearestUnique(distances: seq<real>, k: nat)
    requires k < |distances|
    requires forall j :: 0 <= j < |distances| ==> distances[k] <= distances[j]
    requires forall j :: 0 <= j < k ==> distances[k] < distances[j]
    ensures FirstNearest(distances) == k
  {
  }

  /** The linear scan over a hit list: the smallest distance, first seen on
      ties, with the intersect and triangle at the same index. */
  method NearestHit(h: RayHit) returns (smallestDistance: real, closestIntersect: Vector3, triangle: Triangle)
    requires Consistent(h) && h.hit
    ensures var k := FirstNearest(h.distances);
      && smallestDistance == h.distances[k]
      && closestIntersect == h.intersects[k]
      && triangle == h.triangles[k]
  {
    smallestDistance := h.distances[0];
    closestIntersect := h.intersects[0];
    triangle := h.triangles[0];
    ghost var index := 0;
    assert h.distances[..1] == [h.distances[0]];
    for k := 1 to |h.intersects|
      invariant index == FirstNearest(h.distances[..k])
      invariant smallestDistance == h.distances[index]
      invariant closestIntersect == h.intersects[index] && triangle == h.triangles[index]
    {
      assert h.distances[..k + 1][..k] == h.distances[..k];
      if h.distances[k] < smallestDistance {
        smallestDistance := h.distances[k];
        closestIntersect := h.intersects[k];
        triangle := h.triangles[k];
        index := k;
      }
    }
    assert h.distances[..|h.intersects|] == h.distances;
  }
}
