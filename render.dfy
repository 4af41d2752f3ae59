/** Shading and the camera: the recursive ray trace with its light, shadow,
    specular and reflection terms (Camera.RayTrace), the clipped primary cast
    (Camera.GetRayHitClipping) and the image loop (Camera.GetImage). */
module Render {
  import opened Colours
  import opened Vectors
  import opened Scene
  import opened Intersection

  /** The floating-point operations of the renderer that have no exact
      counterpart over the reals: Vector3.Unit, Vector3.Magnitude, Math.Cos,
      Math.Pow, a float division whose divisor may be zero, and the AABB slab
      test. */
  datatype Optics = Optics(
    unit: Vector3 -> Vector3,
    magnitude: Vector3 -> real,
    cos: real -> real,
    pow: (real, real) -> real,
    divide: (real, real) -> real,
    slabMiss: SlabMiss)

  function Abs(x: real): real {
    if x < 0.0 then -x else x
  }

  // ---------------------------------------------------------------------------
  // The shading function

  /** The diffuse intensity before any distance falloff: the light's
      brightness times the cosine of the incidence angle times the material's
      diffuse factor. */
  function Lambert(brightness: real, lightCos: real, m: Material): real {
    brightness * lightCos * m.diffuseVal
  }

  /** The inverse-square falloff of a point or spot light's intensity. */
  function InverseSquare(o: Optics, intensity: real, distance: real): real {
    o.divide(intensity, distance * distance)
  }

  /** What the light contributes at a point of a triangle: the direction
      towards the light, whether the point lies inside the light's cone (and a
      shadow ray is cast at all), and the diffuse colour. */
  datatype LightSample = LightSample(lightRay: Vector3, inCone: bool, diffuse: Colour)

  function SampleLight(light: Light, o: Optics, intersect: Vector3, t: Triangle): (r: LightSample)
    ensures !light.SpotLight? ==> r.inCone
    ensures !r.inCone ==> r.diffuse == BLACK
  {
    match light
    case DirectionalLight(lightVec, brightness, colour) =>
      var lightRay := o.unit(Vectors.Multiply(lightVec, -1.0));
      var lightCos := Abs(DotProduct(lightRay, t.normal));
      LightSample(lightRay, true, Combine(t.material.diffuse, colour, Lambert(brightness, lightCos, t.material)))
    case SpotLight(origin, lightVec, brightness, colour, spotAngle) =>
      var spotVector := o.unit(Vectors.Multiply(lightVec, -1.0));
      var toLight := Subtract(origin, intersect);
      var lightDistance := o.magnitude(toLight);
      var lightRay := o.unit(toLight);
      var lightCos := Abs(DotProduct(lightRay, t.normal));
      if DotProduct(spotVector, lightRay) >= o.cos(spotAngle) then
        LightSample(lightRay, true, Combine(t.material.diffuse, colour,
          InverseSquare(o, Lambert(brightness, lightCos, t.material), lightDistance)))
      else
        LightSample(lightRay, false, BLACK)
    case PointLight(origin, brightness, colour) =>
      var toLight := Subtract(origin, intersect);
      var lightDistance := o.magnitude(toLight);
      var lightRay := o.unit(toLight);
      var lightCos := Abs(DotProduct(lightRay, t.normal));
      LightSample(lightRay, true, Combine(t.material.diffuse, colour,
        InverseSquare(o, Lambert(brightness, lightCos, t.material), lightDistance)))
  }

  /** The point is dark for the light: it lies outside a spot light's cone,
      or the ray towards the light strikes some other triangle. */
  predicate InShadow(scene: SceneView, o: Optics, intersect: Vector3, t: Triangle)
    ensures !SampleLight(scene.light, o, intersect, t).inCone ==> InShadow(scene, o, intersect, t)
    ensures !scene.light.SpotLight? ==>
      (InShadow(scene, o, intersect, t) <==>
       SceneHits(scene.objects, intersect, SampleLight(scene.light, o, intersect, t).lightRay, t, o.slabMiss) != [])
  {
    var s := SampleLight(scene.light, o, intersect, t);
    !s.inCone || SceneHits(scene.objects, intersect, s.lightRay, t, o.slabMiss) != []
  }

  /** The ambient term: the material's diffuse colour lit by the background
      at the scene's ambient brightness. */
  function Ambient(scene: SceneView, background: Colour, t: Triangle): (r: Colour)
    ensures scene.ambientBrightness == 0.0 ==> r == BLACK
    ensures InRange(t.material.diffuse) && InRange(background) && 0.0 <= scene.ambientBrightness <= 1.0 ==> InRange(r)
  {
    if InRange(t.material.diffuse) && InRange(background) && 0.0 <= scene.ambientBrightness <= 1.0 then
      CombineInRange(t.material.diffuse, background, scene.ambientBrightness);
      Combine(t.material.diffuse, background, scene.ambientBrightness)
    else
      Combine(t.material.diffuse, background, scene.ambientBrightness)
  }

  /** The specular highlight: the material's specular colour lit by the
      light, scaled by the reflectivity times the (clamped) specular dot
      product raised to the shininess. */
  function SpecularTerm(o: Optics, m: Material, lightColour: Colour, specularDot: real): (r: Colour)
    ensures m.reflectivity == 0.0 ==> r == BLACK
    ensures (NonNegative(m.specular) && NonNegative(lightColour) && 0.0 <= m.reflectivity
             && 0.0 <= o.pow(specularDot, m.shininess)) ==> NonNegative(r)
  {
    Combine(m.specular, lightColour, m.reflectivity * o.pow(specularDot, m.shininess))
  }

  /** The reflection and specular terms of one shading step. */
  datatype Gloss = Gloss(reflection: Colour, specular: Colour)

  function DecreasingBounces(bounces: int): nat {
    if bounces > 0 then bounces else 0
  }

  /** The reflection and specular terms: both black unless bounces remain and
      the material reflects; the reflection is the trace of the nearest
      triangle the mirrored view ray strikes, scaled by the reflectivity. */
  function Reflection(scene: SceneView, o: Optics, background: Colour, viewVector: Vector3,
                      intersect: Vector3, t: Triangle, bounces: int): (g: Gloss)
    ensures InRange(g.reflection)
    ensures !(bounces > 0 && t.material.reflectivity > 0.0) ==> g == Gloss(BLACK, BLACK)
    decreases DecreasingBounces(bounces), 1
  {
    if bounces > 0 && t.material.reflectivity > 0.0 then
      var lightRay := SampleLight(scene.light, o, intersect, t).lightRay;
      var reverseVector := o.unit(Vectors.Multiply(viewVector, -1.0));
      var reflectance := Reflect(t.normal, reverseVector);
      var specularDot := DotProduct(Reflect(t.normal, lightRay), reverseVector);
      var specular := SpecularTerm(o, t.material, scene.light.colour, if specularDot < 0.0 then 0.0 else specularDot);
      Gloss(Bounce(scene, o, background, reflectance, intersect, t, bounces), specular)
    else
      Gloss(BLACK, BLACK)
  }

  /** The reflected colour: the trace, with one bounce fewer, of the nearest
      triangle the mirrored ray strikes, scaled by the reflectivity; black
      when the mirrored ray strikes nothing. */
  function Bounce(scene: SceneView, o: Optics, background: Colour, reflectance: Vector3,
                  intersect: Vector3, t: Triangle, bounces: int): (c: Colour)
    requires bounces > 0
    ensures InRange(c)
    ensures SceneHits(scene.objects, intersect, reflectance, t, o.slabMiss) == [] ==> c == BLACK
    decreases DecreasingBounces(bounces), 0
  {
    var hits := SceneHits(scene.objects, intersect, reflectance, t, o.slabMiss);
    if hits == [] then BLACK
    else
      var k := FirstNearest(DistancesOf(hits));
      var bounced := Trace(scene, o, background, reflectance, hits[k].intersect, hits[k].triangle, bounces - 1);
      Colours.Add(BLACK, Colours.Multiply(bounced, t.material.reflectivity))
  }

  /** Bounce spelled out for a ray that hits: the first nearest hit,
      traced with one bounce fewer and scaled by the reflectivity. */
  lemma BounceUnfolds(scene: SceneView, o: Optics, background: Colour, reflectance: Vector3,
                      intersect: Vector3, t: Triangle, bounces: int, hits: seq<Hit>, k: nat, bounced: Colour)
    requires bounces > 0
    requires hits == SceneHits(scene.objects, intersect, reflectance, t, o.slabMiss) && hits != []
    requires k == FirstNearest(DistancesOf(hits))
    requires bounced == Trace(scene, o, background, reflectance, hits[k].intersect, hits[k].triangle, bounces - 1)
    ensures Bounce(scene, o, background, reflectance, intersect, t, bounces)
            == Colours.Add(BLACK, Colours.Multiply(bounced, t.material.reflectivity))
  {
  }

  /** The colour seen along viewVector at a point of triangle t. */
  function Trace(scene: SceneView, o: Optics, background: Colour, viewVector: Vector3,
                 intersect: Vector3, t: Triangle, bounces: int): (c: Colour)
    ensures InRange(c)
    decreases DecreasingBounces(bounces), 2
  {
    var g := Reflection(scene, o, background, viewVector, intersect, t, bounces);
    var ambient := Ambient(scene, background, t);
    if InShadow(scene, o, intersect, t) then Colours.Add(ambient, g.reflection)
    else Add4(ambient, SampleLight(scene.light, o, intersect, t).diffuse, g.reflection, g.specular)
  }

  // ---------------------------------------------------------------------------
  // Properties of the shading function

  /** With no bounce left, or a material that does not reflect, there is
      neither reflection nor specular highlight, and a point in shadow shows
      just its ambient colour. */
  lemma NoBounceNoGloss(scene: SceneView, o: Optics, background: Colour, viewVector: Vector3,
                        intersect: Vector3, t: Triangle, bounces: int)
    requires bounces <= 0 || t.material.reflectivity <= 0.0
    ensures Reflection(scene, o, background, viewVector, intersect, t, bounces) == Gloss(BLACK, BLACK)
    ensures InShadow(scene, o, intersect, t) ==>
      Trace(scene, o, background, viewVector, intersect, t, bounces) == Clamp(Ambient(scene, background, t))
  {
    var ambient := Ambient(scene, background, t);
    assert Colours.Add(ambient, BLACK) == Clamp(ambient);
  }

  /** A point outside a spot light's cone is shaded as in shadow: ambient
      and reflection only, without any ray towards the light. */
  lemma SpotOutsideConeIsDark(scene: SceneView, o: Optics, background: Colour, viewVector: Vector3,
                              intersect: Vector3, t: Triangle, bounces: int)
    requires scene.light.SpotLight?
    requires DotProduct(o.unit(Vectors.Multiply(scene.light.lightVec, -1.0)),
                        o.unit(Subtract(scene.light.origin, intersect))) < o.cos(scene.light.spotAngle)
    ensures Trace(scene, o, background, viewVector, intersect, t, bounces) ==
      Colours.Add(Ambient(scene, background, t), Reflection(scene, o, background, viewVector, intersect, t, bounces).reflection)
  {
    assert !SampleLight(scene.light, o, intersect, t).inCone;
  }

  /** A lit point is never darker than the same point in shadow, as long as
      the diffuse and specular terms are not negative. */
  lemma {:induction false} ShadowNeverBrightens(ambient: Colour, diffuse: Colour, reflection: Colour, specular: Colour)
    requires NonNegative(diffuse) && NonNegative(specular)
    ensures Below(Colours.Add(ambient, reflection), Add4(ambient, diffuse, reflection, specular))
  {
    ClampMonotone(Colour(ambient.red + reflection.red, ambient.green + reflection.green, ambient.blue + reflection.blue),
                  Colour(ambient.red + diffuse.red + reflection.red + specular.red,
                         ambient.green + diffuse.green + reflection.green + specular.green,
                         ambient.blue + diffuse.blue + reflection.blue + specular.blue));
  }

  /** A point that is in shadow because of an obstacle is shadowed by some
      other triangle, strictly ahead along the ray towards the light. */
  lemma ShadowCasterIsAnotherTriangle(scene: SceneView, o: Optics, intersect: Vector3, t: Triangle)
    requires SampleLight(scene.light, o, intersect, t).inCone && InShadow(scene, o, intersect, t)
    ensures var lightRay := SampleLight(scene.light, o, intersect, t).lightRay;
      exists x :: x in SceneHits(scene.objects, intersect, lightRay, t, o.slabMiss) &&
        x.triangle != t && x.distance > 0.0 && x.intersect == Vectors.Add(intersect, Vectors.Multiply(lightRay, x.distance))
  {
    var lightRay := SampleLight(scene.light, o, intersect, t).lightRay;
    var hits := SceneHits(scene.objects, intersect, lightRay, t, o.slabMiss);
    SceneHitsSound(scene.objects, intersect, lightRay, t, o.slabMiss, hits[0]);
  }

  /** The triangle a reflection continues from is never the reflecting
      triangle itself, and it is the nearest one along the mirrored ray. */
  lemma ReflectionLeavesTheSurface(scene: SceneView, o: Optics, intersect: Vector3, t: Triangle, reflectance: Vector3)
    requires SceneHits(scene.objects, intersect, reflectance, t, o.slabMiss) != []
    ensures var hits := SceneHits(scene.objects, intersect, reflectance, t, o.slabMiss);
      var k := FirstNearest(DistancesOf(hits));
      && hits[k].triangle != t && hits[k].distance > 0.0
      && forall x :: x in hits ==> hits[k].distance <= x.distance
  {
    var hits := SceneHits(scene.objects, intersect, reflectance, t, o.slabMiss);
    var k := FirstNearest(DistancesOf(hits));
    SceneHitsSound(scene.objects, intersect, reflectance, t, o.slabMiss, hits[k]);
    forall x | x in hits
      ensures hits[k].distance <= x.distance
    {
      var j :| 0 <= j < |hits| && hits[j] == x;
      assert DistancesOf(hits)[j] == x.distance;
    }
  }

  // ---------------------------------------------------------------------------
  // Pixels

  /** What GetImage reads of the camera once the corners are placed. */
  datatype Screen = Screen(
    origin: Vector3,
    topLeft: Vector3,
    deltaWidth: Vector3,
    deltaHeight: Vector3,
    perspective: bool,
    direction: Vector3,
    clipping: Clipping,
    background: Colour)

  /** The point on the screen of pixel (j, i): column j, row i. */
  function ScreenPoint(s: Screen, j: int, i: int): (p: Vector3)
    ensures j == 0 && i == 0 ==> p == s.topLeft
  {
    Vectors.Add(Vectors.Add(s.topLeft, Vectors.Multiply(s.deltaHeight, i as real)), Vectors.Multiply(s.deltaWidth, j as real))
  }

  /** The primary ray's direction: from the eye through the point for a
      perspective camera, the view direction for an orthographic one. */
  function PrimaryDirection(s: Screen, o: Optics, point: Vector3): (d: Vector3)
    ensures !s.perspective ==> d == s.direction
    ensures s.perspective && point != s.origin ==> d == o.unit(Subtract(point, s.origin))
    ensures s.perspective && point == s.origin ==> d == o.unit(ZERO)
  {
    if s.perspective then o.unit(Subtract(point, s.origin)) else s.direction
  }

  /** The colour of the pixel whose primary ray starts at point: the trace of
      the nearest hit between the clipping planes, or the background. */
  function Shade(scene: SceneView, o: Optics, s: Screen, point: Vector3, bounces: int): (c: Colour)
    ensures InRange(s.background) ==> InRange(c)
  {
    var rayDir := PrimaryDirection(s, o, point);
    var hits := Clip(s.clipping, rayDir, SceneHits(scene.objects, point, rayDir, null, o.slabMiss));
    if hits == [] then s.background
    else
      var k := FirstNearest(DistancesOf(hits));
      Trace(scene, o, s.background, rayDir, hits[k].intersect, hits[k].triangle, bounces)
  }

  /** The screen points form a grid: one column to the right adds
      deltaWidth, one row down adds deltaHeight. */
  lemma {:induction false} ScreenPointSteps(s: Screen, j: int, i: int)
    ensures Subtract(ScreenPoint(s, j + 1, i), ScreenPoint(s, j, i)) == s.deltaWidth
    ensures Subtract(ScreenPoint(s, j, i + 1), ScreenPoint(s, j, i)) == s.deltaHeight
  {
    var w, h := s.deltaWidth, s.deltaHeight;
    assert w.x * ((j + 1) as real) == w.x * (j as real) + w.x;
    assert w.y * ((j + 1) as real) == w.y * (j as real) + w.y;
    assert w.z * ((j + 1) as real) == w.z * (j as real) + w.z;
    assert h.x * ((i + 1) as real) == h.x * (i as real) + h.x;
    assert h.y * ((i + 1) as real) == h.y * (i as real) + h.y;
    assert h.z * ((i + 1) as real) == h.z * (i as real) + h.z;
  }

  function Pixel(scene: SceneView, o: Optics, s: Screen, j: int, i: int, bounces: int): Colour {
    Shade(scene, o, s, ScreenPoint(s, j, i), bounces)
  }

  /** The hit a pixel shows lies between the clipping planes, strictly in
      front of the screen point, and no hit between the planes is nearer. */
  lemma NearestVisibleHit(scene: SceneView, o: Optics, s: Screen, point: Vector3)
    requires var rayDir := PrimaryDirection(s, o, point);
      Clip(s.clipping, rayDir, SceneHits(scene.objects, point, rayDir, null, o.slabMiss)) != []
    ensures var rayDir := PrimaryDirection(s, o, point);
      var all := SceneHits(scene.objects, point, rayDir, null, o.slabMiss);
      var hits := Clip(s.clipping, rayDir, all);
      var k := FirstNearest(DistancesOf(hits));
      && hits[k] in all && InClip(s.clipping, rayDir, hits[k]) && hits[k].distance > 0.0
      && forall x :: x in all && InClip(s.clipping, rayDir, x) ==> hits[k].distance <= x.distance
  {
    NearestClippedHit(scene.objects, point, PrimaryDirection(s, o, point), s.clipping, o.slabMiss);
  }

  /** NearestVisibleHit for any ray: the first nearest of the clipped hits
      is a clipped hit in front of the start, and no clipped hit is nearer. */
  lemma NearestClippedHit(objects: seq<Mesh>, start: Vector3, ray: Vector3, c: Clipping, slabMiss: SlabMiss)
    requires Clip(c, ray, SceneHits(objects, start, ray, null, slabMiss)) != []
    ensures var all := SceneHits(objects, start, ray, null, slabMiss);
      var hits := Clip(c, ray, all);
      var k := FirstNearest(DistancesOf(hits));
      && hits[k] in all && InClip(c, ray, hits[k]) && hits[k].distance > 0.0
      && forall x :: x in all && InClip(c, ray, x) ==> hits[k].distance <= x.distance
  {
    var all := SceneHits(objects, start, ray, null, slabMiss);
    var hits := Clip(c, ray, all);
    var k := FirstNearest(DistancesOf(hits));
    ClipMembership(c, ray, all);
    assert hits[k] in hits;
    forall x | x in all && InClip(c, ray, x)
      ensures hits[k].distance <= x.distance
    {
      var j :| 0 <= j < |hits| && hits[j] == x;
      assert DistancesOf(hits)[j] == x.distance;
    }
  }


  // ---------------------------------------------------------------------------
  // The camera

  /** Half the screen's width: screenDistance * tan(fov / 2) for a perspective
      camera, the scale itself for an orthographic one. */
  function HalfWidth(perspective: bool, screenDistance: real, tanHalfFov: real, scale: real): real {
    if perspective then screenDistance * tanHalfFov else scale
  }

  /** The screen's corners in camera space, top left, top right, bottom left,
      bottom right: the screen lies at screenDistance along the x axis, its
      half height is the half width times the aspect ratio. */
  function ScreenCorners(screenDistance: real, halfWidth: real, ratio: real): (r: seq<Vector3>)
    ensures |r| == 4
    ensures forall i :: 0 <= i < 4 ==> r[i].x == screenDistance
    ensures r[0].y == r[1].y == -r[2].y == -r[3].y == halfWidth * ratio
    ensures r[0].z == r[2].z == -r[1].z == -r[3].z == -halfWidth
  {
    var halfHeight := halfWidth * ratio;
    [Vector3(screenDistance, halfHeight, -halfWidth), Vector3(screenDistance, halfHeight, halfWidth),
     Vector3(screenDistance, -halfHeight, -halfWidth), Vector3(screenDistance, -halfHeight, halfWidth)]
  }

  /** The camera. Angles are kept in degrees; the rotation of the screen
      corners, which converts them and uses sines and cosines, is given as a
      parameter where it is needed. */
  class Camera {
    const origin: Vector3
    const rotation: Vector3
    const near: real
    const far: real
    const aspect: real
    const perspective: bool
    const background: Colour
    const screenDistance: real
    /** top left, top right, bottom left, bottom right */
    const corners: seq<Vector3>
    const transformedCorners: array<Vector3>
    var frustumCentre: Vector3
    var direction: Vector3

    /** halfAngleTan gives the tangent of half an angle given in degrees. */
    constructor (o: Vector3, r: Vector3, scale: real, n: real, f: real, ratio: real, persp: bool, bg: Colour,
                 halfAngleTan: real -> real)
      ensures origin == o && rotation == r && near == n && far == f && aspect == ratio
      ensures perspective == persp && background == bg
      ensures screenDistance == if n < 1.0 then n else 1.0
      ensures frustumCentre == Vector3(screenDistance, 0.0, 0.0) && direction == Vector3(1.0, 0.0, 0.0)
      ensures corners == ScreenCorners(screenDistance, HalfWidth(persp, screenDistance, halfAngleTan(scale), scale), ratio)
      ensures fresh(transformedCorners) && transformedCorners.Length == 4
    {
      origin := o;
      rotation := r;
      near := n;
      far := f;
      aspect := ratio;
      perspective := persp;
      background := bg;
      transformedCorners := new Vector3[4](_ => ZERO);
      var sd: real;
      if n < 1.0 {
        sd := n;
      } else {
        sd := 1.0;
      }
      screenDistance := sd;
      var halfWidth: real;
      if persp {
        halfWidth := sd * halfAngleTan(scale);
      } else {
        halfWidth := scale;
      }
      frustumCentre := Vector3(sd, 0.0, 0.0);
      direction := Vector3(1.0, 0.0, 0.0);
      assert halfWidth == HalfWidth(persp, sd, halfAngleTan(scale), scale);
      corners := ScreenCorners(sd, halfWidth, ratio);
    }

    /** Places the screen corners in the world: each corner rotated by the
        camera's angles (turn) and moved to the camera's origin; the frustum
        centre lies halfway along both screen edges from the top-left corner,
        and the view direction points from the eye to it. */
    method CalculateCorners(turn: (Vector3, Vector3) -> Vector3, unit: Vector3 -> Vector3)
      requires |corners| == 4 && transformedCorners.Length == 4
      modifies this, transformedCorners
      ensures forall i :: 0 <= i < 4 ==> transformedCorners[i] == Vectors.Add(origin, turn(rotation, corners[i]))
      ensures frustumCentre == Vectors.Add(transformedCorners[0],
        Vectors.Add(Divide(Subtract(transformedCorners[1], transformedCorners[0]), 2.0),
                    Divide(Subtract(transformedCorners[2], transformedCorners[0]), 2.0)))
      ensures direction == unit(Subtract(frustumCentre, origin))
    {
      for i := 0 to 4
        invariant forall k :: 0 <= k < i ==> transformedCorners[k] == Vectors.Add(origin, turn(rotation, corners[k]))
      {
        transformedCorners[i] := Vectors.Add(origin, turn(rotation, corners[i]));
      }
      frustumCentre := Vectors.Add(transformedCorners[0],
        Vectors.Add(Divide(Subtract(transformedCorners[1], transformedCorners[0]), 2.0),
                    Divide(Subtract(transformedCorners[2], transformedCorners[0]), 2.0)));
      direction := unit(Subtract(frustumCentre, origin));
    }

    function ClippingFor(n: real, f: real): Clipping
      reads this
    {
      Clipping(perspective, direction, screenDistance, n, f)
    }

    /** One step of the clipping loop: the i-th hit is kept when its depth,
        measured from the screen, lies between the near and far planes. */
    method KeepIfClipped(ray: Vector3, n: real, f: real, ghost hits: seq<Hit>, i: nat, kept: RayHit, x: Hit)
      returns (next: RayHit)
      requires i < |hits| && hits[i] == x
      requires Records(kept, Clip(ClippingFor(n, f), ray, hits[..i]))
      ensures Records(next, Clip(ClippingFor(n, f), ray, hits[..i + 1]))
    {
      var perpDistance := x.distance;
      if perspective {
        perpDistance := perpDistance * DotProduct(ray, direction);
      }
      assert perpDistance == Depth(ClippingFor(n, f), ray, x.distance);
      next := kept;
      if perpDistance >= n - screenDistance && perpDistance <= f - screenDistance {
        next := RayHit(true, kept.triangles + [x.triangle], kept.intersects + [x.intersect], kept.distances + [x.distance]);
      }
      RecordsClipStep(ClippingFor(n, f), ray, hits, i, kept, next);
    }

    /** GetRayHitClipping: the hits of a primary ray (no triangle excluded)
        whose depth lies between the near and far planes, each depth measured
        from the screen. */
    method GetRayHitClipping(scene: SceneView, o: Optics, start: Vector3, ray: Vector3, n: real, f: real)
      returns (newH: RayHit)
      ensures Records(newH, Clip(ClippingFor(n, f), ray, SceneHits(scene.objects, start, ray, null, o.slabMiss)))
    {
      var h := GetRayHit(scene.objects, start, ray, null, o.slabMiss);
      newH := ClipRecorded(SceneHits(scene.objects, start, ray, null, o.slabMiss), h, ray, n, f);
    }

    /** The filter loop of GetRayHitClipping over the record of a cast. */
    method ClipRecorded(ghost hits: seq<Hit>, h: RayHit, ray: Vector3, n: real, f: real) returns (newH: RayHit)
      requires Records(h, hits)
      ensures Records(newH, Clip(ClippingFor(n, f), ray, hits))
    {
      RecordsIsConsistent(h, hits);
      newH := RayHit(false, [], [], []);
      for i := 0 to |h.intersects|
        invariant Records(newH, Clip(ClippingFor(n, f), ray, hits[..i]))
      {
        assert hits[i] == Hit(h.triangles[i], h.intersects[i], h.distances[i]);
        newH := KeepIfClipped(ray, n, f, hits, i, newH, Hit(h.triangles[i], h.intersects[i], h.distances[i]));
      }
      assert hits[..|h.intersects|] == hits;
    }

    /** The light branch of RayTrace: the direction towards the light, the
        shadow cast (or, outside a spot light's cone, a record that counts as
        a hit) and the diffuse term. */
    method Illuminate(scene: SceneView, o: Optics, intersect: Vector3, triangle: Triangle)
      returns (lightRay: Vector3, reflectHit: RayHit, diffuse: Colour)
      ensures lightRay == SampleLight(scene.light, o, intersect, triangle).lightRay
      ensures diffuse == SampleLight(scene.light, o, intersect, triangle).diffuse
      ensures reflectHit.hit == InShadow(scene, o, intersect, triangle)
    {
      match scene.light {
        case DirectionalLight(lightVec, brightness, colour) =>
          lightRay := o.unit(Vectors.Multiply(lightVec, -1.0));
          var lightCos := Abs(DotProduct(lightRay, triangle.normal));
          reflectHit := GetRayHit(scene.objects, intersect, lightRay, triangle, o.slabMiss);
          diffuse := Combine(triangle.material.diffuse, colour, Lambert(brightness, lightCos, triangle.material));
        case SpotLight(lightOrigin, lightVec, brightness, colour, spotAngle) =>
          var spotVector := o.unit(Vectors.Multiply(lightVec, -1.0));
          lightRay := Subtract(lightOrigin, intersect);
          var lightDistance := o.magnitude(lightRay);
          lightRay := o.unit(lightRay);
          var lightCos := Abs(DotProduct(lightRay, triangle.normal));
          if DotProduct(spotVector, lightRay) >= o.cos(spotAngle) {
            reflectHit := GetRayHit(scene.objects, intersect, lightRay, triangle, o.slabMiss);
            diffuse := Combine(triangle.material.diffuse, colour,
              InverseSquare(o, Lambert(brightness, lightCos, triangle.material), lightDistance));
          } else {
            reflectHit := RayHit(true, [], [], []);
            diffuse := BLACK;
          }
        case PointLight(lightOrigin, brightness, colour) =>
          lightRay := Subtract(lightOrigin, intersect);
          var lightDistance := o.magnitude(lightRay);
          lightRay := o.unit(lightRay);
          var lightCos := Abs(DotProduct(lightRay, triangle.normal));
          reflectHit := GetRayHit(scene.objects, intersect, lightRay, triangle, o.slabMiss);
          diffuse := Combine(triangle.material.diffuse, colour,
            InverseSquare(o, Lambert(brightness, lightCos, triangle.material), lightDistance));
      }
    }

    /** RayTrace: the colour seen along viewVector at intersect on triangle. */
    method RayTrace(scene: SceneView, o: Optics, viewVector: Vector3, intersect: Vector3, triangle: Triangle, reflectiveBounces: int)
      returns (c: Colour)
      ensures c == Trace(scene, o, background, viewVector, intersect, triangle, reflectiveBounces)
      decreases DecreasingBounces(reflectiveBounces), 2
    {
      var lightRay, reflectHit, diffuse := Illuminate(scene, o, intersect, triangle);
      var ambient := Combine(triangle.material.diffuse, background, scene.ambientBrightness);
      var reflection, specular := Reflectance(scene, o, viewVector, intersect, triangle, lightRay, reflectiveBounces);
      if reflectHit.hit {
        c := Colours.Add(ambient, reflection);
      } else {
        c := Add4(ambient, diffuse, reflection, specular);
      }
    }

    /** The reflection branch of RayTrace: the specular highlight and the
        reflected colour, both black unless bounces remain and the material
        reflects. */
    method Reflectance(scene: SceneView, o: Optics, viewVector: Vector3, intersect: Vector3, triangle: Triangle,
                       lightRay: Vector3, reflectiveBounces: int)
      returns (reflection: Colour, specular: Colour)
      requires lightRay == SampleLight(scene.light, o, intersect, triangle).lightRay
      ensures Gloss(reflection, specular) == Reflection(scene, o, background, viewVector, intersect, triangle, reflectiveBounces)
      decreases DecreasingBounces(reflectiveBounces), 1
    {
      reflection := BLACK;
      specular := BLACK;
      if reflectiveBounces > 0 && triangle.material.reflectivity > 0.0 {
        var reverseVector := o.unit(Vectors.Multiply(viewVector, -1.0));
        var reflectance := Reflect(triangle.normal, reverseVector);
        var lightReflectance := Reflect(triangle.normal, lightRay);
        var specularDot := DotProduct(lightReflectance, reverseVector);
        if specularDot < 0.0 {
          specularDot := 0.0;
        }
        specular := SpecularTerm(o, triangle.material, scene.light.colour, specularDot);
        reflection := BounceRay(scene, o, reflectance, intersect, triangle, reflectiveBounces);
      }
    }

    /** The reflected ray of Reflectance: cast it, and trace its nearest hit
        with one bounce fewer. */
    method BounceRay(scene: SceneView, o: Optics, reflectance: Vector3, intersect: Vector3, triangle: Triangle,
                     reflectiveBounces: int)
      returns (reflection: Colour)
      requires reflectiveBounces > 0
      ensures reflection == Bounce(scene, o, background, reflectance, intersect, triangle, reflectiveBounces)
      decreases DecreasingBounces(reflectiveBounces), 0
    {
      reflection := BLACK;
      var reflectionHit := GetRayHit(scene.objects, intersect, reflectance, triangle, o.slabMiss);
      ghost var hits := SceneHits(scene.objects, intersect, reflectance, triangle, o.slabMiss);
      RecordsIsConsistent(reflectionHit, hits);
      if reflectionHit.hit {
        var smallestDistance, reflectionIntersect, reflectionTriangle := NearestHit(reflectionHit);
        ghost var k := FirstNearest(DistancesOf(hits));
        assert reflectionIntersect == hits[k].intersect && reflectionTriangle == hits[k].triangle;
        var bounced := RayTrace(scene, o, reflectance, reflectionIntersect, reflectionTriangle, reflectiveBounces - 1);
        BounceUnfolds(scene, o, background, reflectance, intersect, triangle, reflectiveBounces, hits, k, bounced);
        reflection := Colours.Add(reflection, Colours.Multiply(bounced, triangle.material.reflectivity));
      } else {
        assert hits == [];
      }
    }

    /** The camera data a pixel's shading reads. */
    predicate Describes(s: Screen)
      reads this
    {
      && s.origin == origin && s.perspective == perspective && s.direction == direction
      && s.clipping == ClippingFor(near, far) && s.background == background
    }

    /** The view of the screen GetImage's pixel loop reads: the top-left
        corner and the steps from one column and one row to the next. */
    function CurrentScreen(width: nat, height: nat): (s: Screen)
      reads this, transformedCorners
      requires transformedCorners.Length == 4
      ensures Describes(s)
    {
      var tc := transformedCorners;
      Screen(origin, tc[0],
        if width > 0 then Divide(Subtract(tc[1], tc[0]), width as real) else ZERO,
        if height > 0 then Divide(Subtract(tc[2], tc[0]), height as real) else ZERO,
        perspective, direction, ClippingFor(near, far), background)
    }

    /** One pixel of GetImage: the clipped primary cast from point, then the
        trace of its nearest hit, or the background. */
    method ShadePixel(scene: SceneView, o: Optics, ghost s: Screen, point: Vector3, reflectiveBounces: int)
      returns (c: Colour)
      requires Describes(s)
      ensures c == Shade(scene, o, s, point, reflectiveBounces)
    {
      var rayDir: Vector3;
      if perspective {
        rayDir := o.unit(Subtract(point, origin));
      } else {
        rayDir := direction;
      }
      var camHit := GetRayHitClipping(scene, o, point, rayDir, near, far);
      RecordsIsConsistent(camHit, Clip(ClippingFor(near, far), rayDir, SceneHits(scene.objects, point, rayDir, null, o.slabMiss)));
      if camHit.hit {
        var smallestDistance, closestIntersect, triangle := NearestHit(camHit);
        c := RayTrace(scene, o, rayDir, closestIntersect, triangle, reflectiveBounces);
      } else {
        c := background;
      }
    }

    /** The inner loop of GetImage: shades row i of the image and leaves
        every other row as it was. */
    method ShadeRow(scene: SceneView, o: Optics, ghost s: Screen, image: array2<Colour>, i: nat,
                    heightPoint: Vector3, deltaWidth: Vector3, reflectiveBounces: int)
      requires Describes(s) && i < image.Length1
      requires heightPoint == Vectors.Add(s.topLeft, Vectors.Multiply(s.deltaHeight, i as real))
      requires deltaWidth == s.deltaWidth
      modifies image
      ensures forall jj, ii :: 0 <= jj < image.Length0 && 0 <= ii < image.Length1 ==>
        image[jj, ii] == if ii == i then Pixel(scene, o, s, jj, i, reflectiveBounces) else old(image[jj, ii])
    {
      for j := 0 to image.Length0
        invariant forall jj, ii :: 0 <= jj < image.Length0 && 0 <= ii < image.Length1 ==>
          image[jj, ii] == if ii == i && jj < j then Pixel(scene, o, s, jj, i, reflectiveBounces) else old(image[jj, ii])
      {
        var point := Vectors.Add(heightPoint, Vectors.Multiply(deltaWidth, j as real));
        assert point == ScreenPoint(s, j, i);
        var c := ShadePixel(scene, o, s, point, reflectiveBounces);
        image[j, i] := c;
      }
    }

    /** GetImage: places the screen corners, then shades every pixel; the
        image is indexed [column, row]. */
    method GetImage(scene: SceneView, o: Optics, width: nat, height: nat, reflectiveBounces: int,
                    turn: (Vector3, Vector3) -> Vector3)
      returns (image: array2<Colour>)
      requires |corners| == 4 && transformedCorners.Length == 4
      modifies this, transformedCorners
      ensures forall i :: 0 <= i < 4 ==> transformedCorners[i] == Vectors.Add(origin, turn(rotation, corners[i]))
      ensures frustumCentre == Vectors.Add(transformedCorners[0],
        Vectors.Add(Divide(Subtract(transformedCorners[1], transformedCorners[0]), 2.0),
                    Divide(Subtract(transformedCorners[2], transformedCorners[0]), 2.0)))
      ensures direction == o.unit(Subtract(frustumCentre, origin))
      ensures fresh(image) && image.Length0 == width && image.Length1 == height
      ensures forall j, i :: 0 <= j < width && 0 <= i < height ==>
        image[j, i] == Pixel(scene, o, CurrentScreen(width, height), j, i, reflectiveBounces)
    {
      CalculateCorners(turn, o.unit);
      image := new Colour[width, height];
      var topLeft := transformedCorners[0];
      var deltaWidth := ZERO;
      var deltaHeight := ZERO;
      if width > 0 {
        deltaWidth := Divide(Subtract(transformedCorners[1], topLeft), width as real);
      }
      if height > 0 {
        deltaHeight := Divide(Subtract(transformedCorners[2], topLeft), height as real);
      }
      ghost var s := CurrentScreen(width, height);
      assert s.topLeft == topLeft && s.deltaWidth == deltaWidth && s.deltaHeight == deltaHeight;
      for i := 0 to height
        modifies image
        invariant Describes(s)
        invariant forall jj, ii :: 0 <= jj < width && 0 <= ii < i ==> image[jj, ii] == Pixel(scene, o, s, jj, ii, reflectiveBounces)
      {
        var heightPoint := Vectors.Add(topLeft, Vectors.Multiply(deltaHeight, i as real));
        ShadeRow(scene, o, s, image, i, heightPoint, deltaWidth, reflectiveBounces);
      }
      assert s == CurrentScreen(width, height);
    }
  }

  /** The frustum centre is the midpoint of the top-right and bottom-left
      corners: the centre of the screen. */
  lemma {:induction false} FrustumCentreIsMidpoint(tl: Vector3, tr: Vector3, bl: Vector3)
    ensures Vectors.Add(tl, Vectors.Add(Divide(Subtract(tr, tl), 2.0), Divide(Subtract(bl, tl), 2.0)))
      == Divide(Vectors.Add(tr, bl), 2.0)
  {
  }
}
