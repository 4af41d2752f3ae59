# A verified model of a small recursive ray tracer

This project models the core of a single-file C# ray tracer, `Raytracer.cs`.
The tracer places triangle meshes in a world and casts one primary ray per
pixel through a perspective or orthographic camera. It shades the nearest
visible triangle with ambient, diffuse, specular and recursively reflected
light, and exports the image as a plain-text PPM ("P3") file.

The model is written in Dafny. Floating-point values are modelled as `real`.
Each operation that has no exact counterpart over the reals is passed in as a
function value:

- square root (`Vector3.Unit`, `Magnitude`);
- `Math.Cos`, `Math.Tan` and `Math.Pow`;
- the trigonometric placement of points and corners;
- a float division whose divisor may be zero;
- the AABB slab test.

What remains is exact, and it is proved:

- `colour.dfy` (module `Colours`): integer RGB colours.
  - Saturating `Clamp`.
  - The two-, three- and four-argument `Add`.
  - `Multiply` and `Combine`, with C#'s truncating `(int)` conversion.
  - The fifteen-colour palette of `SetColour(int)`.
- `vector.dfy`: `Vector3` as a value.
  - Module `Vectors` holds the static operations.
  - Module `VectorCells` holds a `VectorCell` class whose `Add` and `Scale`
    change a shared vector object in place.
- `scene.dfy` (module `Scene`):
  - Materials, and triangles as objects with identity (a ray excludes the
    triangle it leaves from by reference).
  - The light variants.
  - `WorldObject`, with the bounding-box loop of `CalculatePoints` and the
    triangle loop of `CalculateTriangles`.
  - `WorldSpace`.
- `intersection.dfy` (module `Intersection`):
  - `GetRayHit`, which collects every struck triangle into three parallel
    lists.
  - The near/far filter of `GetRayHitClipping`.
  - The nearest-hit scan, where the first index wins ties.
- `render.dfy` (module `Render`):
  - The camera.
  - The recursive shading function `Trace`, and the methods that compute it
    (`RayTrace` and its helpers).
  - The per-pixel shading and the image loop of `GetImage`.
- `ppm.dfy` (module `Ppm`):
  - The text `Exporter.CreateFile` writes.
  - A decoder, with the proof that decoding the exported text gives back the
    width, the height and every pixel.
- `sequences.dfy` (module `Sequences`): two sequence facts used by the
  proofs.

A render reads a value snapshot of the world: `SceneView`, whose meshes are
`Mesh` values. The specification functions (`SceneHits`, `Clip`,
`FirstNearest`, `Trace`, `Shade`, `Encode`) are stated on values. Each
imperative method of the source is proved to compute exactly one of them.

Two places where the model follows the code's actual behaviour:

- The object transform in `WorldObject.CalculatePoints` scales a point after
  rotating it. The model leaves the transform abstract (the `Placement`
  parameter), so nothing depends on the order.
- The world's default light is a plain `LightSource`. `RayTrace` shades it as
  a point light, and the model represents it as `PointLight`.

## Model

| member | source | states |
|---|---|---|
| Colours.Clamp | Raytracer.cs:130-153 | the result is in [0, 255] on every channel; an in-range colour is returned unchanged |
| Colours.ClampChannelNearest | Raytracer.cs:130-153 | each clamped channel is the value in [0, 255] nearest to the input channel |
| Colours.ClampIdempotent | Raytracer.cs:130-153 | clamping twice is clamping once |
| Colours.ClampMonotone | Raytracer.cs:130-153 | a channel-wise brighter input never gives a darker clamped output |
| Colours.Add | Raytracer.cs:155-160 | the two-argument sum is always a displayable colour |
| Colours.Add3 | Raytracer.cs:162-167 | the three-argument sum is always a displayable colour |
| Colours.Add4 | Raytracer.cs:169-174 | the four-argument sum is always a displayable colour |
| Colours.AddCommutes | Raytracer.cs:155-174 | the order of the terms does not matter: each Add overload is unchanged when two adjacent terms swap |
| Colours.AddBlackIsIdentity | Raytracer.cs:155-160 | adding black to an in-range colour, on either side, leaves it unchanged |
| Colours.Add4IsNestedAdd | Raytracer.cs:155-174 | with non-negative terms, the 3- and 4-argument Adds equal nested 2-argument Adds |
| Colours.NestedAddDiffersWithNegative | Raytracer.cs:155-167 | with a negative term the nested form differs: it saturates before subtracting |
| Colours.AddMonotone | Raytracer.cs:155-160 | adding a channel-wise larger colour never darkens the sum |
| Colours.Truncate | Raytracer.cs:122-128 | the (int) conversion rounds toward zero: it is within 1 of the input and not farther from zero |
| Colours.MultiplyDarkens | Raytracer.cs:122-124 | scaling an in-range colour by a factor in [0, 1] stays in range and is channel-wise no brighter |
| Colours.MultiplyChannel | Raytracer.cs:122-124 | one scaled channel lies between 0 and the original channel |
| Colours.MultiplyByOne | Raytracer.cs:122-124 | scaling by 1 leaves a colour unchanged |
| Colours.CombineChannelInRange | Raytracer.cs:126-128 | p * q * val / 255 truncated lies in [0, 255] for in-range channels and val in [0, 1] |
| Colours.CombineInRange | Raytracer.cs:126-128 | combining two in-range colours with a factor in [0, 1] gives an in-range colour |
| Colours.CombineNonNegative | Raytracer.cs:126-128 | combining non-negative colours with a non-negative factor gives a non-negative colour |
| Colours.Code | Raytracer.cs:271-287 | the ColourList values are 0 through 14 |
| Colours.CodeOnto | Raytracer.cs:271-287 | every code 0 through 14 is the value of some ColourList name |
| Colours.SetColour | Raytracer.cs:182-249 | every palette colour is in range with channels 0, 127 or 255; any code outside 0..14 gives the error pink (255, 0, 127) |
| Colours.NamedRoundTrip | Raytracer.cs:118-120 | the colour of each name reads back as that name |
| Colours.NamedDistinct | Raytracer.cs:182-249 | the fifteen named colours are pairwise distinct |
| Colours.ErrorColourIsHotPink | Raytracer.cs:228-247 | an unknown code gives exactly the HOTPINK colour |
| Colours.Named | Raytracer.cs:118-120 | the colour of a name is displayable, and it is the error pink exactly for HotPink |
| Colours.Multiply | Raytracer.cs:122-124 | scaling by 0 gives black; a non-negative colour scaled by a non-negative factor stays non-negative |
| Colours.Combine | Raytracer.cs:126-128 | a zero factor gives black; combining with white at factor 1 leaves the colour unchanged |
| Vectors.Add | Raytracer.cs:20-22 | subtracting b from a + b gives a back |
| Vectors.Subtract | Raytracer.cs:24-26 | the difference is the zero vector exactly when the two vectors are equal |
| Vectors.Multiply | Raytracer.cs:36-38 | scaling by 0 gives the zero vector and scaling by 1 gives the vector unchanged |
| Vectors.Divide | Raytracer.cs:40-42 | for a non-zero amount, multiplying the quotient by the amount gives the vector back |
| Vectors.DotProduct | Raytracer.cs:44-46 | the dot product with the zero vector is 0 |
| Vectors.CrossProduct | Raytracer.cs:48-50 | the cross product of a vector with itself is the zero vector |
| Vectors.SubtractUndoesAdd | Raytracer.cs:20-26 | Subtract and Add are inverse to each other |
| Vectors.DotAlongRay | Raytracer.cs:44-46 | the dot product with start + ray * t is affine in t |
| Vectors.DotSubtract | Raytracer.cs:24-46 | the dot product distributes over Subtract |
| Vectors.CrossOrthogonal | Raytracer.cs:44-50 | a cross product is orthogonal to both of its arguments |
| Vectors.CrossAnticommutes | Raytracer.cs:48-50 | swapping the arguments of the cross product negates it |
| Vectors.ScaledOrthogonal | Raytracer.cs:36-46 | a rescaled vector stays orthogonal to what it was orthogonal to |
| Vectors.ReflectKeepsNormalComponent | Raytracer.cs:757-758 | the mirrored vector n * 2(n . v) - v has the same component along a unit normal |
| Vectors.ReflectInvolution | Raytracer.cs:757-758 | mirroring twice about a unit normal gives the vector back |
| Vectors.Reflect | Raytracer.cs:757-758 | a vector perpendicular to the normal, or any vector mirrored about a zero normal, is reversed |
| VectorCells.VectorCell.constructor | Raytracer.cs:14-18 | the new vector holds the three given coordinates |
| VectorCells.VectorCell.Add | Raytracer.cs:56-60 | the vector becomes its old value plus the argument |
| VectorCells.VectorCell.ScaleX | Raytracer.cs:62-64 | only x is multiplied by the amount |
| VectorCells.VectorCell.ScaleY | Raytracer.cs:66-68 | only y is multiplied by the amount |
| VectorCells.VectorCell.ScaleZ | Raytracer.cs:70-72 | only z is multiplied by the amount |
| VectorCells.VectorCell.Scale | Raytracer.cs:74-78 | each coordinate is multiplied by its own factor |
| VectorCells.VectorCell.ScaleUniform | Raytracer.cs:80-84 | the vector becomes its old value times the amount |
| Scene.Triangle.constructor | Raytracer.cs:94-104 | the triangle holds the given vertices, normal and material; the C# constructor builds an empty triangle, and these three values are the ones CalculateTriangles assigns to it at Raytracer.cs:421-429 |
| Scene.Extent | Raytracer.cs:384-414 | the box encloses every point and each of its six bounds is attained by some point; no points give the box at the origin |
| Scene.ExtentUnique | Raytracer.cs:384-414 | the extent of a point set is unique |
| Scene.FaceNormalOrthogonal | Raytracer.cs:426-428 | when Unit rescales, the face normal is orthogonal to both edges from the first vertex |
| Scene.FaceNormal | Raytracer.cs:426-428 | a degenerate triangle, with two equal vertices, gets the unit of the zero vector as its normal |
| Scene.NonNull | Raytracer.cs:418-431 | the non-null view of a filled triangle array has the same elements in the same order |
| Scene.WorldObject.constructor | Raytracer.cs:305-317 | zero angles, unit scale, the given origin, points, index table and materials, and a fresh triangle array of one empty slot per index row |
| Scene.WorldObject.Translate | Raytracer.cs:319-321 | the shared origin object moves by the given vector |
| Scene.WorldObject.MoveTo | Raytracer.cs:323-325 | the origin is replaced by the given object; angles, scale, mesh, materials, placed points and bounding box are unchanged |
| Scene.WorldObject.Scale | Raytracer.cs:360-365 | the three scale factors become the vector's coordinates; origin, angles, mesh, materials, placed points and bounding box are unchanged |
| Scene.WorldObject.CalculatePoints | Raytracer.cs:367-415 | a fresh array holds every point placed for the current pose, and the bounding box is the extent of the placed points; origin, mesh, angles and scale are unchanged |
| Scene.WorldObject.PlacePoints | Raytracer.cs:368-383 | the new array holds point i placed for the pose at index i |
| Scene.WorldObject.CalculateTriangles | Raytracer.cs:418-431 | after recomputing the points and the box, slot i holds a new triangle whose vertices are the placed points row i names, in order, with the face normal and material i |
| Scene.WorldObject.BuildTriangles | Raytracer.cs:420-430 | every slot holds a new triangle built from its index row |
| Scene.WorldObject.BuildTriangle | Raytracer.cs:421-429 | the new triangle is built from one index row |
| Scene.Views | Raytracer.cs:437-440 | the meshes a render reads are those of the world's objects, in order |
| Scene.WorldSpace.constructor | Raytracer.cs:442-446 | no objects, a black zero-brightness light at the origin, and the given ambient brightness |
| Scene.WorldSpace.AddObject | Raytracer.cs:448-450 | the object is appended at the end of the list; the light and ambient are unchanged |
| Scene.WorldSpace.SetLight | Raytracer.cs:452-454 | the light is replaced; the objects and ambient are unchanged |
| Intersection.TrianglesOf | Raytracer.cs:498-510 | the triangle list of a hit sequence, index by index |
| Intersection.IntersectsOf | Raytracer.cs:498-510 | the intersect list of a hit sequence, index by index |
| Intersection.DistancesOf | Raytracer.cs:498-510 | the distance list of a hit sequence, index by index |
| Intersection.RecordsIsConsistent | Raytracer.cs:498-510 | a record of hits has three equally long lists, and its flag is set exactly when they are non-empty |
| Intersection.RecordsSnoc | Raytracer.cs:680-683 | appending one hit to the three lists and setting the flag records one more hit |
| Intersection.TestTriangle | Raytracer.cs:655-684 | the per-triangle test finds a hit exactly when the triangle's contribution to the cast is that hit, and otherwise contributes nothing |
| Intersection.HitOnPlane | Raytracer.cs:662-674 | a recorded intersection lies on the triangle's plane |
| Intersection.BackFacesMiss | Raytracer.cs:659-661 | a triangle facing away from the ray, or parallel to it, is never hit |
| Intersection.GetRayHit | Raytracer.cs:591-688 | the result records exactly the hits of the cast, in object then triangle order |
| Intersection.CastMesh | Raytracer.cs:654-685 | the triangle loop appends exactly one object's hits to the record |
| Intersection.SceneHitsSound | Raytracer.cs:591-688 | every recorded hit has t > 0, a triangle other than the excluded one that faces the ray, intersect = start + ray * t inside all three edges, and belongs to an object the slab test kept |
| Intersection.SceneHitsComplete | Raytracer.cs:591-688 | every hit of a triangle of a kept object is recorded; in particular every point of a kept triangle's plane that passes all the tests is recorded |
| Intersection.TriangleHitComplete | Raytracer.cs:655-684 | conversely, a point on t's plane at start + ray * d, d > 0, inside all three edges, with t facing the ray and not excluded, is exactly the hit t yields |
| Intersection.TriangleHit | Raytracer.cs:655-684 | one triangle yields at most one hit, on that triangle, and it qualifies: t > 0, not the excluded triangle, facing the ray, inside all three edges |
| Intersection.SceneHits | Raytracer.cs:591-688 | every hit collected from the scene qualifies for the ray it was collected for |
| Intersection.Clip | Raytracer.cs:693-709 | the clipped list is no longer than the input, and each hit in it is an input hit whose depth lies between the planes |
| Intersection.Survivors | Raytracer.cs:650-652 | the kept objects, exactly those the slab test does not skip |
| Intersection.SkippedObjectsContributeNothing | Raytracer.cs:650-652 | objects whose slab interval collapses contribute nothing: the cast equals the cast against the surviving objects alone |
| Intersection.GatherAppend | Raytracer.cs:592-686 | the hits over two object lists are the hits over the first, then the second |
| Intersection.ClipMembership | Raytracer.cs:693-709 | a hit survives clipping exactly when it was a hit and its depth lies between the planes |
| Intersection.ClipAppend | Raytracer.cs:693-709 | clipping keeps order: the clip of a concatenation is the concatenation of the clips |
| Intersection.ClipIdempotent | Raytracer.cs:693-709 | clipping twice is clipping once |
| Intersection.RecordsClipStep | Raytracer.cs:695-707 | one step of the filter loop extends the record by hit i exactly when it lies between the planes |
| Intersection.FirstNearest | Raytracer.cs:766-775 | the index of a smallest distance, and no earlier index has the same distance |
| Intersection.FirstNearestUnique | Raytracer.cs:766-775 | those two properties determine the index |
| Intersection.NearestHit | Raytracer.cs:766-775 | the scan returns the distance, intersect and triangle at the first index of the smallest distance |
| Render.NoBounceNoGloss | Raytracer.cs:751-783 | with no bounce left or a non-reflective material, reflection and specular are black, and a point in shadow shows just its clamped ambient colour |
| Render.SpotOutsideConeIsDark | Raytracer.cs:726-741 | a point outside a spot light's cone is shaded as in shadow: Add(ambient, reflection) |
| Render.ShadowNeverBrightens | Raytracer.cs:779-783 | with non-negative diffuse and specular terms, the shadowed colour is channel-wise no brighter than the lit one |
| Render.ShadowCasterIsAnotherTriangle | Raytracer.cs:719-750 | a point shadowed by an obstacle has another triangle strictly ahead along the ray towards the light |
| Render.SampleLight | Raytracer.cs:719-750 | only a spot light can leave a point out of its cone, and a point outside the cone receives no diffuse light |
| Render.InShadow | Raytracer.cs:719-783 | a point outside a spot light's cone is dark; for a directional or point light a point is dark exactly when the ray towards the light strikes some triangle |
| Render.Ambient | Raytracer.cs:751 | a zero ambient brightness gives black; in-range colours and a brightness in [0, 1] give a displayable ambient term |
| Render.SpecularTerm | Raytracer.cs:763 | a material with zero reflectivity has no highlight; non-negative colours, reflectivity and power give a non-negative highlight |
| Render.Reflection | Raytracer.cs:752-778 | the reflected colour is displayable; with no bounces left or a non-reflective material both terms are black |
| Render.Bounce | Raytracer.cs:765-776 | the bounced colour is displayable, and black when the mirrored ray hits nothing |
| Render.Trace | Raytracer.cs:714-784 | every traced colour is displayable |
| Render.Shade | Raytracer.cs:800-822 | every pixel is displayable when the background is |
| Render.ReflectionLeavesTheSurface | Raytracer.cs:764-776 | the triangle a reflection continues from is not the reflecting one, and it is the nearest along the mirrored ray |
| Render.NearestVisibleHit | Raytracer.cs:807-821 | the hit a pixel shows lies between the clipping planes, strictly ahead of the screen point, and no hit between the planes is nearer |
| Render.NearestClippedHit | Raytracer.cs:807-818 | for any ray, the first nearest clipped hit is a hit between the planes with positive distance, and no hit between the planes is nearer |
| Render.ScreenPoint | Raytracer.cs:798-800 | pixel (0, 0) is the top-left corner |
| Render.ScreenPointSteps | Raytracer.cs:795-800 | the screen points form a grid: one column right adds deltaWidth, one row down adds deltaHeight |
| Render.PrimaryDirection | Raytracer.cs:801-806 | an orthographic camera casts every pixel's ray along the view direction; a perspective camera casts it from the eye through the screen point |
| Render.ScreenCorners | Raytracer.cs:557-561 | the four corners lie at screenDistance, symmetric about the axis, with half height = half width * aspect |
| Render.FrustumCentreIsMidpoint | Raytracer.cs:583 | the frustum centre is the midpoint of the top-right and bottom-left corners |
| Render.Camera.constructor | Raytracer.cs:523-562 | screenDistance is min(near, 1); the corners are those of the half width (tangent or scale); the direction is +x |
| Render.Camera.CalculateCorners | Raytracer.cs:567-585 | each corner is rotated and moved to the origin; the frustum centre is halfway along both screen edges; the direction points to it from the eye |
| Render.Camera.CurrentScreen | Raytracer.cs:795-796 | the per-pixel view describes this camera |
| Render.Camera.GetRayHitClipping | Raytracer.cs:693-709 | the result records exactly the hits between the planes, in order, with their original distances; a perspective camera measures depth as distance * dot(ray, direction) |
| Render.Camera.ClipRecorded | Raytracer.cs:695-707 | filtering the record of a cast keeps exactly the clipped hits, in order |
| Render.Camera.KeepIfClipped | Raytracer.cs:697-705 | one filter step appends the hit exactly when its depth lies between the planes |
| Render.Camera.Illuminate | Raytracer.cs:719-750 | the light ray and diffuse term of the light variant, and a shadow flag set exactly when the point is outside the spot cone or the ray towards the light strikes a triangle |
| Render.Camera.RayTrace | Raytracer.cs:714-784 | the result is the shading function Trace: Add(ambient, reflection) in shadow, else Add(ambient, diffuse, reflection, specular); recursion only with one bounce fewer |
| Render.Camera.Reflectance | Raytracer.cs:751-778 | reflection and specular as the shading function gives them, black unless bounces remain and the material reflects |
| Render.Camera.BounceRay | Raytracer.cs:764-777 | the reflected colour is black when the mirrored ray misses, else the trace of its nearest hit with one bounce fewer, scaled by the reflectivity |
| Render.Camera.ShadePixel | Raytracer.cs:800-822 | the pixel is the trace of the nearest clipped hit of its primary ray, or the background |
| Render.Camera.ShadeRow | Raytracer.cs:798-823 | row i holds the shaded pixels and every other row is unchanged |
| Render.Camera.GetImage | Raytracer.cs:789-826 | the corners are recomputed as in CalculateCorners (each turned by the rotation and moved by the origin; the centre is halfway along both edges; the direction is the unit vector towards the centre); the result is a fresh width by height image whose pixel [j, i] is the shading of screen column j, row i |
| Ppm.DigitChar | Raytracer.cs:885-890 | a digit character of the given value |
| Ppm.NatToString | Raytracer.cs:885-890 | a non-empty numeral of digits, without a leading zero |
| Ppm.IntToString | Raytracer.cs:885-890 | a non-empty numeral with no space or line break; the plain numeral for a non-negative value |
| Ppm.NatRoundTrip | Raytracer.cs:885-890 | parsing the numeral of n gives n |
| Ppm.IntRoundTrip | Raytracer.cs:885-890 | parsing int.ToString of any integer gives it back |
| Ppm.SplitJoinInverse | Raytracer.cs:886-898 | splitting at the separator undoes joining with it when no part holds it |
| Ppm.SplitAppend | Raytracer.cs:886-898 | splitting at one separator splits the text into the pieces of either side |
| Ppm.WrittenStep | Raytracer.cs:886-898 | appending a part, and the separator unless it is the last, extends the joined text by one part |
| Ppm.WrittenAll | Raytracer.cs:886-898 | after every part the text is the prefix plus the parts joined by the separator, with no trailing separator |
| Ppm.PixelTexts | Raytracer.cs:888-892 | each pixel's text, in column order |
| Ppm.RowTexts | Raytracer.cs:886-898 | each row's text, in row order |
| Ppm.PixelText | Raytracer.cs:889-893 | a pixel's text splits at spaces into its three channel numerals |
| Ppm.Encode | Raytracer.cs:882-901 | for a width by height grid, the lines of the text are P3, "width height", 255, then one line per image row (one empty line when there are no rows) |
| Ppm.Header | Raytracer.cs:884-885 | the header splits at line breaks into P3, "width height", 255 and an empty remainder |
| Ppm.DecodeEncode | Raytracer.cs:882-901 | decoding the exported text gives back the width, the height and every pixel |
| Ppm.DimensionsLine | Raytracer.cs:884 | the second header line reads back as the width and the height |
| Ppm.Exporter.constructor | Raytracer.cs:872-876 | the given width and height and a fresh image of that size |
| Ppm.Exporter.SetImage | Raytracer.cs:878-880 | the image is the given array, by reference; width and height are unchanged |
| Ppm.Exporter.Grid | Raytracer.cs:886-896 | the rows the export reads: height rows of width pixels, pixel [i][j] being image[j, i] |
| Ppm.Exporter.CreateFile | Raytracer.cs:882-902 | the path is "../" + filename + ".ppm", and the text is the header followed by the rows joined by line breaks, each row's pixels "r g b" joined by single spaces; no text when the image is smaller than width by height |
| Ppm.Exporter.AppendRows | Raytracer.cs:885-900 | the row loop appends the rows joined by line breaks, with none after the last |
| Ppm.Exporter.AppendRow | Raytracer.cs:886-895 | the pixel loop appends one row's pixels joined by single spaces, with none after the last |

## Left out

- Floating-point arithmetic: `float` is modelled as `real`. Rounding, overflow to infinity and NaN are not modelled.
- Vector3.Unit, Vector3.Magnitude and Vector3.Distance: they need a square root. Where the renderer uses them they are function parameters (`Optics.unit`, `Optics.magnitude`).
- Divide: it requires a non-zero amount. The float division by zero, which gives infinities, is not modelled.
- Math.Cos, Math.Sin, Math.Tan and Math.Pow are parameters. These are the cone test, the placement of object points and screen corners, the half width of a perspective screen, and the specular power.
- The rotation and scale formulas of `CalculatePoints` and `CalculateCorners` are the `place` and `turn` parameters. The model states what is computed from their results, not the formulas.
- The degree-to-radian conversions: in the Camera and SpotLight constructors, and in the rotations.
- WorldObject.RotateX, RotateY and RotateZ: they add a float angle and wrap it with a computation that uses pi. The angles enter the model only through the `place` parameter.
- The AABB slab arithmetic of GetRayHit: it divides by ray components that may be zero. The model takes its verdict (skip the object when the interval collapses) as the `slabMiss` parameter.
- The lighting magnitudes (inverse-square falloff, the Lambert term and the specular power) are stated as formulas over parameters. Only their structure is proved, not their numeric values.
- Colours.Add: the C# sums are 32-bit `int`, and the wrap-around for channels beyond about two billion is not modelled.
- The float-to-int conversion of Multiply and Combine is truncation toward zero on an exact real. The C# result of converting a NaN or an out-of-range float is not modelled.
- Camera.GetImage: the model renders a value snapshot of the world (`SceneView`). It does not call `CalculateTriangles` for every object first: that preparation is `WorldObject.CalculateTriangles`, and `WorldSpace.View` is the snapshot it produces.
- Camera.GetImage: for a zero width or height the column or row step is zero. The source divides by zero there, but then shades no pixel.
- Render.Camera.constructor: the `fov` field is not kept; only the half-width tangent it feeds into is.
- Ppm.Exporter.constructor: C# leaves the image's elements null until SetImage, so CreateFile before SetImage throws NullReferenceException on the first pixel (Raytracer.cs:889). The model fills the image with black, and CreateFile then writes black pixels.
- Ppm.Exporter.CreateFile: where the image is smaller than width by height, the source throws IndexOutOfRangeException on the first pixel outside it. The model returns no text.
- Ppm.Exporter.CreateFile: the model appends each pixel's text in one step, not with five separate StringBuilder appends. The text is the same.
- Ppm.Exporter.CreateFile: `File.WriteAllText` is not modelled. The method returns the path and the text it would write.
- Negative widths and heights: they make the C# array allocation throw. The model's Exporter takes natural numbers.
- Camera.GetImage: it takes natural-number sizes. In the source a negative width or height makes `new Colour[width, height]` throw (Raytracer.cs:794).
- Camera.GetImage: the default `reflectiveBounces = 4` of the C# signature (Raytracer.cs:789) is not modelled. The caller always passes the number of bounces.
- WorldObject.CalculateTriangles: it requires at least as many materials and index rows as triangles, and every index inside the points. The source throws IndexOutOfRangeException otherwise (Raytracer.cs:423-425); that error path is not modelled.
- Render.Camera.constructor: the source converts the rotation from degrees to radians in place, on the Vector3 the caller passed in (Raytracer.cs:525-528), so the caller's vector changes too. The model keeps the camera's own rotation and does not model that aliasing.
- Colours.Combine: the C# product `a.red * b.red` is a 32-bit `int` (Raytracer.cs:127). Its wrap-around, reachable only with channels far outside [0, 255], is not modelled.
- Importer.ImportSTL: file reading and float parsing.
- The Main method: a hard-coded scene and console output.
