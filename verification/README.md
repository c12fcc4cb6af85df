# Trace: a model of the ray tracer core

This project models the core of a recursive Whitted-style ray tracer (the
`RayTracer` class, the Phong `Material::shade`, the light sources and the box
primitive) in Dafny. It proves properties of the model.

The model covers:

- **Primary rays.** `trace` casts a camera ray through normalised image
  coordinates. It traces the ray at full weight (1, 1, 1) and the configured
  depth, and clamps the result into [0, 1].
- **The recursion.** `traceRay` prunes a ray whose weight is at or below the
  threshold and returns black on a miss. It flips the normal when the ray leaves
  the object on top of its medium stack. It then adds:
  - `traceLightSource`: hard Phong shading, or the mean of 5 soft-shadow samples;
  - `traceReflection`: one mirror ray, or the mean of 5 glossy cone samples;
  - `traceRefraction`: the same, with Snell's law and the medium stack.
- **Phong shading and lights.**
  - `Material::shade` adds emission, ambient light, and per light a diffuse and a
    specular term.
  - Directional and point lights each have a direction and a distance
    attenuation. Their shadow attenuation is a loop that multiplies the
    transmissivity `kt` of the occluders along the shadow ray.
- **The box.** `Box::intersectLocal` is a slab test against the unit cube.
- **Supersampling.** Four sample generators fill a table of sub-pixel offsets:
  grid, random, jittered, and the recursive adaptive subdivision.
- **The render buffer.** The `RayTracer` object owns an RGB byte buffer with its
  width, height and size:
  - `loadScene` and `traceSetup` size the buffer;
  - `traceLines` and `tracePixel` fill it, pixel by pixel.

Modelling choices:

- **Numbers.** Everything is over `real`. The vector library's `sqrt`, `length`,
  `normalize`, `cross` and `pow` are uninterpreted functions carried in a
  `Geometry` value.
- **The scene.** The scene graph is a value holding its queries: the camera, the
  nearest hit, the per-object material, the lights, and the successive hits of a
  shadow ray.
- **`rand()`.** It is an explicit stream `Draws` of values. Every traced value
  returns its colour together with the stream position after it (`Traced`).
- **The interface settings.** `traceUI->get*()` values are a `Config` parameter.
- **Recursive code** becomes functions (`RayColor`, `ReflectionColor`, ...).
- **Loops and state updates** become methods named after the source functions.
  Each method is proved equal to its specification function.
- **Properties** are lemmas about those functions.

Modules, one per source concern:

- `Vectors`: `vec3f`/`vec2f`.
- `SceneTypes`: rays, hits, materials, `rand()`.
- `Settings`: the interface configuration.
- `Lights`: `light.h`/`light.cpp`.
- `Scenes`: the scene's queries.
- `Shading`: `material.cpp`.
- `BoxIntersect`: `Box.cpp`.
- `MediumStack`: the medium stack of `traceRefraction`.
- `Tracer`: the recursion.
- `TracerProperties`: theorems about the recursion.
- `SuperSampling`: the sample generators, the adaptive subdivision and the pixel
  colour.
- `Render`: the buffer state of `RayTracer`.

## Model

| member | source | states |
|---|---|---|
| Vectors.ClampInUnitCube | src/RayTracer.cpp:101 | `clamp()` maps every colour into [0, 1]^3, and leaves a colour already there unchanged |
| Vectors.ProdInUnitCube | src/scene/light.cpp:48 | the channel-wise product of two colours in [0, 1]^3 stays in [0, 1]^3 and below both factors |
| Vectors.ProdAssoc | src/scene/light.cpp:138 | the channel-wise product is associative, so the running product of the shadow loop equals the product of all occluders' kt |
| SceneTypes.RandD | src/RayTracer.cpp:175-176 | `rand() % 100 / 100.0 - 0.5` lies in [-0.5, 0.49] |
| Lights.NewPointLight | src/scene/light.h:40-43 | a new point light has the given position and colour, and the attenuation coefficients (0, 0, 1) |
| Lights.GetDirection | src/scene/light.cpp:65-67 | the direction toward a directional light is the negated orientation |
| Lights.ColorIndependentOfPoint | src/scene/light.cpp:59-62 | a light's and an ambient light's colour is the constructed colour, whatever the shaded point |
| Lights.SetDistanceAttenuationCoeff | src/scene/light.cpp:149-151 | the setter replaces the coefficient triple and keeps colour and position |
| Lights.AttenuationCoefficients | src/scene/light.cpp:75-84 | the interface's override coefficients are used when the override flag is set; otherwise the light's own are used |
| Lights.Attenuation | src/scene/light.cpp:91 | the guarded reciprocal is 1 for p = 0 and at most 1 always. It is 1 for p in (0, 1], positive for p > 0, and exactly 1/p outside (0, 1) |
| Lights.DistanceAttenuation | src/scene/light.cpp:11-15 | a directional light's distance attenuation is 1; every attenuation is at most 1 |
| Lights.DefaultPointIsInverseSquare | src/scene/light.cpp:86-91 | with the default coefficients a point light attenuates as min(1/d^2, 1), and as 1 at distance 0 |
| Lights.OverrideIgnoresOwnCoefficients | src/scene/light.cpp:76-79 | under the override, changing a light's own coefficients does not change its attenuation |
| Lights.AttenuationNonIncreasing | src/scene/light.cpp:86-91 | for non-negative coefficients the attenuation never increases with distance |
| Lights.AttenuationStrictlyDecreasing | src/scene/light.cpp:86-91 | outside the clamp, with a positive linear or quadratic coefficient, the attenuation strictly decreases with distance |
| Lights.PolynomialMonotone | src/scene/light.cpp:86-88 | for non-negative coefficients the polynomial c0 + c1 d + c2 d^2 is non-negative and never decreases as the distance d grows |
| Lights.DirectionalShadowAttenuation | src/scene/light.cpp:18-56 | the directional shadow loop returns the transmittance of the shadow ray's hits, starting from (1, 1, 1) |
| Lights.PointShadowAttenuation | src/scene/light.cpp:106-146 | the point-light shadow loop returns the transmittance. It also stops at a hit at or beyond the light, measured from the current origin |
| Lights.ShadowAttenuation | src/scene/light.h:10 | the virtual call dispatches on the light kind to the matching loop |
| Lights.DirectionalIsProduct | src/scene/light.cpp:30-53 | stopping at an all-zero attenuation changes nothing: the directional result is the product of every occluder's kt |
| Lights.PointIsLitProduct | src/scene/light.cpp:118-143 | the point-light result is the product of the kt of exactly the occluders in front of the light, that is the first `LitPrefix` hits, each measured from the origin pushed past the previous hit |
| Lights.KtProductZero | src/scene/light.cpp:48 | one occluder with kt = 0 makes the product zero |
| Lights.KtProductInUnitCube | src/scene/light.cpp:48 | kt values in [0, 1]^3 give a product in [0, 1]^3 |
| Lights.UnoccludedIsWhite | src/scene/light.cpp:37 | a shadow ray that meets nothing leaves the attenuation at (1, 1, 1) |
| Lights.OpaqueOccluderBlocks | src/scene/light.cpp:30-53 | one opaque occluder blocks a directional light completely |
| Lights.TransmittanceInUnitCube | src/scene/light.cpp:18-146 | for kt values in [0, 1]^3 the shadow attenuation of either light kind lies in [0, 1]^3 |
| Lights.OccluderBeyondLightIgnored | src/scene/light.cpp:127 | a first hit at or beyond a point light leaves its attenuation at (1, 1, 1) |
| Lights.AttenuationAntitone | src/scene/light.cpp:91 | the guarded reciprocal never increases: 0 <= p <= q gives Attenuation(q) <= Attenuation(p) |
| Shading.AmbientLightIntensity | src/scene/material.cpp:100-106 | the ambient loop returns the sum of the ambient lights' colours in list order |
| Shading.AmbientSumAppend | src/scene/material.cpp:102-104 | the ambient sum of a concatenation is the sum of the two sums |
| Shading.AmbientSumSwap | src/scene/material.cpp:102-104 | the order of the ambient lights does not change the ambient intensity |
| Shading.AmbientIntensity | src/scene/material.cpp:46-51 | the ambient intensity is the override scalar on all channels when the override is set, else the ambient sum |
| Shading.LightContribution | src/scene/material.cpp:54-92 | one light is skipped exactly when N . L <= 0 or its shadow attenuation is zero; otherwise it adds attenuation x colour x (diffuse + specular) |
| Shading.Shade | src/scene/material.cpp:17-96 | `shade` returns ke + ka (.) A (.) (1 - kt) plus, in list order, the terms of the lights that are not skipped |
| Shading.EmissiveOnly | src/scene/material.cpp:42-51 | with no lights, no ambient lights and no override only the emission ke remains |
| Shading.SkippedLightAddsNothing | src/scene/material.cpp:58-64 | a light behind the surface or fully shadowed adds nothing, wherever it is in the list |
| Shading.FullyTransmissiveIgnoresAmbientAndDiffuse | src/scene/material.cpp:48-74 | for kt = 1 the colour does not depend on ka or kd |
| Shading.TransparentLightsSum | src/scene/material.cpp:53-92 | for kt = 1 the per-light sum does not depend on ka or kd |
| BoxIntersect.NearAxisAfter | src/SceneObjects/Box.cpp:31-34 | the recorded entry axis is an axis index, and a non-zero axis is the one whose entry parameter is the maximum |
| BoxIntersect.BoxNormal | src/SceneObjects/Box.cpp:45-58 | the normal is a unit vector on the entry axis, with zeros elsewhere, and satisfies N . dir <= 0 (< 0 when that axis is not parallel) |
| BoxIntersect.NearIsMaximum | src/SceneObjects/Box.cpp:31-34 | tnear is the maximum of -DBL_MAX and the entry parameters seen: it bounds each of them and equals one of them |
| BoxIntersect.FarIsMinimum | src/SceneObjects/Box.cpp:35-37 | tfar is the minimum of DBL_MAX and the exit parameters seen |
| BoxIntersect.NearFarMonotone | src/SceneObjects/Box.cpp:17-39 | tnear only grows and tfar only shrinks from axis to axis |
| BoxIntersect.IntersectLocal | src/SceneObjects/Box.cpp:9-61 | it reports a hit exactly when every parallel axis admits the origin, tnear <= tfar and tfar > RAY_EPSILON. On a hit the isect is (tnear, the entry-axis normal, this box); on a miss it is untouched |
| BoxIntersect.HitNormalOpposesRay | src/SceneObjects/Box.cpp:44-58 | the returned normal never points along the ray |
| BoxIntersect.InsideOriginHasNegativeNear | src/SceneObjects/Box.cpp:41-42 | from an origin strictly inside the box the reported t is negative: only tfar is checked against RAY_EPSILON |
| BoxIntersect.EntryBehindInsideOrigin | src/SceneObjects/Box.cpp:25-30 | on a non-parallel axis, an origin strictly inside the slab sees one of its two slab crossings behind it |
| MediumStack.MediumStep | src/RayTracer.cpp:289-308 | from an empty stack: n_i = 1, n_t is the hit's index, and the hit is pushed. With another object on top: n_i is the top's index, n_t the hit's, and the hit is pushed. With the hit on top: n_i is the hit's index; n_t is 1 when it was the only entry, else the hit's own index read before the pop; the top is popped |
| MediumStack.EnterFromVacuum | src/RayTracer.cpp:292-296 | the first refraction enters from index 1 and pushes the hit object |
| MediumStack.EnterThenLeave | src/RayTracer.cpp:292-308 | entering and then leaving the same object restores the stack, and the exit's n_i is the entry's n_t. The exit's n_t equals the entry's n_i only from an empty stack (both 1); from a non-empty stack the entry reads n_i from the enclosing object but the exit reads n_t from the object itself |
| MediumStack.NestedExitRatioIsOne | src/RayTracer.cpp:302-306 | leaving a nested object reads n_t from the top before the pop, giving n_i = n_t and a Snell ratio of 1 |
| MediumStack.DeeperHitIsEntry | src/RayTracer.cpp:297-301 | a hit on an object deeper in the stack counts as an entry and pushes it a second time |
| MediumStack.RatioOneHasNoTotalInternalReflection | src/RayTracer.cpp:311-317 | a Snell ratio of 1 never gives a negative discriminant |
| MediumStack.DenserMediumHasNoTotalInternalReflection | src/RayTracer.cpp:311-317 | a ratio n_r <= 1 with a cosine in [-1, 1] never gives a negative discriminant |
| Tracer.DefaultRayData | src/RayTracer.h:19-30 | a default `RayData` has no scene, ray or hit, weight 0, depth -1 and an empty stack |
| Tracer.RayColor | src/RayTracer.cpp:119-153 | the recursive colour of a ray reads the `rand()` stream forward only: the position after it is never before the one it started at |
| Tracer.HitColor | src/RayTracer.cpp:143-152 | direct light, reflection and refraction read the stream in that order, each where the previous stopped, and never move it backward |
| Tracer.ConeSample | src/RayTracer.cpp:243-265 | one glossy cone sample reads two draws for its jitter before tracing its child ray |
| Tracer.ConeSamples | src/RayTracer.cpp:239-266 | the cone samples read the stream forward, each where the previous stopped |
| Tracer.SecondaryColor | src/RayTracer.cpp:218-270 | a single secondary ray or the mean of the cone samples, never moving the stream backward |
| Tracer.NewRayData | src/RayTracer.h:32-34 | the five-argument constructor copies its arguments and starts with an empty medium stack |
| Tracer.ChildRayData | src/RayTracer.cpp:221-228 | a secondary ray's record keeps the scene and has no hit. Its depth is one less and it takes the given weight and stack |
| Tracer.OrientNormal | src/RayTracer.cpp:139-141 | the normal is negated exactly when the hit object is on top of the medium stack |
| Tracer.Mirror | src/RayTracer.cpp:214 | the reflected direction before normalisation: for a unit normal its normal component is the negated incoming one and its tangential part is the incoming one |
| Tracer.LightSourceColor | src/RayTracer.cpp:156-193 | hard shading reads no draws; soft shadows read exactly 2 draws for each of the 5 samples |
| Tracer.ReflectionColor | src/RayTracer.cpp:196-208 | with no depth left or kr = 0 the reflection is black and reads no draws |
| Tracer.RefractionColor | src/RayTracer.cpp:274-287 | with no depth left or kt = 0 the refraction is black and reads no draws |
| Tracer.PrimaryColor | src/RayTracer.cpp:94-102 | the colour of a primary ray lies in [0, 1]^3 |
| Tracer.TraceRay | src/RayTracer.cpp:119-153 | `traceRay(RayData*)` computes the recursive colour of its record: prune, miss, orient the normal, then the sum of the three contributions |
| Tracer.TraceNewRay | src/RayTracer.cpp:107-115 | the four-argument overload traces a fresh record with an empty medium stack |
| Tracer.Trace | src/RayTracer.cpp:94-102 | `trace` computes the clamped colour of the camera ray at full weight and the configured depth |
| Tracer.SumSoftShadowSamples | src/RayTracer.cpp:168-188 | the soft-shadow loop sums its 5 samples, reading draws pos .. pos + 9 two per sample |
| Tracer.ShadeSoftSample | src/RayTracer.cpp:173-187 | the body of the soft-shadow loop computes one soft-shadow sample from draws q and q + 1 |
| Tracer.TraceLightSource | src/RayTracer.cpp:156-193 | `traceLightSource` computes the weighted Phong colour, or the weighted mean of the soft-shadow samples |
| Tracer.TraceCone | src/RayTracer.cpp:238-266 | the 5-sample glossy loop sums the child rays along the jittered directions, each reading the stream where the previous stopped |
| Tracer.TraceConeSample | src/RayTracer.cpp:243-265 | the body of the glossy loop traces one cone sample from draws q and q + 1 |
| Tracer.TraceSecondary | src/RayTracer.cpp:218-270 | one child ray from just off the surface, or the mean of 5 cone samples when distributed |
| Tracer.TraceReflection | src/RayTracer.cpp:196-271 | `traceReflection` computes the reflection colour of its record |
| Tracer.TraceRefraction | src/RayTracer.cpp:274-378 | `traceRefraction` computes the refraction colour of its record, with the medium stack step and the total-internal-reflection cut-off |
| TracerProperties.PrunedOrMissedIsBlack | src/RayTracer.cpp:125-134 | a pruned ray and a ray that hits nothing are black and read no draws |
| TracerProperties.HighThresholdIsBlack | src/RayTracer.cpp:99-101 | a threshold of 1 or more makes every primary ray black |
| TracerProperties.ShallowRayIsDirectOnly | src/RayTracer.cpp:199 | with no depth left a ray is its direct lighting only |
| TracerProperties.TotalInternalReflectionIsBlack | src/RayTracer.cpp:317 | a negative discriminant makes the refraction black |
| TracerProperties.EnteringDenserMediumRefracts | src/RayTracer.cpp:292-317 | a primary ray's first refraction into an index >= 1 never hits the total-internal-reflection cut-off |
| TracerProperties.RayColorDrawFree | src/RayTracer.cpp:119-153 | with every distributed effect off the colour reads no draws and is the same for every stream |
| TracerProperties.DeterministicWithoutDistribution | src/RayTracer.cpp:94-102 | with every distributed effect off a primary colour is independent of `rand()` |
| TracerProperties.HitDrawFree | src/RayTracer.cpp:143-152 | with every distributed effect off a hit colour reads no draws and is the same for every stream |
| TracerProperties.ReflectionDrawFree | src/RayTracer.cpp:196-271 | with every distributed effect off a reflection reads no draws and is the same for every stream |
| TracerProperties.RefractionDrawFree | src/RayTracer.cpp:274-378 | with every distributed effect off a refraction reads no draws and is the same for every stream |
| TracerProperties.PrunedConeIsBlack | src/RayTracer.cpp:239-266 | cone samples with a pruned weight sum to black |
| TracerProperties.PrunedSecondaryIsBlack | src/RayTracer.cpp:226-269 | a secondary ray with a pruned weight is black, single or distributed |
| TracerProperties.PrunedReflectionIsBlack | src/RayTracer.cpp:226 | a reflection whose child weight w (.) kr is pruned is black |
| TracerProperties.PrunedRefractionIsBlack | src/RayTracer.cpp:332 | a refraction whose child weight w (.) kt is pruned is black |
| TracerProperties.WeakHitIsDepthIndependent | src/RayTracer.cpp:147-151 | at a hit whose kr and kt are at or below the threshold, a full-weight ray's colour does not depend on the depth |
| TracerProperties.WeakCoefficientsGiveDirectLightOnly | src/RayTracer.cpp:119-153 | when every material's kr and kt are at or below the threshold, the image is the same as at depth 0 |
| TracerProperties.PrunedStaysPruned | src/RayTracer.cpp:125-127 | the pruning test is inherited: a child weight w (.) k with k in [0, 1]^3 of a pruned non-negative weight w is pruned too |
| TracerProperties.MirrorInvolution | src/RayTracer.cpp:214 | reflecting the reflected direction about the same unit normal gives the incoming direction back |
| TracerProperties.RefractionObeysSnell | src/RayTracer.cpp:320-321 | for a unit normal the refracted direction has normal component -sqrt(root) and tangential part n_r times the incoming tangential part (Snell's law) |
| TracerProperties.UnitRatioKeepsDirection | src/RayTracer.cpp:311-321 | at a Snell ratio of 1, with sqrt exact on c^2, the refracted direction is the incoming direction |
| SuperSampling.Slot | src/RayTracer.cpp:551 | slot y n + x of an n x n table is below n^2 |
| SuperSampling.RowStartValue | src/RayTracer.cpp:551 | the row start counted up row by row equals y n |
| SuperSampling.SlotsDistinct | src/RayTracer.cpp:549-554 | different cells of an n x n table have different slots |
| SuperSampling.GetSampleGrid | src/RayTracer.cpp:537-557 | the grid generator writes each slot y n + x with grid point (x, y), or slot 0 with (0, 0) for n = 1, and no slot beyond n^2 |
| SuperSampling.GetSampleRandom | src/RayTracer.cpp:560-587 | the random generator writes slot k with the sample of the k-th draw and reads n^2 draws (none for n = 1) |
| SuperSampling.GetSampleJittered | src/RayTracer.cpp:590-617 | the jittered generator writes slot y n + x with the grid point moved by the draw read at x n + y, and reads n^2 draws |
| SuperSampling.FillGridColumns | src/RayTracer.cpp:549-554 | the grid loops write every slot of the n x n table with its grid point and keep the slots beyond n^2 |
| SuperSampling.FillGridColumn | src/RayTracer.cpp:550-553 | one pass of the inner grid loop writes one column of grid points and keeps every other column |
| SuperSampling.FillRandomColumns | src/RayTracer.cpp:572-584 | the random loops write slot k with the sample of draw pos + k and read exactly n^2 draws |
| SuperSampling.FillRandomColumn | src/RayTracer.cpp:574-583 | one pass of the inner random loop fills n consecutive slots from n consecutive draws and keeps every other slot |
| SuperSampling.FillJitteredColumns | src/RayTracer.cpp:602-614 | the jittered loops write every slot with its jittered grid point and read exactly n^2 draws |
| SuperSampling.FillJitteredColumn | src/RayTracer.cpp:603-613 | one pass of the inner jittered loop fills one column from n consecutive draws and keeps every other column |
| SuperSampling.SingleSampleIsCentre | src/RayTracer.cpp:539-541 | with n = 1 every generator gives the pixel centre |
| SuperSampling.GridSpansRegion | src/RayTracer.cpp:544-552 | for n >= 2 the grid runs from (-w, -h) to (w, h) in steps 2w/(n-1), 2h/(n-1) |
| SuperSampling.GridIsCentred | src/RayTracer.cpp:551-552 | the grid is symmetric about the pixel centre: cell (n - 1 - x, n - 1 - y) is cell (x, y) negated |
| SuperSampling.RandomSampleOnDiagonal | src/RayTracer.cpp:579-580 | a random sample uses the same draw on both axes, so it lies on the region's diagonal |
| SuperSampling.RandomSampleInRegion | src/RayTracer.cpp:576-580 | every random sample lies inside the region |
| SuperSampling.JitterIsCommonFraction | src/RayTracer.cpp:608-611 | a jittered sample is its grid point moved by the same fraction of a cell on both axes |
| SuperSampling.AdaptiveSample | src/RayTracer.cpp:620-686 | an adaptive step traces at least 9 and at most T(depth) primary rays, with T(d) = 9 + 5 T(d - 1) and T(0) = 9 |
| SuperSampling.FlatGridIsNotSteep | src/RayTracer.cpp:649-653 | equal colours at slots 1 and 7 and at slots 3 and 5 never pass the gradient test |
| SuperSampling.UniformGridGivesItsColour | src/RayTracer.cpp:641-683 | nine equal samples give exactly their colour, with 9 traces and no subdivision, at any depth |
| SuperSampling.Subdivided | src/RayTracer.cpp:655-679 | a subdivision traces between 45 and 5 T(depth - 1) primary rays |
| SuperSampling.TraceAdaptiveGrid | src/RayTracer.cpp:628-638 | the nine-sample loop stores the 3 x 3 grid's colours in slot order and sums them |
| SuperSampling.AdaptiveGrid | src/RayTracer.cpp:631-638 | the first k samples of the 3 x 3 grid give k colours and never move the stream backward |
| SuperSampling.TraceAdaptivePoint | src/RayTracer.cpp:634-636 | one pass of the nine-sample loop stores the next grid colour in its slot and adds it to the running sum |
| SuperSampling.AdaptiveGridInUnitCube | src/RayTracer.cpp:634 | every colour of the 3 x 3 grid lies in [0, 1]^3 |
| SuperSampling.SubdividedInUnitCube | src/RayTracer.cpp:655-679 | the mean of the five half-size steps lies in [0, 1]^3 |
| SuperSampling.SuperSampleAdaptive | src/RayTracer.cpp:620-686 | the adaptive procedure computes the adaptive colour and stream position |
| SuperSampling.TraceSubdivided | src/RayTracer.cpp:655-679 | the recursive branch computes the mean of the five half-size steps |
| SuperSampling.GetSampleDisplacement | src/RayTracer.cpp:515 | the dispatch table fills slot i n + j with the offset of the chosen generator and reads its draws |
| SuperSampling.PixelColorTabulated | src/RayTracer.cpp:506-526 | a tabulated method's colour is the sum of the n x n samples divided by n^2 |
| SuperSampling.SamplePixel | src/RayTracer.cpp:476-526 | the colour computation of `tracePixel` yields the pixel colour for the chosen method |
| SuperSampling.SampleTabulated | src/RayTracer.cpp:506-526 | fill the table, trace the n x n samples in slot order, divide by n^2 |
| SuperSampling.TraceSampleRows | src/RayTracer.cpp:517-524 | the two nested loops sum the samples in slot order |
| SuperSampling.RowSum | src/RayTracer.cpp:519-523 | the sum over the first k samples of row i never moves the stream backward |
| SuperSampling.RowsSum | src/RayTracer.cpp:518-524 | the sum over the first k rows never moves the stream backward |
| SuperSampling.PixelColor | src/RayTracer.cpp:476-526 | the colour of a pixel for the chosen method never moves the stream backward |
| SuperSampling.TabulatedSum | src/RayTracer.cpp:506-525 | the tabulated sum never moves the stream backward |
| SuperSampling.TraceSample | src/RayTracer.cpp:520-522 | the body of the inner sum loop adds sample j of row i |
| SuperSampling.TraceSampleRow | src/RayTracer.cpp:519-523 | the inner sum loop adds the n samples of row i and advances the slot index by n |
| SuperSampling.TraceRowAt | src/RayTracer.cpp:518-524 | one pass of the outer sum loop adds row i to the running sum |
| SuperSampling.TabulatedInUnitCube | src/RayTracer.cpp:525 | a tabulated pixel colour, the sum divided by n^2, lies in [0, 1]^3 |
| SuperSampling.AdaptiveInUnitCube | src/RayTracer.cpp:641-684 | the adaptive colour lies in [0, 1]^3 at every depth |
| SuperSampling.TraceBoundClosedForm | src/RayTracer.cpp:631-677 | the trace bound is T(d) = 9 (5^(d+1) - 1) / 4 |
| SuperSampling.PixelColorInUnitCube | src/RayTracer.cpp:476-526 | every pixel colour lies in [0, 1]^3, whichever method is chosen |
| SuperSampling.TabulatedSumWithin | src/RayTracer.cpp:518-524 | each channel of the sum of n^2 clamped samples lies in [0, n^2] |
| SuperSampling.SingleSampleIsPrimaryRay | src/RayTracer.cpp:506-526 | with n = 1 the grid, random and jittered methods give exactly the primary ray's colour |
| Render.Trunc | src/RayTracer.cpp:530 | the C conversion to `int` truncates toward zero: \|v\| <= \|r\| < \|v\| + 1 with the sign of r |
| Render.ToByteOfUnit | src/RayTracer.cpp:529-532 | a channel c in [0, 1] is stored as floor(255 c), in 0..255; 1 gives 255 and 0 gives 0 |
| Render.PixelBaseValue | src/RayTracer.cpp:529 | pixel (i, j) starts at byte (i + j w) 3 |
| Render.PixelInImage | src/RayTracer.cpp:529 | the three bytes of a pixel of a w x h image lie inside the w h 3 bytes of the buffer |
| Render.PixelsDisjoint | src/RayTracer.cpp:529 | two different pixels own disjoint byte triples |
| Render.PaintPixel | src/RayTracer.cpp:529-532 | storing a pixel sets its three bytes to the converted channels and keeps every other byte |
| Render.PixelRegion | src/RayTracer.cpp:497-499 | the region is half a pixel on each axis: 2 r.x w = 1 and 2 r.y h = 1 |
| Render.PixelTraced | src/RayTracer.cpp:477-526 | the colour traced for a pixel lies in [0, 1]^3 |
| Render.PixelStep | src/RayTracer.cpp:473-533 | tracing a pixel changes no byte outside its own three |
| Render.PaintRow | src/RayTracer.cpp:465-467 | tracing pixels lo .. n - 1 of a row keeps the buffer at w h 3 bytes and never moves the stream backward |
| Render.PaintRows | src/RayTracer.cpp:464-468 | tracing rows start .. stop - 1 keeps the buffer at w h 3 bytes and never moves the stream backward |
| Render.PaintRowFrame | src/RayTracer.cpp:465-467 | tracing part of a row changes no byte outside that part |
| Render.PaintRowSplit | src/RayTracer.cpp:465-467 | tracing a row in two stretches is tracing it in one |
| Render.PaintRowsFrame | src/RayTracer.cpp:464-468 | tracing rows start .. stop - 1 changes no byte outside those rows |
| Render.PaintRowsSplit | src/RayTracer.cpp:464-468 | tracing a band of rows in two bands is tracing it in one |
| Render.RowKeepsPixel | src/RayTracer.cpp:465-467 | the rest of a row never overwrites a pixel already stored |
| Render.RowsKeepRow | src/RayTracer.cpp:464-468 | later rows never overwrite a row already traced |
| Render.PaintedPixel | src/RayTracer.cpp:458-470 | after `traceLines`, every pixel of the traced rows holds floor(255 c) of the colour it was traced with |
| Render.LoadedHeightRounds | src/RayTracer.cpp:427-428 | for a positive aspect ratio the loaded height is 256 / aspect rounded to the nearest integer |
| Render.RayTracer.constructor | src/RayTracer.cpp:381-387 | a new tracer is 256 x 256, with no buffer and no scene |
| Render.RayTracer.LoadScene | src/RayTracer.cpp:413-441 | a parse error keeps the state and no scene clears it. A parsed scene gives width 256, height (int)(256 / aspect + 0.5), size w h 3 and a fresh buffer of that size |
| Render.RayTracer.TraceSetup | src/RayTracer.cpp:444-455 | the buffer is reallocated to w h 3 bytes only when the dimensions change; all of it is cleared either way |
| Render.RayTracer.TracePixel | src/RayTracer.cpp:473-533 | with no scene nothing changes. Otherwise pixel (i, j) is traced at (i / w, j / h) and exactly its three bytes are set |
| Render.RayTracer.TraceRow | src/RayTracer.cpp:465-467 | the inner loop traces the pixels of one row left to right |
| Render.RayTracer.TraceLines | src/RayTracer.cpp:458-470 | with no scene nothing changes. Otherwise `stop` is clamped to the height and rows start .. stop - 1 are traced top to bottom |

## Left out

- File input and parsing are not part of this model: `readScene`, the parse-error message and `initScene`. `LoadScene` takes the parse outcome and the camera's aspect ratio as parameters.
- Memory management is not modelled: the destructor, the leak of the old buffer on a second `loadScene`, and the accessors `getBuffer`, `aspectRatio` and `sceneLoaded`.
- The bytes of a freshly allocated buffer are indeterminate in the source. `LoadScene` therefore says nothing about them.
- The interface (`TraceUI`) is left out: its widgets, callbacks and the render loop with its clock and cancel flag. Its getters are the fields of `Config`.
- Floating point is modelled as exact real arithmetic. `sqrt`, `length`, `normalize`, `cross` and `pow` are uninterpreted. So the geometric correctness of the soft-shadow disk, the glossy cones and the refracted direction is not proved. The refracted direction is left unnormalised, as in the source.
- `Scene::intersect`, `Camera::rayThrough` and `isect::getMaterial` are not shown, so they are fields of `Scene`.
- A shadow ray's successive intersection queries are a finite list of hits (`shadowHits`). This makes the shadow loops terminate.
- `rand()` is an explicit stream of draws, with a position threaded through every call.
- The `super_sampling_method` table is indexed by an enum declared in a header that is not part of this model. The model assumes that grid, random and jittered are the three entries, in the listed order.
- Refractive indices are positive reals (`Index`). The source accepts any `double`: an index of 0 makes n_i / n_t infinite and a negative one flips the ratio's sign. The model does not capture either.
- The material of a hit and the material of the object on top of the medium stack are one function, `Scene.material`, of the object. The source reads the first through the intersection (`i.getMaterial()`) and the second from the object (`object_stack.top()->getMaterial()`); a hit that carries its own material could differ. `MediumStack.NestedExitRatioIsOne` depends on this identification.
- `RAY_EPSILON` is defined in a header that is not part of this model. The value 0.00001 is assumed.
- Integer widths are unbounded: `w * h * 3`, slot indices and the `rand()` values do not overflow. The `(int)` conversion of a channel is exact only for colours in [0, 1], which the model proves are the only ones stored.
- `TracerData` and `Linker_tracer` are glue that hands the adaptive sampler its tracer. The model calls `PrimaryColor` directly.
- The outer loops of the three generators and of the supersampling sum are separate methods (`Fill*Columns`, `TraceRowAt`). They are the same loops, split so each proof stays small.
- SuperSampling.SamplingReady: the source writes a 25-slot table without checking n. The model requires 1 <= n <= 5 for the grid, random and jittered methods. A larger n overruns the table; n <= 0 divides by n^2 = 0 before the byte conversion.
- Render.RayTracer.TracePixel: requires the pixel to lie inside the image. The source only needs its three bytes inside the buffer, which also admits an i past the end of a row.
- Render.RayTracer.TraceSetup: requires non-negative dimensions, and an existing buffer when the dimensions do not change (the source would `memset` through a null pointer).
- Render.RayTracer.LoadScene: requires a non-zero aspect ratio whose rounded height is not negative, since `new` of a negative size fails.
- Render.RayTracer.TraceLines: requires a non-negative `start` when there are rows to trace; a negative row would write before the buffer.
- `traceSetup` clears the buffer on every call, not only when the dimensions change; the model follows the code.
- The medium-stack behaviour is reproduced as written: a nested exit uses a Snell ratio of 1, so the ray goes straight on (`TracerProperties.UnitRatioKeepsDirection`), and a hit on a deeper object counts as an entry. `MediumStack` states both as lemmas.
