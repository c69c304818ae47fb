# percepteros annotators — a verified Dafny model

This project models three RoboSherlock annotators from the `percepteros`
package, together with the properties their code promises.

- **KnifeAnnotator** estimates a pose for a knife. It selects the first
  `HueClustering` cluster whose hue lies strictly inside the configured band.
  It gathers that cluster's points into the member cloud `blade` and
  downsamples them. It then builds a frame:
  - the primary axis runs from the `highest` to the `lowest` endpoint of the
    blade's diameter, found by an exhaustive pair search;
  - the secondary axis is the mean of the valid surface normals, with y and z
    negated;
  - the frame is corrected with two cross products.
- **SpatulaRecognition** computes one feature set and one centroid per scene
  cluster. It compares feature sets with tolerance bands (`hasSimilarFS`). It
  also defines a diameter helper (`maxDist`), but nothing calls it: its only
  call site, in `computeFeatures`, is commented out.
- **SzeneRecorder** alternates between two phases. One call stores the
  "before" scene; the next stores the "after" scene, thresholds the absolute
  depth difference in place, and adds a `ChangeDetection` cluster when the
  change detector reports new points.

Modules:

- `Geometry` holds vectors over `real`, dot and cross products, and the
  orthogonality of the corrected frame.
- `Scene` holds coloured points, clusters as index lists, and `Gather`.
- `Diameter` holds the nested first-farthest-pair loop of `setEndpoints`,
  proved against the predicate `IsFirstFarthest`. The unused `maxDist`
  helper is the same loop.
- `Knife`, `Spatula` and `Szene` hold one class per annotator. Each class
  keeps the member state that its C++ methods update.

Library code whose source is not part of this model is passed in as a
function parameter:

- PCL `VoxelGrid` is `voxelFilter`;
- PCA plus the RGB→HSV conversion is `computeFeatures`;
- `compute3DCentroid` is `centroid`;
- the octree change detector is `detectChange`.

`ros::Time::now()` becomes the parameter `now`.

## Model

| member | source | states |
|---|---|---|
| Diameter.FarthestPair | percepteros/src/KnifeAnnotator.cpp:164-174 | The nested loop with a strict `>` update picks a pair that no pair exceeds and that every earlier pair in loop order falls short of. If the update never fires, no two points are apart. The same loop is `maxDist` at percepteros/src/SpatulaRecognition.cpp:266-276. |
| Diameter.ScanRow | percepteros/src/KnifeAnnotator.cpp:166-173 | After the inner loop over row i, the best distance bounds every pair visited so far. If an update fired, the kept pair is the first visited pair attaining that distance. |
| Diameter.FirstFarthestUnique | percepteros/src/KnifeAnnotator.cpp:164-174 | The first farthest pair is unique, so the search is deterministic. |
| Geometry.CorrectedFrameOrthogonal | percepteros/src/KnifeAnnotator.cpp:119-120 | With z = x × y and y' = z × x: z ⟂ x, z ⟂ y, y' ⟂ x and y' ⟂ z. |
| Geometry.ZeroPrimaryDegenerates | percepteros/src/KnifeAnnotator.cpp:119-120 | If x is zero (a blade without spread), z and y' are both the zero vector whatever y is. |
| Geometry.ParallelFrameDegenerates | percepteros/src/KnifeAnnotator.cpp:119-120 | If y is zero or parallel to x, then z and y' are both the zero vector. The code never checks for this. |
| Knife.ConcatenateFields | percepteros/src/KnifeAnnotator.cpp:82 | When the position and normal clouds have the same size, point k of the member cloud has position k and normal k (with its validity). Otherwise the member cloud keeps its previous contents. |
| Knife.ValidNormals | percepteros/src/KnifeAnnotator.cpp:203 | A point is kept exactly when it is in the blade and its normal is valid, and the result is never longer than the input. |
| Knife.ValidNormalsCounts | percepteros/src/KnifeAnnotator.cpp:203-204 | Every copy of a point with a valid normal is kept and no copy of any other point, so `size` is the number of valid normals. |
| Knife.LabelledEndpointsDeterministic | percepteros/src/KnifeAnnotator.cpp:186-197 | Two runs of `setEndpoints` on the same blade label the same `highest` and `lowest`. So `getX` and `getOrigin` see the same pair. |
| Knife.DefaultsWithoutSpread | percepteros/src/KnifeAnnotator.cpp:159-174 | If no two blade points are apart, both endpoints are default-constructed points. |
| Knife.HighestHasSmallerSum | percepteros/src/KnifeAnnotator.cpp:176-182 | The coordinate sum x+y+z of `highest` is never larger than that of `lowest`. |
| Knife.LabelledTie | percepteros/src/KnifeAnnotator.cpp:176-182 | On a coordinate-sum tie, `highest` is `endpoints[1]`. In every case the two labels are the two endpoints. |
| Knife.CoincidentBladeKeepsDefaults | percepteros/src/KnifeAnnotator.cpp:159-174 | A blade of fewer than two points, or of coincident points, leaves both endpoints default-constructed. |
| Knife.UniformNormalsAxis | percepteros/src/KnifeAnnotator.cpp:199-213 | If every valid normal equals n, the secondary axis is (n.x, −n.y, −n.z). |
| Knife.FlippedMeanStep | percepteros/src/KnifeAnnotator.cpp:206-210 | Adding n/size to x and subtracting n/size from y and z updates the flipped mean of the normals summed so far by the next normal. |
| Knife.KnifeAnnotator.constructor | percepteros/src/KnifeAnnotator.cpp:38-60 | The hue band comes from minHue and maxHue. The clouds start empty and the endpoints start default. |
| Knife.KnifeAnnotator.SetEndpoints | percepteros/src/KnifeAnnotator.cpp:158-184 | `highest` and `lowest` become the labelled first farthest pair, or default points when no pair is apart. `highest` has the smaller coordinate sum. |
| Knife.KnifeAnnotator.GetX | percepteros/src/KnifeAnnotator.cpp:186-190 | Re-runs the endpoint search. The returned vector, also stored in member `x`, is `lowest − highest`. |
| Knife.KnifeAnnotator.GetOrigin | percepteros/src/KnifeAnnotator.cpp:192-197 | Re-runs the endpoint search and returns the position of `highest`. |
| Knife.KnifeAnnotator.GetY | percepteros/src/KnifeAnnotator.cpp:199-213 | Returns the mean of the valid normals with y and z negated. Returns the zero vector when no normal is valid. |
| Knife.KnifeAnnotator.AppendClusterPoints | percepteros/src/KnifeAnnotator.cpp:220-222 | Appends `cloud[indices[k]]` to `blade` in index order. The old blade stays as a prefix and is never cleared. |
| Knife.KnifeAnnotator.ExtractPoints | percepteros/src/KnifeAnnotator.cpp:215-228 | `blade` becomes the voxel filter applied to the old blade followed by the gathered cluster points. |
| Knife.KnifeAnnotator.Annotate | percepteros/src/KnifeAnnotator.cpp:104-134 | After gathering, the pose is fixed: origin `highest`, x = `lowest − highest`, z = x × (mean normal), y = z × x. The recognised object is "Knife", type 6, 0.28 × 0.056 × 0.03. |
| Knife.KnifeAnnotator.ProcessWithLock | percepteros/src/KnifeAnnotator.cpp:78-155 | The member cloud is the positions merged with the normals. A pose is produced exactly when some cluster passes the strict hue gate, and it is for the first such cluster, so at most one cluster gets one. Without a knife cluster, blade, endpoints and axes are unchanged. |
| Spatula.HasSimilarFS | percepteros/src/SpatulaRecognition.cpp:322-345 | True exactly when each eigenvalue lies in the closed band ref ± 0.1·ref and each of h, s, v lies in the closed band ref ± range·ref. |
| Spatula.SimilarityIgnoresEigenvectors | percepteros/src/SpatulaRecognition.cpp:326-344 | Replacing the eigenvectors of either feature set never changes the verdict. |
| Spatula.EigenBandIgnoresRange | percepteros/src/SpatulaRecognition.cpp:328-333 | An eigenvalue out of its 10 % band rejects the pair whatever `range` is. |
| Spatula.SimilarReflexive | percepteros/src/SpatulaRecognition.cpp:328-337 | A feature set with nonnegative eigenvalues and colour is similar to itself for every nonnegative range. |
| Spatula.NegativeEigenvalueNeverSimilar | percepteros/src/SpatulaRecognition.cpp:328-333 | If any of the three reference eigenvalues is negative, its band is empty, so nothing matches, not even the feature set itself. |
| Spatula.SimilarityBoundaries | percepteros/src/SpatulaRecognition.cpp:332-333 | The band is inclusive (1.1 against 1.0 passes, 1.11 fails). The comparison is not symmetric. |
| Spatula.MaxDist | percepteros/src/SpatulaRecognition.cpp:260-279 | Returns 0 for fewer than two points. The result is nonnegative, bounds every pairwise distance, and is attained by some pair unless it is 0. The helper is defined but never called (its call at line 316 is commented out). |
| Spatula.GatherPoints | percepteros/src/SpatulaRecognition.cpp:169-175 | `temp[k] == cloud[indices[k]]` for every k, and there is nothing else in `temp`. |
| Spatula.SpatulaRecognition.constructor | percepteros/src/SpatulaRecognition.cpp:66-127 | The reference feature set, `range` and `vector_length` are the configured ones. The per-scene vectors start empty. |
| Spatula.SpatulaRecognition.ProcessWithLock | percepteros/src/SpatulaRecognition.cpp:145-206 | `obj_feats` and `obj_position` each hold exactly one entry per cluster, computed from that cluster's gathered points. Their sizes always match, so the mismatch branch is unreachable. |
| Szene.AbsDiff | percepteros/src/SzeneRecorder.cpp:146 | Each difference pixel is the gap between the two input pixels, in either direction. |
| Szene.AbsDiffSymmetric | percepteros/src/SzeneRecorder.cpp:146 | The difference image does not depend on the order of the two images. |
| Szene.ThresholdChanges | percepteros/src/SzeneRecorder.cpp:151-185 | Pixels whose original value is above 20 become 65535, all others are unchanged. `min` and `max` are the minimum and maximum of the original values, or 65535 and 0 for an empty image. |
| Szene.SzeneRecorder.constructor | percepteros/src/SzeneRecorder.cpp:46-92 | The recorder starts in phase 0, with nothing queued and nothing stored. |
| Szene.SzeneRecorder.ProcessWithLock | percepteros/src/SzeneRecorder.cpp:100-210 | `runCount` stays in {0, 1} and flips on every call. Phase 0 stores only the "before" scene. Phase 1 stores the "after" scene, thresholds the depth difference, and touches `clusterIndices` and the cluster list only when the change set is non-empty. In that case exactly one `ChangeDetection` cluster with those indices is appended. |
| Szene.SzeneRecorder.BeforeActionCallback | percepteros/src/SzeneRecorder.cpp:253-258 | Sets `queueSaveImage` and the "before" time and returns true. Its frame keeps `runCount` and the stored scenes untouched. |
| Szene.SzeneRecorder.PerceiveActionEffectCallback | percepteros/src/SzeneRecorder.cpp:260-265 | Sets `queueSaveImage` and the "after" time and returns true. Its frame keeps `runCount` and the stored scenes untouched. |

## Left out

- Knife.PointDistance: compares squared Euclidean distances instead of `pcl::geometry::distance`. The square root is monotone, so the strict-`>` updates fire on exactly the same pairs.
- Spatula.MaxDist: returns the squared diameter, not the diameter.
- Knife.KnifeAnnotator.Annotate: states the pose axes before `normalize()`. Unit length needs a square root, so only orthogonality is stated (via `Geometry.CorrectedFrameOrthogonal`).
- Knife.KnifeAnnotator.ProcessWithLock: requires that the first annotation of every `HueClustering` cluster the loop reaches exists. The C++ code reads `objects[0]` before it checks `objects.size()`, which is undefined behaviour on an empty list.
- Knife.KnifeAnnotator.ProcessWithLock: does not model the `camToWorld` composition, the `tf::Stamped` poses, or the writes into CAS annotations. The pose is returned as a value instead.
- Spatula.HasSimilarFS: works over `real`, with 0.1 exact. The C++ code uses single-precision `float`.
- Szene.SzeneRecorder.ProcessWithLock: flattens each depth image to one row. A size mismatch in `cv::absdiff` is detected by pixel count only, not by rows and columns.
- Library code whose source is not part of this model appears as function parameters, with no properties assumed: VoxelGrid, PCA and HSV conversion, the centroids, and the octree change detector.
- Two library behaviours are assumed rather than modelled from source:
  - `pcl::concatenateFields` refuses clouds of different sizes and leaves its output cloud as it was (`Knife.ConcatenateFields`);
  - `cv::absdiff` throws on images of different sizes, which ends `processWithLock` (`raised` in `Szene.SzeneRecorder.ProcessWithLock`).
- `removeNaNNormalsFromPointCloud` is modelled as a filter on a validity flag. NaN positions are not modelled.
- Floating-point rounding, NaN and overflow in the float arithmetic are not modelled; everything is over `real`.
- Not modelled:
  - `initialize` parameter parsing beyond the constructor arguments;
  - `destroy`;
  - ROS service registration;
  - logging and `printf`;
  - `fillVisualizerWithLock` and `drawImageWithLock`, which are rendering only. This includes the spatula check that visualisation runs with `hasSimilarFS`.
- percepteros/src/ObjectRegionFilter.cpp is not part of this model. It only parses YAML through library calls and has an empty process step.

## Behaviour worth knowing

These notes describe what the code does; the model follows it in each case.

- **Endpoint labels.** `setEndpoints` gives `highest` the endpoint with the smaller coordinate sum x+y+z, and on a tie the second endpoint (percepteros/src/KnifeAnnotator.cpp:176-182; `Knife.HighestHasSmallerSum`, `Knife.LabelledTie`). The origin and the direction of the primary axis follow from that label.
- **Eigenvalue band.** `hasSimilarFS` bands the eigenvalues with the fixed factor 0.1 (line 328) and uses `range` only for h, s and v (`Spatula.EigenBandIgnoresRange`).
- **Degenerate geometry.** The code builds a pose whatever the blade looks like:
  - a blade of one point, or of coincident points, keeps default endpoints, so its primary axis is zero (`Knife.CoincidentBladeKeepsDefaults`), and then both corrected axes are zero (`Geometry.ZeroPrimaryDegenerates`);
  - a zero or parallel secondary axis also makes both corrected axes zero (`Geometry.ParallelFrameDegenerates`);
  - in all these cases `Knife.KnifeAnnotator.ProcessWithLock` still returns a detection.
- **Blade accumulation.** `extractPoints` never clears `blade`, so points gathered in earlier frames remain in it (`Knife.KnifeAnnotator.AppendClusterPoints`).
- **Capture triggers.** The `before_action` and `perceive_action_effect` services only set `queueSaveImage` and a time stamp. The code that read `queueSaveImage` is commented out (percepteros/src/SzeneRecorder.cpp:114-133), so `runCount` flips on every `processWithLock` call whatever the signals (`Szene.SzeneRecorder.ProcessWithLock`, `Szene.SzeneRecorder.BeforeActionCallback`).
