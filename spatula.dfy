/** The spatula recogniser: one feature set and one centroid per scene
    cluster, a tolerance-band comparison of feature sets, and the diameter
    helper maxDist, which the recogniser defines but never calls. */
module Spatula {
  import opened Geometry
  import opened Scene
  import opened Diameter

  /** An Eigen::Matrix3f, by its three columns. */
  datatype Mat3 = Mat3(c0: Vec3, c1: Vec3, c2: Vec3)

  /** The featureSet record: PCA eigenvectors and eigenvalues of the
      cluster's positions, and the HSV of its mean colour. */
  datatype FeatureSet = FeatureSet(eigenVecs: Mat3, eigenVals: Vec3, hMean: real, sMean: real, vMean: real)

  /** The fixed relative tolerance of the eigenvalue comparison. */
  const EigenTolerance: real := 0.1

  /** `value` lies in the closed band [ref - tol·ref, ref + tol·ref]. */
  predicate InBand(ref: real, tol: real, value: real)
  {
    ref - tol * ref <= value <= ref + tol * ref
  }

  /** The eigenvalue bands: each eigenvalue of `comparing` within 10 % of the
      corresponding eigenvalue of `compared`. */
  predicate EigenBands(compared: FeatureSet, comparing: FeatureSet)
  {
    && InBand(compared.eigenVals.x, EigenTolerance, comparing.eigenVals.x)
    && InBand(compared.eigenVals.y, EigenTolerance, comparing.eigenVals.y)
    && InBand(compared.eigenVals.z, EigenTolerance, comparing.eigenVals.z)
  }

  /** The colour bands: each of h, s, v of `comparing` within `range`
      (relative) of `compared`. */
  predicate ColourBands(compared: FeatureSet, comparing: FeatureSet, range: real)
  {
    && InBand(compared.hMean, range, comparing.hMean)
    && InBand(compared.sMean, range, comparing.sMean)
    && InBand(compared.vMean, range, comparing.vMean)
  }

  /** hasSimilarFS: four rejection tests in order (an eigenvalue below its
      band, above its band, a colour below its band, above its band); a
      feature set that survives all four is similar. */
  function HasSimilarFS(compared: FeatureSet, comparing: FeatureSet, range: real): (similar: bool)
    ensures similar <==> EigenBands(compared, comparing) && ColourBands(compared, comparing, range)
  {
    var ev := compared.eigenVals;
    var evRange := Scale(EigenTolerance, ev);
    var evMin := Sub(ev, evRange);
    var evMax := Add(ev, evRange);
    var c := comparing.eigenVals;
    if c.x < evMin.x || c.y < evMin.y || c.z < evMin.z then false
    else if c.x > evMax.x || c.y > evMax.y || c.z > evMax.z then false
    else if compared.hMean - range * compared.hMean > comparing.hMean
         || compared.sMean - range * compared.sMean > comparing.sMean
         || compared.vMean - range * compared.vMean > comparing.vMean then false
    else if compared.hMean + range * compared.hMean < comparing.hMean
         || compared.sMean + range * compared.sMean < comparing.sMean
         || compared.vMean + range * compared.vMean < comparing.vMean then false
    else true
  }

  /** The eigenvectors of neither feature set take part in the comparison. */
  lemma SimilarityIgnoresEigenvectors(compared: FeatureSet, comparing: FeatureSet, range: real, m0: Mat3, m1: Mat3)
    ensures HasSimilarFS(compared, comparing, range)
        == HasSimilarFS(compared.(eigenVecs := m0), comparing.(eigenVecs := m1), range)
  {
  }

  /** `range` only widens or narrows the colour bands: two feature sets whose
      eigenvalues are out of band are dissimilar for every range. */
  lemma EigenBandIgnoresRange(compared: FeatureSet, comparing: FeatureSet, range: real)
    requires !EigenBands(compared, comparing)
    ensures !HasSimilarFS(compared, comparing, range)
  {
  }

  /** A feature set with nonnegative eigenvalues and colour is similar to
      itself for every nonnegative range. */
  lemma SimilarReflexive(f: FeatureSet, range: real)
    requires f.eigenVals.x >= 0.0 && f.eigenVals.y >= 0.0 && f.eigenVals.z >= 0.0
    requires f.hMean >= 0.0 && f.sMean >= 0.0 && f.vMean >= 0.0
    requires range >= 0.0
    ensures HasSimilarFS(f, f, range)
  {
  }

  /** A negative reference eigenvalue (any of the three) has an empty band,
      so a feature set with one is similar to nothing, not even to itself. */
  lemma NegativeEigenvalueNeverSimilar(compared: FeatureSet, comparing: FeatureSet, range: real)
    requires compared.eigenVals.x < 0.0 || compared.eigenVals.y < 0.0 || compared.eigenVals.z < 0.0
    ensures !HasSimilarFS(compared, comparing, range)
  {
  }

  /** The band bounds are inclusive: an eigenvalue exactly 10 % above the
      reference is accepted, one a little further out is not. The band is
      relative to the first argument, so the comparison is not symmetric. */
  lemma SimilarityBoundaries()
    ensures var ref := FeatureSet(Mat3(Zero, Zero, Zero), Vec3(1.0, 1.0, 1.0), 1.0, 1.0, 1.0);
      && HasSimilarFS(ref, ref.(eigenVals := Vec3(1.1, 1.0, 1.0)), 0.0)
      && !HasSimilarFS(ref, ref.(eigenVals := Vec3(1.11, 1.0, 1.0)), 0.0)
    ensures var a := FeatureSet(Mat3(Zero, Zero, Zero), Vec3(1.0, 1.0, 1.0), 1.0, 1.0, 1.0);
      var b := a.(eigenVals := Vec3(0.9, 1.0, 1.0));
      HasSimilarFS(a, b, 0.0) && !HasSimilarFS(b, a, 0.0)
  {
  }

  /** maxDist: the diameter of the cluster (squared), or 0 for fewer than
      two points. Its only call, in computeFeatures, is commented out, so
      no result of the recogniser depends on it. */
  method MaxDist(cluster: seq<Vec3>) returns (d: real)
    ensures |cluster| < 2 ==> d == 0.0
    ensures d >= 0.0
    ensures forall i, j :: 0 <= i < j < |cluster| ==> SqDist(cluster[i], cluster[j]) <= d
    ensures d == 0.0 || exists i, j :: 0 <= i < j < |cluster| && SqDist(cluster[i], cluster[j]) == d
  {
    var found, i0, j0, best := FarthestPair(SqDist, cluster);
    d := best;
  }

  /** The temp cloud of processWithLock: cloud[indices[k]] for each k, in
      index order. */
  method GatherPoints<T>(cloud: seq<T>, indices: seq<int>) returns (temp: seq<T>)
    requires IndicesValid(indices, |cloud|)
    ensures |temp| == |indices|
    ensures forall k :: 0 <= k < |indices| ==> temp[k] == cloud[indices[k]]
  {
    temp := [];
    var k := 0;
    while k < |indices|
      invariant 0 <= k <= |indices|
      invariant |temp| == k
      invariant forall m :: 0 <= m < k ==> temp[m] == cloud[indices[m]]
    {
      temp := temp + [cloud[indices[k]]];
      k := k + 1;
    }
  }

  class SpatulaRecognition {
    var cloud: seq<PointRGBA>
    var clusters: seq<Cluster>
    var objPosition: seq<Vec3>
    var objFeats: seq<FeatureSet>
    var spatulaFeatures: FeatureSet
    var range: real
    var vectorLength: real

    /** The recogniser after initialize, with the reference feature set and
        the two tuning parameters; no scene seen yet. */
    constructor (reference: FeatureSet, range: real, vectorLength: real)
      ensures spatulaFeatures == reference && this.range == range && this.vectorLength == vectorLength
      ensures cloud == [] && clusters == [] && objPosition == [] && objFeats == []
    {
      spatulaFeatures := reference;
      this.range := range;
      this.vectorLength := vectorLength;
      cloud, clusters, objPosition, objFeats := [], [], [], [];
    }

    /** processWithLock: clears the per-scene vectors, then pushes one feature
        set and one centroid per cluster. `computeFeatures` stands for the PCA
        and HSV computation, `centroid` for pcl::compute3DCentroid. The
        result is the size test that guards the mismatch message. */
    method ProcessWithLock(sceneCloud: seq<PointRGBA>, sceneClusters: seq<Cluster>,
                           computeFeatures: seq<PointRGBA> -> FeatureSet, centroid: seq<Vec3> -> Vec3)
      returns (sizesMatch: bool)
      requires forall k :: 0 <= k < |sceneClusters| ==> IndicesValid(sceneClusters[k].indices, |sceneCloud|)
      modifies this`cloud, this`clusters, this`objPosition, this`objFeats
      ensures cloud == sceneCloud && clusters == sceneClusters
      ensures |objFeats| == |clusters| && |objPosition| == |clusters|
      ensures forall k :: 0 <= k < |clusters| ==>
        && objFeats[k] == computeFeatures(Gather(cloud, clusters[k].indices))
        && objPosition[k] == centroid(RgbaPositions(Gather(cloud, clusters[k].indices)))
      ensures sizesMatch
    {
      clusters, objPosition, objFeats := [], [], [];
      cloud := sceneCloud;
      clusters := sceneClusters;
      var k := 0;
      while k < |clusters|
        invariant 0 <= k <= |clusters|
        invariant cloud == sceneCloud && clusters == sceneClusters
        invariant |objFeats| == k && |objPosition| == k
        invariant forall m :: 0 <= m < k ==>
          && objFeats[m] == computeFeatures(Gather(cloud, clusters[m].indices))
          && objPosition[m] == centroid(RgbaPositions(Gather(cloud, clusters[m].indices)))
      {
        var temp := GatherPoints(cloud, clusters[k].indices);
        assert temp == Gather(cloud, clusters[k].indices);
        var objectCloud := RgbaPositions(temp);
        objFeats := objFeats + [computeFeatures(temp)];
        objPosition := objPosition + [centroid(objectCloud)];
        k := k + 1;
      }
      sizesMatch := |objFeats| == |objPosition|;
    }
  }
}
