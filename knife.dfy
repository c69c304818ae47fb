/** The knife annotator: picks the first hue cluster whose mean hue lies in
    the configured band, gathers its points into the member cloud `blade`,
    and builds a pose from the blade's diameter (primary axis) and its mean
    surface normal (secondary axis). */
module Knife {
  import opened Geometry
  import opened Scene
  import opened Diameter

  /** A pcl::PointNormal. `normalValid` is false when the normal holds a NaN
      component; `normal` is then meaningless. */
  datatype PointN = PointN(pos: Vec3, normal: Vec3, normalValid: bool)

  /** A pcl::Normal of the normals view; `valid` is false when it holds a NaN. */
  datatype Normal = Normal(n: Vec3, valid: bool)

  /** pcl::concatenateFields of the scene positions and the scene normals
      into the member cloud: point k takes position k and normal k. Clouds of
      different sizes are refused and the member cloud keeps its contents. */
  function ConcatenateFields(previous: seq<PointN>, positions: seq<PointRGBA>, normals: seq<Normal>): (r: seq<PointN>)
    ensures |positions| != |normals| ==> r == previous
    ensures |positions| == |normals| ==> |r| == |positions|
    ensures |positions| == |normals| ==> forall k :: 0 <= k < |r| ==>
      && r[k].pos == positions[k].pos
      && r[k].normal == normals[k].n
      && r[k].normalValid == normals[k].valid
  {
    if |positions| != |normals| then previous
    else seq(|positions|, k requires 0 <= k < |positions| => PointN(positions[k].pos, normals[k].n, normals[k].valid))
  }

  /** A default-constructed pcl::PointNormal: at the origin, zero normal. */
  const DefaultPoint: PointN := PointN(Zero, Zero, true)

  const HueClusteringSource: string := "HueClustering"

  /** The recognition result written onto the selected cluster's first
      RecognitionObject annotation. */
  datatype RecognitionObject = RecognitionObject(name: string, typeId: int, width: real, height: real, depth: real)

  /** The nominal knife: fixed class constants, not measurements. */
  const KnifeObject: RecognitionObject := RecognitionObject("Knife", 6, 0.28, 0.056, 0.03)

  /** The camera-frame pose: its origin and the three rows of its rotation,
      before normalisation. */
  datatype KnifePose = KnifePose(origin: Vec3, xAxis: Vec3, yAxis: Vec3, zAxis: Vec3)

  datatype Detection = Detection(clusterIndex: nat, recognized: RecognitionObject, pose: KnifePose)

  /** pcl::geometry::distance between two blade points, squared. */
  function PointDistance(a: PointN, b: PointN): real
  {
    SqDist(a.pos, b.pos)
  }

  /** The hue gate: a HueClustering cluster whose first annotation's hue lies
      strictly between the two bounds. */
  predicate IsKnifeCluster(c: Cluster, lower: int, upper: int)
  {
    c.source == HueClusteringSource && |c.hues| > 0 && lower as real < c.hues[0] < upper as real
  }

  /** Cluster k is the one the annotator selects: it passes the gate and no
      earlier cluster does. */
  predicate IsFirstKnifeCluster(clusters: seq<Cluster>, lower: int, upper: int, k: int)
  {
    0 <= k < |clusters| && IsKnifeCluster(clusters[k], lower, upper)
    && forall m :: 0 <= m < k ==> !IsKnifeCluster(clusters[m], lower, upper)
  }

  /** The hue of the first annotation is read for every HueClustering cluster
      the selection loop reaches, before the annotation count is checked. */
  predicate HuesReadable(clusters: seq<Cluster>, lower: int, upper: int)
  {
    forall k :: 0 <= k < |clusters| && clusters[k].source == HueClusteringSource
      && (forall m :: 0 <= m < k ==> !IsKnifeCluster(clusters[m], lower, upper))
      ==> |clusters[k].hues| > 0
  }

  /** How setEndpoints labels its two endpoints: the one with the strictly
      smaller coordinate sum is `highest`; on a tie `highest` is e1. */
  predicate Labelled(e0: PointN, e1: PointN, highest: PointN, lowest: PointN)
  {
    if CoordSum(e0.pos) < CoordSum(e1.pos) then highest == e0 && lowest == e1
    else highest == e1 && lowest == e0
  }

  /** The state setEndpoints leaves behind for a blade: the labelled first
      farthest pair, or two default points when no pair lies apart. */
  ghost predicate LabelledEndpoints(blade: seq<PointN>, highest: PointN, lowest: PointN)
  {
    || (NoSpread(PointDistance, blade) && highest == DefaultPoint && lowest == DefaultPoint)
    || (exists i, j :: IsFirstFarthest(PointDistance, blade, i, j) && Labelled(blade[i], blade[j], highest, lowest))
  }

  /** The points whose normal holds no NaN, in order, as
      pcl::removeNaNNormalsFromPointCloud keeps them (ValidNormalsCounts
      gives the number of copies). */
  function ValidNormals(points: seq<PointN>): (r: seq<PointN>)
    ensures |r| <= |points|
    ensures forall p :: p in r <==> p in points && p.normalValid
  {
    if |points| == 0 then []
    else if points[|points| - 1].normalValid then ValidNormals(points[..|points| - 1]) + [points[|points| - 1]]
    else ValidNormals(points[..|points| - 1])
  }

  /** The filter keeps every copy of a point with a valid normal and no copy
      of any other point, so the mean of getY divides by the true count. */
  lemma {:induction false} ValidNormalsCounts(points: seq<PointN>)
    ensures forall p :: multiset(ValidNormals(points))[p] == if p.normalValid then multiset(points)[p] else 0
  {
    if |points| > 0 {
      var init, last := points[..|points| - 1], points[|points| - 1];
      ValidNormalsCounts(init);
      assert points == init + [last];
    }
  }

  /** Component-wise sum of the normals. */
  function SumNormals(points: seq<PointN>): Vec3
  {
    if |points| == 0 then Zero
    else Add(SumNormals(points[..|points| - 1]), points[|points| - 1].normal)
  }

  /** The secondary axis: the mean normal of the valid points with its y and
      z components negated, or zero when there is no valid normal. */
  function SecondaryAxis(points: seq<PointN>): Vec3
  {
    var valid := ValidNormals(points);
    if |valid| == 0 then Zero else FlippedMean(SumNormals(valid), |valid| as real)
  }

  /** A sum of c normals divided by c, with y and z negated. */
  function FlippedMean(s: Vec3, c: real): Vec3
    requires c > 0.0
  {
    Vec3(s.x / c, -(s.y / c), -(s.z / c))
  }

  /** One step of getY's accumulation keeps the running value equal to the
      flipped mean of the normals summed so far. */
  lemma FlippedMeanStep(s: Vec3, n: Vec3, c: real)
    requires c > 0.0
    ensures FlippedMean(Add(s, n), c)
         == Vec3(FlippedMean(s, c).x + n.x / c, FlippedMean(s, c).y - n.y / c, FlippedMean(s, c).z - n.z / c)
  {
  }

  /** The two endpoints setEndpoints settles on are the same every time it
      runs on the same blade, which is why getX and getOrigin agree. */
  lemma LabelledEndpointsDeterministic(blade: seq<PointN>, h0: PointN, l0: PointN, h1: PointN, l1: PointN)
    requires LabelledEndpoints(blade, h0, l0) && LabelledEndpoints(blade, h1, l1)
    ensures h0 == h1 && l0 == l1
  {
    if NoSpread(PointDistance, blade) {
      DefaultsWithoutSpread(blade, h0, l0);
      DefaultsWithoutSpread(blade, h1, l1);
    } else {
      var i0, j0 := FarthestWitness(blade, h0, l0);
      var i1, j1 := FarthestWitness(blade, h1, l1);
      FirstFarthestUnique(PointDistance, blade, i0, j0, i1, j1);
    }
  }

  /** With spread, the endpoints are the labelled first farthest pair. */
  lemma FarthestWitness(blade: seq<PointN>, highest: PointN, lowest: PointN) returns (i: int, j: int)
    requires !NoSpread(PointDistance, blade)
    requires LabelledEndpoints(blade, highest, lowest)
    ensures IsFirstFarthest(PointDistance, blade, i, j) && Labelled(blade[i], blade[j], highest, lowest)
  {
    i, j :| IsFirstFarthest(PointDistance, blade, i, j) && Labelled(blade[i], blade[j], highest, lowest);
  }

  /** Without spread, the endpoints are the two default points. */
  lemma DefaultsWithoutSpread(blade: seq<PointN>, highest: PointN, lowest: PointN)
    requires NoSpread(PointDistance, blade)
    requires LabelledEndpoints(blade, highest, lowest)
    ensures highest == DefaultPoint && lowest == DefaultPoint
  {
  }

  /** `highest` never has a larger coordinate sum than `lowest`. */
  lemma HighestHasSmallerSum(blade: seq<PointN>, highest: PointN, lowest: PointN)
    requires LabelledEndpoints(blade, highest, lowest)
    ensures CoordSum(highest.pos) <= CoordSum(lowest.pos)
  {
    if !(NoSpread(PointDistance, blade) && highest == DefaultPoint && lowest == DefaultPoint) {
      var i, j :| IsFirstFarthest(PointDistance, blade, i, j) && Labelled(blade[i], blade[j], highest, lowest);
    }
  }

  /** On a coordinate-sum tie `highest` is endpoints[1], and in every case the
      two labels are the two endpoints. */
  lemma LabelledTie(e0: PointN, e1: PointN, highest: PointN, lowest: PointN)
    requires Labelled(e0, e1, highest, lowest)
    ensures CoordSum(e0.pos) == CoordSum(e1.pos) ==> highest == e1 && lowest == e0
    ensures (highest == e0 && lowest == e1) || (highest == e1 && lowest == e0)
  {
  }

  /** A blade of fewer than two points, or of coincident points, leaves both
      endpoints default-constructed: the update never fires. */
  lemma CoincidentBladeKeepsDefaults(blade: seq<PointN>, highest: PointN, lowest: PointN)
    requires forall i :: 0 <= i < |blade| ==> blade[i].pos == blade[0].pos
    requires LabelledEndpoints(blade, highest, lowest)
    ensures highest == DefaultPoint && lowest == DefaultPoint
  {
    forall i, j | 0 <= i < j < |blade|
      ensures PointDistance(blade[i], blade[j]) <= 0.0
    {
      assert blade[i].pos == blade[0].pos && blade[j].pos == blade[0].pos;
      SqDistSelf(blade[0].pos);
    }
    DefaultsWithoutSpread(blade, highest, lowest);
  }

  /** When every valid normal equals n, the secondary axis is n with its y
      and z components negated. */
  lemma UniformNormalsAxis(points: seq<PointN>, n: Vec3)
    requires forall p :: p in points && p.normalValid ==> p.normal == n
    requires exists p :: p in points && p.normalValid
    ensures SecondaryAxis(points) == Vec3(n.x, -n.y, -n.z)
  {
    var valid := ValidNormals(points);
    var p :| p in points && p.normalValid;
    assert p in valid;
    SumOfEqualNormals(valid, n);
    var c := |valid| as real;
    var s := SumNormals(valid);
    assert s == Scale(c, n);
    ScaleDivide(c, n);
  }

  lemma ScaleDivide(c: real, a: Vec3)
    requires c > 0.0
    ensures Scale(c, a).x / c == a.x && Scale(c, a).y / c == a.y && Scale(c, a).z / c == a.z
  {
  }

  lemma {:induction false} SumOfEqualNormals(points: seq<PointN>, n: Vec3)
    requires forall p :: p in points ==> p.normal == n
    ensures SumNormals(points) == Scale(|points| as real, n)
  {
    if |points| > 0 {
      var init := points[..|points| - 1];
      assert forall p :: p in init ==> p in points;
      SumOfEqualNormals(init, n);
      assert points[|points| - 1] in points;
    }
  }

  class KnifeAnnotator {
    var hueLower: int
    var hueUpper: int
    var cloud: seq<PointN>
    var blade: seq<PointN>
    var highest: PointN
    var lowest: PointN
    var x: Vec3
    var y: Vec3
    var z: Vec3

    /** The annotator after initialize: the hue band from minHue and maxHue,
        an empty blade and default-constructed endpoints. */
    constructor (minHue: int, maxHue: int)
      ensures hueLower == minHue && hueUpper == maxHue
      ensures cloud == [] && blade == [] && highest == DefaultPoint && lowest == DefaultPoint
    {
      hueLower, hueUpper := minHue, maxHue;
      cloud, blade := [], [];
      highest, lowest := DefaultPoint, DefaultPoint;
    }

    /** setEndpoints: the diameter search, then the labelling by coordinate
        sum into the members `highest` and `lowest`. */
    method SetEndpoints(points: seq<PointN>)
      modifies this`highest, this`lowest
      ensures LabelledEndpoints(points, highest, lowest)
      ensures CoordSum(highest.pos) <= CoordSum(lowest.pos)
    {
      var found, i0, j0, _ := FarthestPair(PointDistance, points);
      var e0, e1 := DefaultPoint, DefaultPoint;
      if found {
        e0, e1 := points[i0], points[j0];
      }
      if CoordSum(e0.pos) < CoordSum(e1.pos) {
        highest, lowest := e0, e1;
      } else {
        highest, lowest := e1, e0;
      }
    }

    /** getX: the primary axis, from `highest` towards `lowest`. */
    method GetX(points: seq<PointN>) returns (v: Vec3)
      modifies this`highest, this`lowest, this`x
      ensures LabelledEndpoints(points, highest, lowest)
      ensures x == Sub(lowest.pos, highest.pos) && v == x
    {
      SetEndpoints(points);
      x := Sub(lowest.pos, highest.pos);
      v := x;
    }

    /** getOrigin: the position of `highest`. */
    method GetOrigin(points: seq<PointN>) returns (origin: Vec3)
      modifies this`highest, this`lowest
      ensures LabelledEndpoints(points, highest, lowest)
      ensures origin == highest.pos
    {
      SetEndpoints(points);
      origin := highest.pos;
    }

    /** getY: accumulates normal_x / size and the negated normal_y / size and
        normal_z / size over the points with a valid normal. */
    method GetY(points: seq<PointN>) returns (bladeNormal: Vec3)
      ensures bladeNormal == SecondaryAxis(points)
      ensures (forall p :: p in points ==> !p.normalValid) ==> bladeNormal == Zero
    {
      bladeNormal := Zero;
      var temp := ValidNormals(points);
      var size := |temp|;
      var i := 0;
      while i < size
        invariant 0 <= i <= size
        invariant size == 0 ==> bladeNormal == Zero
        invariant size > 0 ==> bladeNormal == FlippedMean(SumNormals(temp[..i]), size as real)
      {
        var n := temp[i].normal;
        var c := size as real;
        assert temp[..i + 1][..i] == temp[..i];
        FlippedMeanStep(SumNormals(temp[..i]), n, c);
        bladeNormal := Vec3(bladeNormal.x + n.x / c, bladeNormal.y - n.y / c, bladeNormal.z - n.z / c);
        i := i + 1;
      }
      assert temp[..size] == temp;
      if forall p :: p in points ==> !p.normalValid {
        assert |temp| == 0;
      }
    }

    /** The gather loop of extractPoints: appends cloud[indices[k]] to the
        member `blade` in index order, without clearing it first. */
    method AppendClusterPoints(cloud: seq<PointN>, indices: seq<int>)
      requires IndicesValid(indices, |cloud|)
      modifies this`blade
      ensures |blade| == |old(blade)| + |indices|
      ensures blade[..|old(blade)|] == old(blade)
      ensures forall k :: 0 <= k < |indices| ==> blade[|old(blade)| + k] == cloud[indices[k]]
    {
      var k := 0;
      while k < |indices|
        invariant 0 <= k <= |indices|
        invariant |blade| == |old(blade)| + k
        invariant blade[..|old(blade)|] == old(blade)
        invariant forall m :: 0 <= m < k ==> blade[|old(blade)| + m] == cloud[indices[m]]
      {
        blade := blade + [cloud[indices[k]]];
        k := k + 1;
      }
    }

    /** extractPoints: the gather loop, then the VoxelGrid filter (leaf size
        0.01) applied to the whole member cloud. */
    method ExtractPoints(cloud: seq<PointN>, indices: seq<int>, voxelFilter: seq<PointN> -> seq<PointN>)
      requires IndicesValid(indices, |cloud|)
      modifies this`blade
      ensures blade == voxelFilter(old(blade) + Gather(cloud, indices))
    {
      AppendClusterPoints(cloud, indices);
      assert blade == old(blade) + Gather(cloud, indices);
      blade := voxelFilter(blade);
    }

    /** The body of processWithLock once the knife cluster k is chosen:
        gather and downsample its points, then x = getX, y = getY,
        origin = getOrigin, z = x × y and y = z × x. */
    method Annotate(cloud: seq<PointN>, k: nat, indices: seq<int>, voxelFilter: seq<PointN> -> seq<PointN>)
      returns (detection: Detection)
      requires IndicesValid(indices, |cloud|)
      modifies this`blade, this`highest, this`lowest, this`x, this`y, this`z
      ensures blade == voxelFilter(old(blade) + Gather(cloud, indices))
      ensures LabelledEndpoints(blade, highest, lowest)
      ensures x == Sub(lowest.pos, highest.pos)
      ensures z == Cross(x, SecondaryAxis(blade)) && y == Cross(z, x)
      ensures detection == Detection(k, KnifeObject, KnifePose(highest.pos, x, y, z))
    {
      ExtractPoints(cloud, indices, voxelFilter);
      var primary := GetX(blade);
      ghost var h0, l0 := highest, lowest;
      var secondary := GetY(blade);
      var origin := GetOrigin(blade);
      LabelledEndpointsDeterministic(blade, h0, l0, highest, lowest);
      var normal := Cross(primary, secondary);
      var corrected := Cross(normal, primary);
      y, z := corrected, normal;
      detection := Detection(k, KnifeObject, KnifePose(origin, primary, corrected, normal));
    }

    /** processWithLock: merges positions and normals into the member cloud,
        selects the first knife cluster and annotates it; without a knife
        cluster nothing else changes. */
    method ProcessWithLock(positions: seq<PointRGBA>, normals: seq<Normal>, clusters: seq<Cluster>,
                           voxelFilter: seq<PointN> -> seq<PointN>)
      returns (detection: Option<Detection>)
      requires forall k :: IsFirstKnifeCluster(clusters, hueLower, hueUpper, k) ==>
        IndicesValid(clusters[k].indices, |ConcatenateFields(cloud, positions, normals)|)
      requires HuesReadable(clusters, hueLower, hueUpper)
      modifies this`cloud, this`blade, this`highest, this`lowest, this`x, this`y, this`z
      ensures cloud == ConcatenateFields(old(cloud), positions, normals)
      ensures detection.None? <==> forall k :: 0 <= k < |clusters| ==> !IsKnifeCluster(clusters[k], hueLower, hueUpper)
      ensures detection.None? ==>
        blade == old(blade) && highest == old(highest) && lowest == old(lowest)
        && x == old(x) && y == old(y) && z == old(z)
      ensures detection.Some? ==>
        var k := detection.value.clusterIndex;
        && IsFirstKnifeCluster(clusters, hueLower, hueUpper, k)
        && blade == voxelFilter(old(blade) + Gather(cloud, clusters[k].indices))
        && LabelledEndpoints(blade, highest, lowest)
        && x == Sub(lowest.pos, highest.pos)
        && z == Cross(x, SecondaryAxis(blade))
        && y == Cross(z, x)
        && detection.value == Detection(k, KnifeObject, KnifePose(highest.pos, x, y, z))
    {
      cloud := ConcatenateFields(cloud, positions, normals);
      var k := 0;
      while k < |clusters|
        invariant 0 <= k <= |clusters|
        invariant forall m :: 0 <= m < k ==> !IsKnifeCluster(clusters[m], hueLower, hueUpper)
        invariant cloud == ConcatenateFields(old(cloud), positions, normals)
        invariant blade == old(blade) && highest == old(highest) && lowest == old(lowest)
        invariant x == old(x) && y == old(y) && z == old(z)
      {
        var cluster := clusters[k];
        if cluster.source == HueClusteringSource {
          var hue := cluster.hues[0];
          if hueLower as real < hue < hueUpper as real {
            var d := Annotate(cloud, k, cluster.indices, voxelFilter);
            detection := Some(d);
            return;
          }
        }
        k := k + 1;
      }
      detection := None;
    }
  }
}
