/** The before/after scene recorder: every other process call stores the
    "before" scene; the calls in between store the "after" scene, threshold
    the depth difference, and add a ChangeDetection cluster when the octree
    change detector reports new points. */
module Szene {
  import opened Scene

  /** A 16-bit unsigned depth value (OpenCV CV_16U). */
  type ushort = x: int | 0 <= x < 0x1_0000

  const UShortMax: ushort := 0xFFFF

  /** A depth difference above this many units counts as a change. */
  const ChangeThreshold: ushort := 20

  const ChangeDetectionSource: string := "ChangeDetection"

  /** A depth image, flattened row by row; the difference image is
      continuous, so the threshold pass sees it as a single row. */
  type DepthImage = seq<ushort>

  /** cv::absdiff on two images of the same size: the per-pixel absolute
      difference. */
  function AbsDiff(a: DepthImage, b: DepthImage): (r: DepthImage)
    requires |a| == |b|
    ensures |r| == |a|
    ensures forall k :: 0 <= k < |a| ==> a[k] as int == b[k] as int + r[k] || b[k] as int == a[k] as int + r[k]
  {
    seq(|a|, k requires 0 <= k < |a| => if a[k] >= b[k] then a[k] - b[k] else b[k] - a[k])
  }

  /** What the threshold pass leaves in one pixel. */
  function Threshold(v: ushort): ushort
  {
    if v > ChangeThreshold then UShortMax else v
  }

  /** The difference image does not depend on which image came first. */
  lemma AbsDiffSymmetric(a: DepthImage, b: DepthImage)
    requires |a| == |b|
    ensures AbsDiff(a, b) == AbsDiff(b, a)
  {
  }

  predicate IsMin(m: ushort, s: seq<ushort>)
  {
    m in s && forall k :: 0 <= k < |s| ==> m <= s[k]
  }

  predicate IsMax(m: ushort, s: seq<ushort>)
  {
    m in s && forall k :: 0 <= k < |s| ==> s[k] <= m
  }

  /** The threshold pass over the difference image: every pixel above the
      change threshold is set to 65535 in place, every other pixel is kept,
      and the minimum and maximum of the values before the pass are
      reported (65535 and 0 for an empty image). */
  method ThresholdChanges(p: array<ushort>) returns (minValue: ushort, maxValue: ushort)
    modifies p
    ensures forall k :: 0 <= k < p.Length ==> p[k] == Threshold(old(p[k]))
    ensures p.Length == 0 ==> minValue == UShortMax && maxValue == 0
    ensures p.Length > 0 ==> IsMin(minValue, old(p[..])) && IsMax(maxValue, old(p[..]))
  {
    ghost var original := p[..];
    minValue, maxValue := UShortMax, 0;
    var j := 0;
    while j < p.Length
      invariant 0 <= j <= p.Length
      invariant forall k :: 0 <= k < j ==> p[k] == Threshold(original[k])
      invariant forall k :: j <= k < p.Length ==> p[k] == original[k]
      invariant j == 0 ==> minValue == UShortMax && maxValue == 0
      invariant j > 0 ==> IsMin(minValue, original[..j]) && IsMax(maxValue, original[..j])
    {
      assert original[..j + 1] == original[..j] + [original[j]];
      if minValue > p[j] {
        minValue := p[j];
      }
      if maxValue < p[j] {
        maxValue := p[j];
      }
      if p[j] > ChangeThreshold {
        p[j] := UShortMax;
      }
      j := j + 1;
    }
    assert original[..p.Length] == original;
  }

  class SzeneRecorder {
    var runCount: int
    var queueSaveImage: bool
    var beforeCloud: seq<PointRGBA>
    var beforeDepth: DepthImage
    var beforeTime: int
    var afterCloud: seq<PointRGBA>
    var afterDepth: DepthImage
    var afterTime: int
    var dist: array<ushort>
    var clusterIndices: seq<int>

    /** The phase counter only ever holds 0 (next call stores the "before"
        scene) or 1 (next call stores the "after" scene). */
    predicate Valid()
      reads this
    {
      runCount == 0 || runCount == 1
    }

    /** A fresh recorder: phase 0, nothing queued, nothing stored. */
    constructor ()
      ensures Valid() && runCount == 0 && !queueSaveImage
      ensures beforeCloud == [] && afterCloud == [] && beforeDepth == [] && afterDepth == []
      ensures clusterIndices == [] && dist.Length == 0
    {
      runCount := 0;
      queueSaveImage := false;
      beforeCloud, afterCloud := [], [];
      beforeDepth, afterDepth := [], [];
      beforeTime, afterTime := 0, 0;
      dist := new ushort[0];
      clusterIndices := [];
    }

    /** processWithLock. `detectChange` stands for the octree change detector
        run on the stored "before" and "after" clouds. The result is the
        scene's cluster list after the call; `raised` reports that
        cv::absdiff refused two depth images of different sizes, which ends
        the call with an exception after the "after" scene is stored. */
    method ProcessWithLock(depth: DepthImage, cloud: seq<PointRGBA>, sceneClusters: seq<Cluster>,
                           detectChange: (seq<PointRGBA>, seq<PointRGBA>) -> seq<int>)
      returns (clustersOut: seq<Cluster>, raised: bool)
      modifies this`runCount, this`beforeCloud, this`beforeDepth, this`afterCloud, this`afterDepth,
               this`dist, this`clusterIndices
      ensures old(Valid()) ==> Valid()
      ensures old(runCount) == 0 ==>
        && runCount == 1 && beforeCloud == cloud && beforeDepth == depth
        && afterCloud == old(afterCloud) && afterDepth == old(afterDepth)
        && dist == old(dist) && clusterIndices == old(clusterIndices)
        && clustersOut == sceneClusters && !raised
      ensures old(runCount) == 1 ==>
        && runCount == 0 && afterCloud == cloud && afterDepth == depth
        && beforeCloud == old(beforeCloud) && beforeDepth == old(beforeDepth)
      ensures old(runCount) == 1 && |depth| != |old(beforeDepth)| ==>
        raised && dist == old(dist) && clusterIndices == old(clusterIndices) && clustersOut == sceneClusters
      ensures old(runCount) == 1 && |depth| == |old(beforeDepth)| ==>
        var diff := AbsDiff(old(beforeDepth), depth);
        var change := detectChange(old(beforeCloud), cloud);
        && !raised && fresh(dist) && dist.Length == |diff|
        && (forall k :: 0 <= k < |diff| ==> dist[k] == Threshold(diff[k]))
        && (|change| == 0 ==> clusterIndices == old(clusterIndices) && clustersOut == sceneClusters)
        && (|change| > 0 ==>
              clusterIndices == change
              && clustersOut == sceneClusters + [Cluster(ChangeDetectionSource, change, [])])
      ensures old(runCount) != 0 && old(runCount) != 1 ==>
        && runCount == old(runCount)
        && beforeCloud == old(beforeCloud) && beforeDepth == old(beforeDepth)
        && afterCloud == old(afterCloud) && afterDepth == old(afterDepth)
        && dist == old(dist) && clusterIndices == old(clusterIndices)
        && clustersOut == sceneClusters && !raised
    {
      clustersOut, raised := sceneClusters, false;
      if runCount == 0 {
        beforeCloud := cloud;
        beforeDepth := depth;
        runCount := runCount + 1;
      } else if runCount == 1 {
        afterCloud := cloud;
        afterDepth := depth;
        runCount := 0;
        if |beforeDepth| != |afterDepth| {
          raised := true;
          return;
        }
        var diff := AbsDiff(beforeDepth, afterDepth);
        var image := new ushort[|diff|](k requires 0 <= k < |diff| => diff[k]);
        var minValue, maxValue := ThresholdChanges(image);
        dist := image;
        var indices := detectChange(beforeCloud, afterCloud);
        if |indices| == 0 {
          return;
        }
        clusterIndices := indices;
        clustersOut := sceneClusters + [Cluster(ChangeDetectionSource, indices, [])];
      }
    }

    /** The before_action service: queue an image and stamp the "before"
        time. The frame leaves the phase and the stored scenes untouched. */
    method BeforeActionCallback(now: int) returns (handled: bool)
      modifies this`queueSaveImage, this`beforeTime
      ensures queueSaveImage && beforeTime == now && handled
    {
      queueSaveImage := true;
      beforeTime := now;
      handled := true;
    }

    /** The perceive_action_effect service: queue an image and stamp the
        "after" time. */
    method PerceiveActionEffectCallback(now: int) returns (handled: bool)
      modifies this`queueSaveImage, this`afterTime
      ensures queueSaveImage && afterTime == now && handled
    {
      queueSaveImage := true;
      afterTime := now;
      handled := true;
    }
  }
}
