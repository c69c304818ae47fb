/** The scene data shared by the annotators: coloured points, clusters given
    as index lists into the scene cloud, and the optional values the
    annotators return. */
module Scene {
  import opened Geometry

  datatype Option<T> = None | Some(value: T)

  /** A pcl::PointXYZRGBA: a position and its colour channels. */
  datatype PointRGBA = PointRGBA(pos: Vec3, r: int, g: int, b: int, a: int)

  /** A cluster of the scene: the name of the annotator that produced it, the
      indices of its points in the scene cloud (neither sorted nor contiguous),
      and the hue stored in each of its RecognitionObject annotations, in
      annotation order. */
  datatype Cluster = Cluster(source: string, indices: seq<int>, hues: seq<real>)

  /** Every index refers to a point of a cloud with `size` points. */
  predicate IndicesValid(indices: seq<int>, size: int)
  {
    forall k :: 0 <= k < |indices| ==> 0 <= indices[k] < size
  }

  /** The points `cloud[indices[k]]`, in index order. */
  function Gather<T>(cloud: seq<T>, indices: seq<int>): seq<T>
    requires IndicesValid(indices, |cloud|)
  {
    seq(|indices|, k requires 0 <= k < |indices| => cloud[indices[k]])
  }

  /** The positions of a coloured cloud, as pcl::copyPointCloud to
      PointXYZ keeps them. */
  function RgbaPositions(cloud: seq<PointRGBA>): seq<Vec3>
  {
    seq(|cloud|, k requires 0 <= k < |cloud| => cloud[k].pos)
  }
}
