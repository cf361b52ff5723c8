/**
 * Boxes, regression deltas and the ground-truth preparation steps of the
 * per-image target builder: removal of the all-zero padding rows and
 * normalisation to the proposals' coordinate space. IoU and the box-to-delta
 * transform belong to the geometry module of the repository, which is not
 * part of this model: they are injected as functions.
 */
module Boxes {
  import opened TensorOps

  /** A box as corner coordinates (y1, x1, y2, x2). */
  datatype Box = Box(y1: real, x1: real, y2: real, x2: real)

  /** A regression target (dy, dx, log(dh), log(dw)); also the type of target_means and target_stds. */
  datatype Delta = Delta(dy: real, dx: real, dh: real, dw: real)

  type Positive = r: real | r > 0.0 witness 1.0

  /** (img_height, img_width) of one image. */
  datatype ImgShape = ImgShape(height: Positive, width: Positive)

  /**
   * The geometry collaborators: iou(a, b) is one entry of compute_overlaps,
   * bbox2delta(src, dst, means, stds) is one row of transforms.bbox2delta.
   */
  datatype Geometry = Geometry(iou: (Box, Box) -> real, bbox2delta: (Box, Box, Delta, Delta) -> Delta)

  /** A padding row: all four coordinates are zero. */
  predicate IsZeroBox(b: Box) {
    b.y1 == 0.0 && b.x1 == 0.0 && b.y2 == 0.0 && b.x2 == 0.0
  }

  /**
   * trim_zeros: the non-zero rows, in order, and the mask that selects them.
   * The mask is returned so that the class ids can be masked the same way.
   */
  function TrimZeros(boxes: seq<Box>): (r: (seq<Box>, seq<bool>))
    ensures |r.1| == |boxes|
    ensures forall i :: 0 <= i < |boxes| ==> (r.1[i] <==> !IsZeroBox(boxes[i]))
    ensures |r.0| == |Where(r.1)|
    ensures forall k :: 0 <= k < |r.0| ==> r.0[k] == boxes[Where(r.1)[k]] && !IsZeroBox(r.0[k])
    ensures forall i :: 0 <= i < |boxes| && !IsZeroBox(boxes[i]) ==> boxes[i] in r.0
  {
    var nonZeros := seq(|boxes|, i requires 0 <= i < |boxes| => !IsZeroBox(boxes[i]));
    var trimmed := BooleanMask(boxes, nonZeros);
    assert forall i :: 0 <= i < |boxes| && nonZeros[i] ==> boxes[i] in trimmed by {
      forall i | 0 <= i < |boxes| && nonZeros[i] ensures boxes[i] in trimmed {
        var k :| 0 <= k < |Where(nonZeros)| && Where(nonZeros)[k] == i;
        assert trimmed[k] == boxes[i];
      }
    }
    (trimmed, nonZeros)
  }

  lemma DivisionByPositive(x: real, h: Positive)
    ensures (x / h) * h == x
    ensures x / h == 0.0 <==> x == 0.0
  {
  }

  /** gt_boxes / (H, W, H, W): one box scaled into normalised coordinates. */
  function Normalize(b: Box, shape: ImgShape): (r: Box)
    ensures r.y1 * shape.height == b.y1 && r.x1 * shape.width == b.x1
    ensures r.y2 * shape.height == b.y2 && r.x2 * shape.width == b.x2
    ensures IsZeroBox(r) <==> IsZeroBox(b)
  {
    DivisionByPositive(b.y1, shape.height);
    DivisionByPositive(b.x1, shape.width);
    DivisionByPositive(b.y2, shape.height);
    DivisionByPositive(b.x2, shape.width);
    Box(b.y1 / shape.height, b.x1 / shape.width, b.y2 / shape.height, b.x2 / shape.width)
  }

  function NormalizeAll(boxes: seq<Box>, shape: ImgShape): (r: seq<Box>)
    ensures |r| == |boxes|
    ensures forall k :: 0 <= k < |boxes| ==> r[k] == Normalize(boxes[k], shape)
  {
    seq(|boxes|, k requires 0 <= k < |boxes| => Normalize(boxes[k], shape))
  }

  /** compute_overlaps(a, b): one row per box of a, one column per box of b. */
  function Overlaps(a: seq<Box>, b: seq<Box>, iou: (Box, Box) -> real): (m: seq<seq<real>>)
    ensures |m| == |a|
    ensures forall i :: 0 <= i < |a| ==> |m[i]| == |b|
    ensures forall i, j :: 0 <= i < |a| && 0 <= j < |b| ==> m[i][j] == iou(a[i], b[j])
  {
    seq(|a|, i requires 0 <= i < |a| => seq(|b|, j requires 0 <= j < |b| => iou(a[i], b[j])))
  }

  /** transforms.bbox2delta on two aligned lists of boxes. */
  function Bbox2Delta(geo: Geometry, src: seq<Box>, dst: seq<Box>, means: Delta, stds: Delta): (r: seq<Delta>)
    requires |src| == |dst|
    ensures |r| == |src|
    ensures forall k :: 0 <= k < |src| ==> r[k] == geo.bbox2delta(src[k], dst[k], means, stds)
  {
    seq(|src|, k requires 0 <= k < |src| => geo.bbox2delta(src[k], dst[k], means, stds))
  }
}
