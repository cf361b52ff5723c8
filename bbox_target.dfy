/**
 * ProposalTarget: ROI sampling and target assignment for the second stage of
 * a two-stage detector. Per image, proposals are matched to the ground truth
 * by their best IoU, split into positives and negatives at the IoU thresholds,
 * subsampled (at most 128 positives, three negatives per positive kept) and
 * turned into ROIs, class targets and regression targets.
 */
module BboxTarget {
  import opened TensorOps
  import opened Boxes

  /** self.num_rcnn_deltas: always 512, whatever the constructor is given. */
  const NumRcnnDeltas: int := 512
  /** self.roi_positive_fraction */
  const RoiPositiveFraction: real := 0.25
  /** self.pos_iou_thr */
  const PosIouThr: real := 0.5
  /** self.neg_iou_thr */
  const NegIouThr: real := 0.5
  /** The class id that the zero padding of target_matchs gives to negative ROIs. */
  const Background: int := 0

  /** int(num_rcnn_deltas * roi_positive_fraction): the most positives kept for one image. */
  function PositiveCap(): (c: nat)
    ensures c == 128
    ensures 4 * c == NumRcnnDeltas
  {
    Trunc(NumRcnnDeltas as real * RoiPositiveFraction)
  }

  /**
   * tf.cast(r * float(P), int32) - P with r = 1 / roi_positive_fraction:
   * the number of negatives asked for when P positives were kept.
   */
  function NegativeQuota(p: nat): (n: nat)
    ensures n == 3 * p
  {
    Trunc((1.0 / RoiPositiveFraction) * (p as real)) - p
  }

  /** roi_iou_max: each proposal's best IoU over the ground truth (minus infinity without ground truth). */
  function BestIous(overlaps: seq<seq<real>>): (best: seq<ExtReal>)
    ensures |best| == |overlaps|
    ensures forall i :: 0 <= i < |overlaps| ==> best[i].NegInf? == (overlaps[i] == [])
    ensures forall i :: 0 <= i < |overlaps| && overlaps[i] != [] ==> best[i] == Finite(overlaps[i][ArgMax(overlaps[i])])
    ensures forall i, j :: 0 <= i < |overlaps| && 0 <= j < |overlaps[i]| ==> AtLeast(best[i], overlaps[i][j])
  {
    seq(|overlaps|, i requires 0 <= i < |overlaps| => ReduceMax(overlaps[i]))
  }

  /** tf.where(roi_iou_max >= thr)[:, 0]: the positive candidates, in ascending order. */
  function PositiveCandidates(best: seq<ExtReal>, thr: real): (idx: seq<nat>)
    ensures forall i: nat :: i in idx <==> i < |best| && AtLeast(best[i], thr)
    ensures StrictlyIncreasing(idx)
  {
    Where(seq(|best|, i requires 0 <= i < |best| => AtLeast(best[i], thr)))
  }

  /** tf.where(roi_iou_max < thr)[:, 0]: the negative candidates, in ascending order. */
  function NegativeCandidates(best: seq<ExtReal>, thr: real): (idx: seq<nat>)
    ensures forall i: nat :: i in idx <==> i < |best| && Below(best[i], thr)
    ensures StrictlyIncreasing(idx)
  {
    Where(seq(|best|, i requires 0 <= i < |best| => Below(best[i], thr)))
  }

  /** p lists 0 .. n-1, each once, in some order. */
  ghost predicate IsPermutation(p: seq<nat>, n: nat) {
    |p| == n && (forall k :: 0 <= k < n ==> p[k] < n) && Distinct(p)
  }

  /** The orders that tf.random_shuffle gives the positive and the negative candidates. */
  datatype Shuffles = Shuffles(positives: seq<nat>, negatives: seq<nat>)

  /** tf.random_shuffle(xs) with the permutation p standing for the random draw. */
  function Shuffle(xs: seq<nat>, p: seq<nat>): (r: seq<nat>)
    requires IsPermutation(p, |xs|)
    ensures |r| == |xs|
    ensures forall k :: 0 <= k < |r| ==> r[k] == xs[p[k]]
    ensures forall x :: x in r ==> x in xs
    ensures Distinct(xs) ==> Distinct(r)
  {
    Gather(xs, p)
  }

  /**
   * tf.random_shuffle(positive_indices)[:positive_count]: at most 128 of the
   * proposals whose best IoU reaches pos_iou_thr, taken in shuffle order.
   */
  function SamplePositives(best: seq<ExtReal>, perm: seq<nat>): (pos: seq<nat>)
    requires IsPermutation(perm, |PositiveCandidates(best, PosIouThr)|)
    ensures |pos| == Min(PositiveCap(), |PositiveCandidates(best, PosIouThr)|)
    ensures forall k :: 0 <= k < |pos| ==> pos[k] == PositiveCandidates(best, PosIouThr)[perm[k]]
    ensures forall k :: 0 <= k < |pos| ==> pos[k] < |best| && AtLeast(best[pos[k]], PosIouThr)
    ensures Distinct(pos)
  {
    var cands := PositiveCandidates(best, PosIouThr);
    IncreasingIsDistinct(cands);
    var shuffled := Shuffle(cands, perm);
    var pos := Take(shuffled, PositiveCap());
    assert forall k :: 0 <= k < |pos| ==> pos[k] == shuffled[k] && shuffled[k] in cands;
    pos
  }

  /**
   * tf.random_shuffle(negative_indices)[:negative_count] for P kept
   * positives: at most 3 P of the proposals whose best IoU is below
   * neg_iou_thr, taken in shuffle order.
   */
  function SampleNegatives(best: seq<ExtReal>, perm: seq<nat>, p: nat): (neg: seq<nat>)
    requires IsPermutation(perm, |NegativeCandidates(best, NegIouThr)|)
    ensures |neg| == Min(3 * p, |NegativeCandidates(best, NegIouThr)|)
    ensures forall k :: 0 <= k < |neg| ==> neg[k] == NegativeCandidates(best, NegIouThr)[perm[k]]
    ensures forall k :: 0 <= k < |neg| ==> neg[k] < |best| && Below(best[neg[k]], NegIouThr)
    ensures Distinct(neg)
  {
    var cands := NegativeCandidates(best, NegIouThr);
    IncreasingIsDistinct(cands);
    var shuffled := Shuffle(cands, perm);
    var neg := Take(shuffled, NegativeQuota(p));
    assert forall k :: 0 <= k < |neg| ==> neg[k] == shuffled[k] && shuffled[k] in cands;
    neg
  }

  /**
   * tf.argmax(tf.gather(overlaps, positives), axis=1): for each kept positive
   * the ground-truth column of its best IoU, which is the argmax of that
   * proposal's own row and holds the row's maximum.
   */
  function AssignGt(overlaps: seq<seq<real>>, positives: seq<nat>): (assignment: seq<nat>)
    requires forall k :: 0 <= k < |positives| ==> positives[k] < |overlaps| && overlaps[positives[k]] != []
    ensures |assignment| == |positives|
    ensures forall k :: 0 <= k < |positives| ==>
              var row := overlaps[positives[k]];
              assignment[k] == ArgMax(row) && assignment[k] < |row| &&
              ReduceMax(row) == Finite(row[assignment[k]]) &&
              forall j :: 0 <= j < |row| ==> row[j] <= row[assignment[k]]
  {
    var positiveOverlaps := Gather(overlaps, positives);
    RowArgMax(positiveOverlaps)
  }

  /** The shuffles fit the candidate lists of this overlap matrix. */
  ghost predicate ValidShuffles(overlaps: seq<seq<real>>, sh: Shuffles) {
    var best := BestIous(overlaps);
    IsPermutation(sh.positives, |PositiveCandidates(best, PosIouThr)|) &&
    IsPermutation(sh.negatives, |NegativeCandidates(best, NegIouThr)|)
  }

  /**
   * The proposals kept for one image: the positive and negative proposal
   * indices, and for each kept positive the column of its best ground truth.
   */
  datatype Selection = Selection(positives: seq<nat>, negatives: seq<nat>, assignment: seq<nat>)

  /** Thresholding, subsampling and ground-truth assignment on one overlap matrix. */
  function Select(overlaps: seq<seq<real>>, sh: Shuffles): (s: Selection)
    requires ValidShuffles(overlaps, sh)
    ensures |s.assignment| == |s.positives|
    ensures forall k :: 0 <= k < |s.positives| ==>
              s.positives[k] < |overlaps| && s.assignment[k] < |overlaps[s.positives[k]]|
    ensures forall k :: 0 <= k < |s.negatives| ==> s.negatives[k] < |overlaps|
  {
    var best := BestIous(overlaps);
    var positives := SamplePositives(best, sh.positives);
    var negatives := SampleNegatives(best, sh.negatives, |positives|);
    Selection(positives, negatives, AssignGt(overlaps, positives))
  }

  /** What _build_single_target returns for one image. */
  datatype Targets = Targets(rois: seq<Box>, targetMatchs: seq<int>, targetDeltas: seq<Delta>)

  /** The ground-truth boxes after trimming and normalisation. */
  function NormalizedGt(gtBoxes: seq<Box>, shape: ImgShape): seq<Box> {
    NormalizeAll(TrimZeros(gtBoxes).0, shape)
  }

  /** The overlap matrix of one image: proposals against the trimmed, normalised ground truth. */
  function ImageOverlaps(geo: Geometry, proposals: seq<Box>, gtBoxes: seq<Box>, shape: ImgShape): seq<seq<real>> {
    Overlaps(proposals, NormalizedGt(gtBoxes, shape), geo.iou)
  }

  /** _build_single_target for one image, with the two shuffles given by sh. */
  function BuildSingleTarget(geo: Geometry, targetMeans: Delta, targetStds: Delta, proposals: seq<Box>,
                             gtBoxes: seq<Box>, gtClassIds: seq<int>, shape: ImgShape, sh: Shuffles): (t: Targets)
    requires |gtBoxes| == |gtClassIds|
    requires ValidShuffles(ImageOverlaps(geo, proposals, gtBoxes, shape), sh)
  {
    var trim := TrimZeros(gtBoxes);
    var classIds := BooleanMask(gtClassIds, trim.1);
    var gt := NormalizeAll(trim.0, shape);
    var overlaps := Overlaps(proposals, gt, geo.iou);
    var s := Select(overlaps, sh);
    var positiveRois := Gather(proposals, s.positives);
    var negativeRois := Gather(proposals, s.negatives);
    var roiGtBoxes := Gather(gt, s.assignment);
    var targetMatchs := Gather(classIds, s.assignment);
    var targetDeltas := Bbox2Delta(geo, positiveRois, roiGtBoxes, targetMeans, targetStds);
    Targets(positiveRois + negativeRois, PadZeros(targetMatchs, |negativeRois|), targetDeltas)
  }

  /** The inputs of one build_targets call fit together for every image of the batch. */
  ghost predicate ValidBatch(geo: Geometry, proposalsList: seq<seq<Box>>, gtBoxes: seq<seq<Box>>,
                             gtClassIds: seq<seq<int>>, imgShapes: seq<ImgShape>, shuffles: seq<Shuffles>)
  {
    |proposalsList| >= |imgShapes| && |gtBoxes| >= |imgShapes| && |gtClassIds| >= |imgShapes| &&
    |shuffles| >= |imgShapes| &&
    forall i :: 0 <= i < |imgShapes| ==>
      |gtBoxes[i]| == |gtClassIds[i]| &&
      ValidShuffles(ImageOverlaps(geo, proposalsList[i], gtBoxes[i], imgShapes[i]), shuffles[i])
  }

  /** What build_targets computes for image i of the batch. */
  function ImageTarget(geo: Geometry, targetMeans: Delta, targetStds: Delta, proposalsList: seq<seq<Box>>,
                       gtBoxes: seq<seq<Box>>, gtClassIds: seq<seq<int>>, imgShapes: seq<ImgShape>,
                       shuffles: seq<Shuffles>, i: nat): Targets
    requires ValidBatch(geo, proposalsList, gtBoxes, gtClassIds, imgShapes, shuffles)
    requires i < |imgShapes|
  {
    BuildSingleTarget(geo, targetMeans, targetStds, proposalsList[i], gtBoxes[i], gtClassIds[i], imgShapes[i], shuffles[i])
  }

  /**
   * The target builder. Its configuration is fixed at construction; apart
   * from the regression means and deviations it does not depend on the
   * constructor's arguments.
   */
  class ProposalTarget {
    const targetMeans: Delta
    const targetStds: Delta
    const numRcnnDeltas: int := NumRcnnDeltas
    const roiPositiveFraction: real := RoiPositiveFraction
    const posIouThr: real := PosIouThr
    const negIouThr: real := NegIouThr

    /** The num_rcnn_deltas argument is accepted and ignored: the cap stays 512. */
    constructor (targetMeans: Delta, targetStds: Delta, numRcnnDeltas: int)
      ensures this.targetMeans == targetMeans && this.targetStds == targetStds
      ensures this.numRcnnDeltas == 512
      ensures this.roiPositiveFraction == 0.25 && this.posIouThr == 0.5 && this.negIouThr == 0.5
    {
      this.targetMeans := targetMeans;
      this.targetStds := targetStds;
    }

    /**
     * build_targets: runs the per-image builder on each image of the batch
     * (the batch size is the number of image shapes) and collects the three
     * results; element i is the target of image i alone.
     */
    method BuildTargets(geo: Geometry, proposalsList: seq<seq<Box>>, gtBoxes: seq<seq<Box>>,
                        gtClassIds: seq<seq<int>>, imgShapes: seq<ImgShape>, shuffles: seq<Shuffles>)
      returns (roisList: seq<seq<Box>>, targetMatchsList: seq<seq<int>>, targetDeltasList: seq<seq<Delta>>)
      requires ValidBatch(geo, proposalsList, gtBoxes, gtClassIds, imgShapes, shuffles)
      ensures |roisList| == |imgShapes| && |targetMatchsList| == |imgShapes| && |targetDeltasList| == |imgShapes|
      ensures forall i :: 0 <= i < |imgShapes| ==>
                roisList[i] == ImageTarget(geo, targetMeans, targetStds, proposalsList, gtBoxes, gtClassIds, imgShapes, shuffles, i).rois
      ensures forall i :: 0 <= i < |imgShapes| ==>
                targetMatchsList[i] == ImageTarget(geo, targetMeans, targetStds, proposalsList, gtBoxes, gtClassIds, imgShapes, shuffles, i).targetMatchs
      ensures forall i :: 0 <= i < |imgShapes| ==>
                targetDeltasList[i] == ImageTarget(geo, targetMeans, targetStds, proposalsList, gtBoxes, gtClassIds, imgShapes, shuffles, i).targetDeltas
    {
      ghost var batch := seq(|imgShapes|, j requires 0 <= j < |imgShapes| =>
        ImageTarget(geo, targetMeans, targetStds, proposalsList, gtBoxes, gtClassIds, imgShapes, shuffles, j));
      roisList, targetMatchsList, targetDeltasList := [], [], [];
      for i := 0 to |imgShapes|
        invariant |roisList| == i && |targetMatchsList| == i && |targetDeltasList| == i
        invariant forall j :: 0 <= j < i ==> roisList[j] == batch[j].rois
        invariant forall j :: 0 <= j < i ==> targetMatchsList[j] == batch[j].targetMatchs
        invariant forall j :: 0 <= j < i ==> targetDeltasList[j] == batch[j].targetDeltas
      {
        var t := ImageTarget(geo, targetMeans, targetStds, proposalsList, gtBoxes, gtClassIds, imgShapes, shuffles, i);
        assert t == batch[i];
        ghost var rois, matchs, deltas := roisList, targetMatchsList, targetDeltasList;
        roisList := roisList + [t.rois];
        targetMatchsList := targetMatchsList + [t.targetMatchs];
        targetDeltasList := targetDeltasList + [t.targetDeltas];
        forall j | 0 <= j <= i
          ensures roisList[j] == batch[j].rois && targetMatchsList[j] == batch[j].targetMatchs
          ensures targetDeltasList[j] == batch[j].targetDeltas
        {
          if j < i {
            assert roisList[j] == rois[j] && targetMatchsList[j] == matchs[j] && targetDeltasList[j] == deltas[j];
          } else {
            assert j == i;
          }
        }
      }
    }
  }
}
