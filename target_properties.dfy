/**
 * What the ROI sampler and target builder guarantee, for every overlap
 * matrix, every ground truth and every pair of shuffles.
 */
module TargetProperties {
  import opened TensorOps
  import opened Boxes
  import opened BboxTarget

  /** The selection made for one image inside BuildSingleTarget. */
  function SelectionOf(geo: Geometry, proposals: seq<Box>, gtBoxes: seq<Box>, shape: ImgShape, sh: Shuffles): Selection
    requires ValidShuffles(ImageOverlaps(geo, proposals, gtBoxes, shape), sh)
  {
    Select(ImageOverlaps(geo, proposals, gtBoxes, shape), sh)
  }

  /** For each trimmed ground-truth column, the padded input row it came from. */
  function KeptRows(gtBoxes: seq<Box>): seq<nat> {
    Where(TrimZeros(gtBoxes).1)
  }

  // ---------------------------------------------------------------------
  // Thresholds, candidates and the selected index sets
  // ---------------------------------------------------------------------

  /**
   * The candidate sets never overlap when neg_iou_thr <= pos_iou_thr; with
   * equal thresholds every proposal is in exactly one of them; with unequal
   * ones a proposal whose best IoU lies in [neg_iou_thr, pos_iou_thr) is in neither.
   */
  lemma CandidatesPartition(best: seq<ExtReal>, posThr: real, negThr: real, i: nat)
    requires i < |best|
    ensures negThr <= posThr ==>
              !(i in PositiveCandidates(best, posThr) && i in NegativeCandidates(best, negThr))
    ensures posThr == negThr ==>
              (i in PositiveCandidates(best, posThr) <==> i !in NegativeCandidates(best, negThr))
    ensures (i !in PositiveCandidates(best, posThr) && i !in NegativeCandidates(best, negThr)) <==>
              (best[i].Finite? && negThr <= best[i].value < posThr)
  {
  }

  /**
   * The counts of one image: P = min(128, positive candidates),
   * N = min(3 P, negative candidates), so P + N <= 512 and no positives means
   * no negatives.
   */
  lemma SelectionCounts(overlaps: seq<seq<real>>, sh: Shuffles)
    requires ValidShuffles(overlaps, sh)
    ensures var s := Select(overlaps, sh);
            var best := BestIous(overlaps);
            |s.positives| == Min(128, |PositiveCandidates(best, PosIouThr)|) &&
            |s.negatives| == Min(3 * |s.positives|, |NegativeCandidates(best, NegIouThr)|) &&
            |s.positives| + |s.negatives| <= NumRcnnDeltas &&
            (s.positives == [] ==> s.negatives == [])
  {
  }

  /** No proposal is kept twice, and no proposal is kept both as a positive and as a negative. */
  lemma SelectionDistinct(overlaps: seq<seq<real>>, sh: Shuffles)
    requires ValidShuffles(overlaps, sh)
    ensures Distinct(Select(overlaps, sh).positives)
    ensures Distinct(Select(overlaps, sh).negatives)
    ensures var s := Select(overlaps, sh);
            forall j, k :: 0 <= j < |s.positives| && 0 <= k < |s.negatives| ==> s.positives[j] != s.negatives[k]
  {
  }

  /**
   * Every kept positive is matched to a ground-truth box whose overlap is the
   * proposal's best IoU, and that overlap reaches pos_iou_thr.
   */
  lemma MatchedOverlapIsBest(overlaps: seq<seq<real>>, sh: Shuffles)
    requires ValidShuffles(overlaps, sh)
    ensures var s := Select(overlaps, sh);
            forall k :: 0 <= k < |s.positives| ==>
              BestIous(overlaps)[s.positives[k]] == Finite(overlaps[s.positives[k]][s.assignment[k]]) &&
              overlaps[s.positives[k]][s.assignment[k]] >= PosIouThr
  {
  }

  // ---------------------------------------------------------------------
  // The targets of one image
  // ---------------------------------------------------------------------

  /** len(rois) = P + N, P <= len(rois) <= num_rcnn_deltas, and the three outputs have matching lengths. */
  lemma RoiCounts(geo: Geometry, targetMeans: Delta, targetStds: Delta, proposals: seq<Box>,
                  gtBoxes: seq<Box>, gtClassIds: seq<int>, shape: ImgShape, sh: Shuffles)
    requires |gtBoxes| == |gtClassIds|
    requires ValidShuffles(ImageOverlaps(geo, proposals, gtBoxes, shape), sh)
    ensures var t := BuildSingleTarget(geo, targetMeans, targetStds, proposals, gtBoxes, gtClassIds, shape, sh);
            var s := SelectionOf(geo, proposals, gtBoxes, shape, sh);
            |t.rois| == |s.positives| + |s.negatives| &&
            |t.targetDeltas| == |s.positives| &&
            |t.targetMatchs| == |t.rois| &&
            |t.targetDeltas| <= |t.rois| <= NumRcnnDeltas
  {
    SelectionCounts(ImageOverlaps(geo, proposals, gtBoxes, shape), sh);
  }

  /** rois lists the kept positives first, then the kept negatives, each in shuffle order. */
  lemma RoisPositivesFirst(geo: Geometry, targetMeans: Delta, targetStds: Delta, proposals: seq<Box>,
                           gtBoxes: seq<Box>, gtClassIds: seq<int>, shape: ImgShape, sh: Shuffles)
    requires |gtBoxes| == |gtClassIds|
    requires ValidShuffles(ImageOverlaps(geo, proposals, gtBoxes, shape), sh)
    ensures var t := BuildSingleTarget(geo, targetMeans, targetStds, proposals, gtBoxes, gtClassIds, shape, sh);
            var s := SelectionOf(geo, proposals, gtBoxes, shape, sh);
            |t.rois| == |s.positives| + |s.negatives| &&
            (forall k :: 0 <= k < |s.positives| ==> t.rois[k] == proposals[s.positives[k]]) &&
            forall k :: 0 <= k < |s.negatives| ==> t.rois[|s.positives| + k] == proposals[s.negatives[k]]
  {
    var t := BuildSingleTarget(geo, targetMeans, targetStds, proposals, gtBoxes, gtClassIds, shape, sh);
    var s := SelectionOf(geo, proposals, gtBoxes, shape, sh);
    assert t.rois == Gather(proposals, s.positives) + Gather(proposals, s.negatives);
  }

  /**
   * target_matchs has one entry per ROI: for the k-th positive, the class id
   * paired with its assigned ground-truth box in the padded input; for every
   * negative, the background class 0.
   */
  lemma TargetMatchsAligned(geo: Geometry, targetMeans: Delta, targetStds: Delta, proposals: seq<Box>,
                            gtBoxes: seq<Box>, gtClassIds: seq<int>, shape: ImgShape, sh: Shuffles)
    requires |gtBoxes| == |gtClassIds|
    requires ValidShuffles(ImageOverlaps(geo, proposals, gtBoxes, shape), sh)
    ensures var t := BuildSingleTarget(geo, targetMeans, targetStds, proposals, gtBoxes, gtClassIds, shape, sh);
            var s := SelectionOf(geo, proposals, gtBoxes, shape, sh);
            var kept := KeptRows(gtBoxes);
            |t.targetMatchs| == |t.rois| &&
            (forall k :: 0 <= k < |s.positives| ==>
               s.assignment[k] < |kept| && t.targetMatchs[k] == gtClassIds[kept[s.assignment[k]]]) &&
            forall k :: |s.positives| <= k < |t.targetMatchs| ==> t.targetMatchs[k] == Background
  {
  }

  /**
   * target_deltas has one row per positive: row k is bbox2delta of rois[k]
   * and the normalised ground-truth box assigned to it, which is a non-zero
   * row of the padded input (padding is never matched).
   */
  lemma TargetDeltasAligned(geo: Geometry, targetMeans: Delta, targetStds: Delta, proposals: seq<Box>,
                            gtBoxes: seq<Box>, gtClassIds: seq<int>, shape: ImgShape, sh: Shuffles)
    requires |gtBoxes| == |gtClassIds|
    requires ValidShuffles(ImageOverlaps(geo, proposals, gtBoxes, shape), sh)
    ensures var t := BuildSingleTarget(geo, targetMeans, targetStds, proposals, gtBoxes, gtClassIds, shape, sh);
            var s := SelectionOf(geo, proposals, gtBoxes, shape, sh);
            var kept := KeptRows(gtBoxes);
            |t.targetDeltas| == |s.positives| &&
            forall k :: 0 <= k < |s.positives| ==>
              s.assignment[k] < |kept| && kept[s.assignment[k]] < |gtBoxes| &&
              !IsZeroBox(gtBoxes[kept[s.assignment[k]]]) &&
              t.targetDeltas[k] == geo.bbox2delta(t.rois[k], Normalize(gtBoxes[kept[s.assignment[k]]], shape),
                                                  targetMeans, targetStds)
  {
    var t := BuildSingleTarget(geo, targetMeans, targetStds, proposals, gtBoxes, gtClassIds, shape, sh);
    var s := SelectionOf(geo, proposals, gtBoxes, shape, sh);
    var trim := TrimZeros(gtBoxes);
    var gt := NormalizeAll(trim.0, shape);
    var positiveRois := Gather(proposals, s.positives);
    var roiGtBoxes := Gather(gt, s.assignment);
    assert t.targetDeltas == Bbox2Delta(geo, positiveRois, roiGtBoxes, targetMeans, targetStds);
    forall k | 0 <= k < |s.positives|
      ensures s.assignment[k] < |KeptRows(gtBoxes)| && KeptRows(gtBoxes)[s.assignment[k]] < |gtBoxes| &&
              !IsZeroBox(gtBoxes[KeptRows(gtBoxes)[s.assignment[k]]]) &&
              t.targetDeltas[k] == geo.bbox2delta(t.rois[k], Normalize(gtBoxes[KeptRows(gtBoxes)[s.assignment[k]]], shape),
                                                  targetMeans, targetStds)
    {
      var a := s.assignment[k];
      assert roiGtBoxes[k] == gt[a] == Normalize(trim.0[a], shape);
      assert trim.0[a] == gtBoxes[KeptRows(gtBoxes)[a]];
      assert t.rois[k] == positiveRois[k];
    }
  }

  /** With no ground truth left after trimming, no proposal is positive, so nothing at all is kept. */
  lemma EmptyGroundTruth(geo: Geometry, targetMeans: Delta, targetStds: Delta, proposals: seq<Box>,
                         gtBoxes: seq<Box>, gtClassIds: seq<int>, shape: ImgShape, sh: Shuffles)
    requires |gtBoxes| == |gtClassIds|
    requires forall i :: 0 <= i < |gtBoxes| ==> IsZeroBox(gtBoxes[i])
    requires ValidShuffles(ImageOverlaps(geo, proposals, gtBoxes, shape), sh)
    ensures BuildSingleTarget(geo, targetMeans, targetStds, proposals, gtBoxes, gtClassIds, shape, sh) == Targets([], [], [])
  {
    var overlaps := ImageOverlaps(geo, proposals, gtBoxes, shape);
    var s := Select(overlaps, sh);
    assert s.positives == [];
    SelectionCounts(overlaps, sh);
  }

  /** Without proposals, all three outputs are empty. */
  lemma NoProposals(geo: Geometry, targetMeans: Delta, targetStds: Delta,
                    gtBoxes: seq<Box>, gtClassIds: seq<int>, shape: ImgShape, sh: Shuffles)
    requires |gtBoxes| == |gtClassIds|
    requires ValidShuffles(ImageOverlaps(geo, [], gtBoxes, shape), sh)
    ensures BuildSingleTarget(geo, targetMeans, targetStds, [], gtBoxes, gtClassIds, shape, sh) == Targets([], [], [])
  {
  }

  /** Element i of a batch depends on the inputs of image i only. */
  lemma ImageTargetIsPerImage(geo: Geometry, targetMeans: Delta, targetStds: Delta,
                              proposalsList: seq<seq<Box>>, gtBoxes: seq<seq<Box>>, gtClassIds: seq<seq<int>>,
                              imgShapes: seq<ImgShape>, shuffles: seq<Shuffles>,
                              proposalsList': seq<seq<Box>>, gtBoxes': seq<seq<Box>>, gtClassIds': seq<seq<int>>,
                              imgShapes': seq<ImgShape>, shuffles': seq<Shuffles>, i: nat, i': nat)
    requires ValidBatch(geo, proposalsList, gtBoxes, gtClassIds, imgShapes, shuffles) && i < |imgShapes|
    requires ValidBatch(geo, proposalsList', gtBoxes', gtClassIds', imgShapes', shuffles') && i' < |imgShapes'|
    requires proposalsList[i] == proposalsList'[i'] && gtBoxes[i] == gtBoxes'[i'] && gtClassIds[i] == gtClassIds'[i']
    requires imgShapes[i] == imgShapes'[i'] && shuffles[i] == shuffles'[i']
    ensures ImageTarget(geo, targetMeans, targetStds, proposalsList, gtBoxes, gtClassIds, imgShapes, shuffles, i) ==
            ImageTarget(geo, targetMeans, targetStds, proposalsList', gtBoxes', gtClassIds', imgShapes', shuffles', i')
  {
  }

  // ---------------------------------------------------------------------
  // Two concrete images
  // ---------------------------------------------------------------------

  /** With a single non-zero ground-truth box, each proposal's overlap row holds its IoU with that box alone. */
  lemma SingleGtOverlaps(geo: Geometry, proposals: seq<Box>, g: Box, shape: ImgShape)
    requires !IsZeroBox(g)
    ensures KeptRows([g]) == [0]
    ensures var overlaps := ImageOverlaps(geo, proposals, [g], shape);
            |overlaps| == |proposals| &&
            forall i :: 0 <= i < |proposals| ==> overlaps[i] == [geo.iou(proposals[i], Normalize(g, shape))]
  {
    assert TrimZeros([g]).1 == [true];
    assert TrimZeros([g]).0 == [g];
    assert NormalizedGt([g], shape) == [Normalize(g, shape)];
  }

  lemma WhereOfOne(m0: bool)
    ensures Where([m0]) == if m0 then [0] else []
  {
    assert [m0][..0] == [];
  }

  lemma WhereOfTwo(m0: bool, m1: bool)
    ensures Where([m0, m1]) == (if m0 then [0] else []) + (if m1 then [1] else [])
  {
    assert [m0, m1][..1] == [m0];
    WhereOfOne(m0);
  }

  /** A positive and a negative best IoU: the first proposal is the positive candidate, the second the negative one. */
  lemma TwoCandidates(a: real, b: real)
    requires a >= PosIouThr && b < NegIouThr
    ensures PositiveCandidates([Finite(a), Finite(b)], PosIouThr) == [0]
    ensures NegativeCandidates([Finite(a), Finite(b)], NegIouThr) == [1]
  {
    var best := [Finite(a), Finite(b)];
    WhereOfTwo(true, false);
    WhereOfTwo(false, true);
    assert seq(|best|, i requires 0 <= i < |best| => AtLeast(best[i], PosIouThr)) == [true, false];
    assert seq(|best|, i requires 0 <= i < |best| => Below(best[i], NegIouThr)) == [false, true];
  }

  /** A single positive best IoU: the proposal is the positive candidate and there is no negative one. */
  lemma OneCandidate(a: real)
    requires a >= PosIouThr
    ensures PositiveCandidates([Finite(a)], PosIouThr) == [0]
    ensures NegativeCandidates([Finite(a)], NegIouThr) == []
  {
    var best := [Finite(a)];
    WhereOfOne(true);
    WhereOfOne(false);
    assert seq(|best|, i requires 0 <= i < |best| => AtLeast(best[i], PosIouThr)) == [true];
    assert seq(|best|, i requires 0 <= i < |best| => Below(best[i], NegIouThr)) == [false];
  }

  /** A single positive candidate is sampled as it is. */
  lemma SampleOnePositive(best: seq<ExtReal>, c: nat)
    requires PositiveCandidates(best, PosIouThr) == [c]
    ensures IsPermutation([0], 1)
    ensures SamplePositives(best, [0]) == [c]
  {
  }

  /** A single negative candidate is sampled as it is when at least one positive was kept. */
  lemma SampleOneNegative(best: seq<ExtReal>, c: nat, p: nat)
    requires NegativeCandidates(best, NegIouThr) == [c]
    requires p >= 1
    ensures IsPermutation([0], 1)
    ensures SampleNegatives(best, [0], p) == [c]
  {
  }

  /** Without negative candidates no negative is sampled. */
  lemma SampleNoNegative(best: seq<ExtReal>, p: nat)
    requires NegativeCandidates(best, NegIouThr) == []
    ensures IsPermutation([], 0)
    ensures SampleNegatives(best, [], p) == []
  {
  }

  /** A positive whose overlap row has one entry is matched to that box. */
  lemma AssignSingleColumn(overlaps: seq<seq<real>>, c: nat)
    requires c < |overlaps| && |overlaps[c]| == 1
    ensures AssignGt(overlaps, [c]) == [0]
  {
  }

  /** The selection for overlaps [[a], [b]] with a positive and b negative: proposal 0 matched to box 0, proposal 1 negative. */
  lemma SelectTwoRows(a: real, b: real)
    requires a >= PosIouThr && b < NegIouThr
    ensures ValidShuffles([[a], [b]], Shuffles([0], [0]))
    ensures Select([[a], [b]], Shuffles([0], [0])) == Selection([0], [1], [0])
  {
    var best := BestIous([[a], [b]]);
    assert best == [Finite(a), Finite(b)];
    TwoCandidates(a, b);
    SampleOnePositive(best, 0);
    SampleOneNegative(best, 1, 1);
    AssignSingleColumn([[a], [b]], 0);
  }

  /** The selection for overlaps [[a]] with a positive: proposal 0 matched to box 0 and no negative. */
  lemma SelectOneRow(a: real)
    requires a >= PosIouThr
    ensures ValidShuffles([[a]], Shuffles([0], []))
    ensures Select([[a]], Shuffles([0], [])) == Selection([0], [], [0])
  {
    var best := BestIous([[a]]);
    assert best == [Finite(a)];
    OneCandidate(a);
    SampleOnePositive(best, 0);
    SampleNoNegative(best, 1);
    AssignSingleColumn([[a]], 0);
  }

  /** The selection for the image of OnePositiveOneNegative. */
  lemma OnePositiveOneNegativeSelection(geo: Geometry, p0: Box, p1: Box, g: Box, shape: ImgShape)
    requires !IsZeroBox(g)
    requires geo.iou(p0, Normalize(g, shape)) >= PosIouThr
    requires geo.iou(p1, Normalize(g, shape)) < NegIouThr
    ensures KeptRows([g]) == [0]
    ensures ValidShuffles(ImageOverlaps(geo, [p0, p1], [g], shape), Shuffles([0], [0]))
    ensures SelectionOf(geo, [p0, p1], [g], shape, Shuffles([0], [0])) == Selection([0], [1], [0])
  {
    SingleGtOverlaps(geo, [p0, p1], g, shape);
    var a, b := geo.iou(p0, Normalize(g, shape)), geo.iou(p1, Normalize(g, shape));
    assert ImageOverlaps(geo, [p0, p1], [g], shape) == [[a], [b]];
    SelectTwoRows(a, b);
  }

  /** When the selection is positive 0 matched to kept row 0 and negative 1, the class targets are that row's class and 0. */
  lemma MatchsOfOnePositiveOneNegative(geo: Geometry, targetMeans: Delta, targetStds: Delta, proposals: seq<Box>,
                                       gtBoxes: seq<Box>, gtClassIds: seq<int>, shape: ImgShape, sh: Shuffles)
    requires |gtBoxes| == |gtClassIds|
    requires ValidShuffles(ImageOverlaps(geo, proposals, gtBoxes, shape), sh)
    requires SelectionOf(geo, proposals, gtBoxes, shape, sh) == Selection([0], [1], [0])
    requires KeptRows(gtBoxes) == [0]
    ensures BuildSingleTarget(geo, targetMeans, targetStds, proposals, gtBoxes, gtClassIds, shape, sh).targetMatchs ==
            [gtClassIds[0], Background]
  {
    RoiCounts(geo, targetMeans, targetStds, proposals, gtBoxes, gtClassIds, shape, sh);
    TargetMatchsAligned(geo, targetMeans, targetStds, proposals, gtBoxes, gtClassIds, shape, sh);
  }

  /**
   * One ground-truth box of class 3 and two proposals, the first overlapping
   * it by at least pos_iou_thr and the second by less than neg_iou_thr: the
   * ROIs are both proposals, positive first, the class targets are [3, 0]
   * and there is one regression target, for the first proposal.
   */
  lemma OnePositiveOneNegativeRois(geo: Geometry, targetMeans: Delta, targetStds: Delta,
                               p0: Box, p1: Box, g: Box, shape: ImgShape)
    requires !IsZeroBox(g)
    requires geo.iou(p0, Normalize(g, shape)) >= PosIouThr
    requires geo.iou(p1, Normalize(g, shape)) < NegIouThr
    ensures ValidShuffles(ImageOverlaps(geo, [p0, p1], [g], shape), Shuffles([0], [0]))
    ensures BuildSingleTarget(geo, targetMeans, targetStds, [p0, p1], [g], [3], shape, Shuffles([0], [0])).rois == [p0, p1]
  {
    OnePositiveOneNegativeSelection(geo, p0, p1, g, shape);
    RoisPositivesFirst(geo, targetMeans, targetStds, [p0, p1], [g], [3], shape, Shuffles([0], [0]));
  }

  lemma OnePositiveOneNegativeMatchs(geo: Geometry, targetMeans: Delta, targetStds: Delta,
                               p0: Box, p1: Box, g: Box, shape: ImgShape)
    requires !IsZeroBox(g)
    requires geo.iou(p0, Normalize(g, shape)) >= PosIouThr
    requires geo.iou(p1, Normalize(g, shape)) < NegIouThr
    ensures ValidShuffles(ImageOverlaps(geo, [p0, p1], [g], shape), Shuffles([0], [0]))
    ensures BuildSingleTarget(geo, targetMeans, targetStds, [p0, p1], [g], [3], shape, Shuffles([0], [0])).targetMatchs == [3, Background]
  {
    OnePositiveOneNegativeSelection(geo, p0, p1, g, shape);
    MatchsOfOnePositiveOneNegative(geo, targetMeans, targetStds, [p0, p1], [g], [3], shape, Shuffles([0], [0]));
  }

  lemma OnePositiveOneNegativeDeltas(geo: Geometry, targetMeans: Delta, targetStds: Delta,
                               p0: Box, p1: Box, g: Box, shape: ImgShape)
    requires !IsZeroBox(g)
    requires geo.iou(p0, Normalize(g, shape)) >= PosIouThr
    requires geo.iou(p1, Normalize(g, shape)) < NegIouThr
    ensures ValidShuffles(ImageOverlaps(geo, [p0, p1], [g], shape), Shuffles([0], [0]))
    ensures BuildSingleTarget(geo, targetMeans, targetStds, [p0, p1], [g], [3], shape, Shuffles([0], [0])).targetDeltas ==
            [geo.bbox2delta(p0, Normalize(g, shape), targetMeans, targetStds)]
  {
    OnePositiveOneNegativeSelection(geo, p0, p1, g, shape);
    TargetDeltasAligned(geo, targetMeans, targetStds, [p0, p1], [g], [3], shape, Shuffles([0], [0]));
  }

  /**
   * An image whose only proposal is positive keeps no negative: there are as
   * many ROIs as positive ROIs, so len(rois) > num_positive_rois does not
   * hold in general; len(rois) >= num_positive_rois is what RoiCounts proves.
   */
  lemma RoisCanEqualPositives(geo: Geometry, targetMeans: Delta, targetStds: Delta, p0: Box, g: Box, shape: ImgShape)
    requires !IsZeroBox(g)
    requires geo.iou(p0, Normalize(g, shape)) >= PosIouThr
    ensures ValidShuffles(ImageOverlaps(geo, [p0], [g], shape), Shuffles([0], []))
    ensures var t := BuildSingleTarget(geo, targetMeans, targetStds, [p0], [g], [7], shape, Shuffles([0], []));
            |t.rois| == |t.targetDeltas| == 1
  {
    SingleGtOverlaps(geo, [p0], g, shape);
    var a := geo.iou(p0, Normalize(g, shape));
    assert ImageOverlaps(geo, [p0], [g], shape) == [[a]];
    SelectOneRow(a);
    RoiCounts(geo, targetMeans, targetStds, [p0], [g], [7], shape, Shuffles([0], []));
  }
}
