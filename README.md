# ProposalTarget: ROI sampling and target assignment

This project models `ProposalTarget` from a TensorFlow Faster R-CNN implementation. It is the stage that turns the region proposals of each image into training targets for the second-stage (RCNN) heads:

1. Per image, remove the all-zero padding rows of the ground truth and the class ids paired with them.
2. Scale the ground truth by (H, W, H, W).
3. Compute the IoU of every proposal with every ground-truth box. Each proposal's best IoU decides whether it is a positive (best IoU ≥ 0.5) or a negative (best IoU < 0.5).
4. Keep at most 128 positives in shuffle order, then at most three negatives per kept positive in shuffle order.
5. Match each kept positive to its best ground-truth box.
6. Return three things: the ROIs (positives first), one class target per ROI (zero for negatives), and one regression delta per positive.

`build_targets` does this for every image of a batch and collects the results into three lists.

The model has four modules:

- `TensorOps` (`tensor_ops.dfy`): the tensor operations the code uses, stated on sequences. These are `tf.where`, `tf.gather`, `tf.boolean_mask`, slicing, `tf.pad`, `tf.reduce_max`, `tf.argmax` and the truncating casts.
- `Boxes` (`boxes.dfy`): boxes, deltas and image shapes, plus `trim_zeros`, the normalisation and the overlap matrix. IoU and `bbox2delta` are injected through a `Geometry` value.
- `BboxTarget` (`bbox_target.dfy`):
  - the configuration constants;
  - candidate selection, sampling and ground-truth assignment;
  - the per-image builder `BuildSingleTarget`, a pure function like `_build_single_target`;
  - the class `ProposalTarget`. Its constructor fixes the configuration. Its method `BuildTargets` loops over the batch, as the source does.
- `TargetProperties` (`target_properties.dfy`): the guarantees about one image's targets, for any overlaps and any shuffle. It ends with two concrete images.

`tf.random_shuffle` is replaced by a permutation supplied with the inputs: a `Shuffles` value per image. Every property holds for every permutation. The model follows the code wherever the docstrings say otherwise:

- `num_rcnn_deltas` is always 512, whatever value is passed to the constructor.
- `target_matchs` has one entry per ROI. The docstring of `_build_single_target` says one per positive ROI.
- The number of ROIs can equal the number of positive ROIs. The docstring of `build_targets` claims it is always greater: see `RoisCanEqualPositives`.

## Model

| member | source | states |
|---|---|---|
| TensorOps.Where | detection/core/bbox/bbox_target.py:90 | the positions at which the mask holds: each one is in range and set, every set position appears, and they are strictly increasing |
| TensorOps.Gather | detection/core/bbox/bbox_target.py:106-107 | one entry per index, entry k is xs[idx[k]] |
| TensorOps.BooleanMask | detection/core/bbox/bbox_target.py:81 | the entries of xs at the positions where the mask is set, in order, as many as the mask has set bits |
| TensorOps.Take | detection/core/bbox/bbox_target.py:97 | a prefix of length min(n, len(xs)) |
| TensorOps.PadZeros | detection/core/bbox/bbox_target.py:121 | xs unchanged as the prefix, followed by exactly n zeros |
| TensorOps.ReduceMax | detection/core/bbox/bbox_target.py:87 | minus infinity exactly for an empty row; otherwise an entry of the row that no entry exceeds |
| TensorOps.ArgMax | detection/core/bbox/bbox_target.py:111 | a position in the row holding the row's maximum, with every earlier entry strictly smaller |
| TensorOps.RowArgMax | detection/core/bbox/bbox_target.py:111 | one argmax per row |
| TensorOps.Trunc | detection/core/bbox/bbox_target.py:96 | truncation toward zero: the integer between x and zero that is less than one away from x |
| Boxes.TrimZeros | detection/core/bbox/bbox_target.py:80 | the mask marks exactly the non-zero rows; the trimmed list is the non-zero rows in order and contains every non-zero row |
| Boxes.Normalize | detection/core/bbox/bbox_target.py:83 | each coordinate times its image dimension gives the original coordinate; a box is zero exactly when its original is |
| Boxes.NormalizeAll | detection/core/bbox/bbox_target.py:83 | every box normalised, order and length kept |
| Boxes.Overlaps | detection/core/bbox/bbox_target.py:85 | one row per proposal and one column per ground-truth box, entry (i, j) being iou(a[i], b[j]) |
| Boxes.Bbox2Delta | detection/core/bbox/bbox_target.py:116 | one delta per aligned pair of boxes, each from the injected bbox2delta with the same means and stds |
| BboxTarget.PositiveCap | detection/core/bbox/bbox_target.py:21-22 | int(512 * 0.25) is 128 and is a quarter of num_rcnn_deltas |
| BboxTarget.NegativeQuota | detection/core/bbox/bbox_target.py:100-102 | int((1 / 0.25) * P) - P is exactly 3 P |
| BboxTarget.BestIous | detection/core/bbox/bbox_target.py:86-87 | one best IoU per proposal: for a non-empty row the entry at the row's argmax (the column anchor_iou_argmax picks at line 86), which no entry of the row exceeds; minus infinity exactly when the row is empty |
| BboxTarget.PositiveCandidates | detection/core/bbox/bbox_target.py:89-90 | i is a candidate if and only if proposal i's best IoU is at least the threshold; ascending |
| BboxTarget.NegativeCandidates | detection/core/bbox/bbox_target.py:92 | i is a candidate if and only if proposal i's best IoU is below the threshold (minus infinity included); ascending |
| BboxTarget.Shuffle | detection/core/bbox/bbox_target.py:97 | a reordering by the permutation: same length, entry k is xs[p[k]], no new element, distinctness kept |
| BboxTarget.SamplePositives | detection/core/bbox/bbox_target.py:96-98 | min(128, number of candidates) positives, in shuffle order, each with best IoU at least pos_iou_thr, no repeats |
| BboxTarget.SampleNegatives | detection/core/bbox/bbox_target.py:100-103 | min(3 P, number of candidates) negatives, in shuffle order, each with best IoU below neg_iou_thr, no repeats |
| BboxTarget.AssignGt | detection/core/bbox/bbox_target.py:110-111 | each kept positive gets the argmax column of its own overlap row, which holds that row's maximum (the value anchor_iou_argmax selects for the same row) |
| BboxTarget.Select | detection/core/bbox/bbox_target.py:85-111 | every kept index is a proposal, and every assignment is a ground-truth column of its positive's row |
| BboxTarget.BuildSingleTarget | detection/core/bbox/bbox_target.py:62-126 | the per-image builder itself; its outputs are specified by TargetProperties.RoiCounts, RoisPositivesFirst, TargetMatchsAligned, TargetDeltasAligned, EmptyGroundTruth and NoProposals |
| BboxTarget.ProposalTarget.constructor | detection/core/bbox/bbox_target.py:8-24 | stores the means and stds; num_rcnn_deltas is 512 whatever the argument, roi_positive_fraction 0.25 and both IoU thresholds 0.5 |
| BboxTarget.ProposalTarget.BuildTargets | detection/core/bbox/bbox_target.py:47-60 | three lists of batch-size length whose element i is the per-image target of image i |
| TargetProperties.CandidatesPartition | detection/core/bbox/bbox_target.py:89-92 | no proposal is both positive and negative when neg_iou_thr ≤ pos_iou_thr; with equal thresholds every proposal is exactly one of the two; it is neither exactly when its best IoU is in [neg_iou_thr, pos_iou_thr) |
| TargetProperties.SelectionCounts | detection/core/bbox/bbox_target.py:96-103 | P = min(128, positives), N = min(3 P, negatives), P + N ≤ 512, and no negatives without positives |
| TargetProperties.MatchedOverlapIsBest | detection/core/bbox/bbox_target.py:87-111 | each kept positive's overlap with its matched box is that proposal's best IoU, and it reaches pos_iou_thr |
| TargetProperties.SelectionDistinct | detection/core/bbox/bbox_target.py:97-103 | the kept positives are distinct, the kept negatives are distinct, and no proposal is kept as both |
| TargetProperties.RoiCounts | detection/core/bbox/bbox_target.py:43 | len(rois) = P + N = len(target_matchs), len(target_deltas) = P, and P ≤ len(rois) ≤ 512 |
| TargetProperties.RoisPositivesFirst | detection/core/bbox/bbox_target.py:106-118 | rois is the kept positives' proposals in shuffle order followed by the kept negatives' proposals in shuffle order |
| TargetProperties.TargetMatchsAligned | detection/core/bbox/bbox_target.py:113-121 | entry k < P is the class id paired, in the untrimmed input, with positive k's matched box; every later entry is 0 |
| TargetProperties.TargetDeltasAligned | detection/core/bbox/bbox_target.py:110-116 | one delta per positive; row k is bbox2delta of rois[k] and its matched box, normalised; the matched box is never a padding row |
| TargetProperties.EmptyGroundTruth | detection/core/bbox/bbox_target.py:80-103 | with only zero ground-truth rows, all three outputs are empty |
| TargetProperties.NoProposals | detection/core/bbox/bbox_target.py:85-121 | with no proposals, all three outputs are empty |
| TargetProperties.ImageTargetIsPerImage | detection/core/bbox/bbox_target.py:53-55 | element i of the batch result is the same for any two batches whose i-th inputs agree |
| TargetProperties.SingleGtOverlaps | detection/core/bbox/bbox_target.py:80-85 | with one non-zero ground-truth box, it is kept as column 0 and each proposal's row is its IoU with that box |
| TargetProperties.SelectTwoRows | detection/core/bbox/bbox_target.py:89-111 | overlaps [[a], [b]] with a positive and b negative select proposal 0 as positive matched to box 0 and proposal 1 as negative |
| TargetProperties.SelectOneRow | detection/core/bbox/bbox_target.py:89-111 | overlaps [[a]] with a positive select proposal 0 matched to box 0 and no negative |
| TargetProperties.OnePositiveOneNegativeSelection | detection/core/bbox/bbox_target.py:80-111 | one ground-truth box, one positive and one negative proposal: the selection is positive 0 matched to box 0, negative 1 |
| TargetProperties.MatchsOfOnePositiveOneNegative | detection/core/bbox/bbox_target.py:113-121 | a selection of positive 0 matched to the first kept row and negative 1 gives class targets [that row's class id, 0] |
| TargetProperties.OnePositiveOneNegativeRois | detection/core/bbox/bbox_target.py:118 | in that image the ROIs are [p0, p1] |
| TargetProperties.OnePositiveOneNegativeMatchs | detection/core/bbox/bbox_target.py:113-121 | in that image with ground-truth class 3 the class targets are [3, 0] |
| TargetProperties.OnePositiveOneNegativeDeltas | detection/core/bbox/bbox_target.py:116 | in that image the regression targets are the single delta of p0 against the normalised box |
| TargetProperties.RoisCanEqualPositives | detection/core/bbox/bbox_target.py:43 | one positive proposal and no negative gives len(rois) = len(target_deltas) = 1; the docstring's strict inequality does not hold |

## Left out

- IoU (`geometry.compute_overlaps`) is not part of this model. It is an injected function `Geometry.iou`, applied pairwise.
- `transforms.bbox2delta` is not part of this model. It is an injected function `Geometry.bbox2delta`, applied row by row.
- `tf.random_shuffle` is replaced by a permutation of the candidate positions, supplied with the inputs. The random draw itself is not modelled.
- `calc_img_shapes` (line 47) is not part of this model. `BuildTargets` receives the image shapes directly, and the batch size is their number.
- Image height and width are positive reals, so the normalisation at line 83 is a real division. A zero dimension is excluded.
- `trim_zeros` is modelled by what it returns. Its tensor implementation is not modelled.
- `gt_boxes` and `gt_class_ids` are per-image sequences whose lengths may differ from image to image. The padded tensor shape is not modelled.
- `tf.stop_gradient` (lines 123-124) and `tf.constant` (lines 19-20) do not change any value and are not modelled.
- Floating-point arithmetic is modelled as exact real arithmetic. IoU values and thresholds are not rounded to float32. The quota `float(P) * 4.0` is exact in float32 for every P ≤ 128.
- TensorOps.ArgMax: for ties it returns the first maximal position. TensorFlow does not specify which maximal position `tf.argmax` returns.
- `anchor_iou_argmax` (line 86) is never used by the code and is not modelled. TensorFlow may reject an argmax over an empty ground-truth axis. The model does not capture that failure, so `EmptyGroundTruth` describes the outputs as if lines 86 and 111 succeed.
