/**
 * How the width of the default head compares with the width of the
 * preprocessed labels. The default head emits `k` columns; preprocessed
 * hard labels have as many columns as the largest label observed.
 */
module Shapes {
  import opened Wrappers
  import opened Network
  import opened Labels

  /**
   * With every default module the network emits `k` columns, while the
   * preprocessed hard labels have max(labels) columns: the two agree
   * exactly when the largest label observed equals the cardinality. With
   * classes numbered 0 .. k-1 the labels are narrower than the head, and
   * exactly one column narrower when class k-1 occurs.
   */
  lemma DefaultHeadVersusLabels(cfg: Config, k: nat, y: Tensor, hardToSoft: (seq<int>, int) -> Tensor)
    requires |cfg.layerOutDims| > 0
    requires WellFormed(y) && HardLabelsAreIndices(y) && HardToSoftShape(hardToSoft)
    requires IsHard(y) && y.dtype == Long && Count(y) > 0
    ensures ForwardAll(Assemble(cfg, k, None, None, None), cfg.layerOutDims[0]) == Some(k)
    ensures PreprocessY(y, hardToSoft).Ok?
    ensures PreprocessY(y, hardToSoft).value.width == k <==> Max(HardLabels(y)) == k
    ensures (forall i :: 0 <= i < Count(y) ==> HardLabels(y)[i] < k) ==>
      PreprocessY(y, hardToSoft).value.width < k &&
      (PreprocessY(y, hardToSoft).value.width == k - 1 <==> k - 1 in HardLabels(y))
  {
    DefaultNetworkWidths(cfg, k);
  }

  /**
   * Cardinality 3 with labels 0, 1, 2, 1 (classes numbered from 0): the
   * preprocessed labels have 2 columns while the default head emits 3.
   */
  lemma LabelsOneColumnShortOfHead(cfg: Config, hardToSoft: (seq<int>, int) -> Tensor)
    requires |cfg.layerOutDims| > 0
    requires HardToSoftShape(hardToSoft)
    ensures var y := Vector(Long, [0.0, 1.0, 2.0, 1.0]);
      WellFormed(y) && HardLabelsAreIndices(y) &&
      PreprocessY(y, hardToSoft).Ok? && PreprocessY(y, hardToSoft).value.width == 2 &&
      ForwardAll(Assemble(cfg, 3, None, None, None), cfg.layerOutDims[0]) == Some(3)
  {
    var y := Vector(Long, [0.0, 1.0, 2.0, 1.0]);
    assert HardLabels(y) == [0, 1, 2, 1];
    assert Max(HardLabels(y)) == 2 by {
      assert forall i :: 0 <= i < 4 ==> HardLabels(y)[i] <= 2;
      assert HardLabels(y)[2] == 2;
    }
    DefaultNetworkWidths(cfg, 3);
  }
}
