/**
 * Label preprocessing of the end model (`_preprocess_Y` in
 * metal/end_model/end_model.py): hard labels become soft labels without
 * their class-0 column; soft labels pass through.
 */
module Labels {
  import opened Wrappers

  datatype DType = Long | Float

  /** A 1-D label tensor, or a 2-D one with `width` columns (the width is kept for zero rows). */
  datatype Tensor =
    | Vector(dtype: DType, entries: seq<real>)
    | Matrix(dtype: DType, rows: seq<seq<real>>, width: nat)

  /** The errors the preprocessing raises. */
  datatype LabelError =
    | NotLongTensor   // hard labels that are not a long (integer) tensor
    | EmptyLabels     // the maximum of an empty label tensor

  predicate Integral(x: real) {
    x == x.Floor as real
  }

  /** Every row has the declared width, and a long tensor holds only integers. */
  predicate WellFormed(t: Tensor) {
    match t
    case Vector(dtype, es) =>
      dtype == Long ==> forall i :: 0 <= i < |es| ==> Integral(es[i])
    case Matrix(dtype, rows, width) =>
      (forall i :: 0 <= i < |rows| ==> |rows[i]| == width) &&
      (dtype == Long ==> forall i, j :: 0 <= i < |rows| && 0 <= j < width ==> Integral(rows[i][j]))
  }

  /** An n-by-c matrix. */
  predicate Shaped(t: Tensor, n: nat, c: nat) {
    t.Matrix? && |t.rows| == n && t.width == c && forall i :: 0 <= i < n ==> |t.rows[i]| == c
  }

  /** Labels given as one value per example: a 1-D tensor or a single-column one. */
  predicate IsHard(t: Tensor) {
    t.Vector? || t.width == 1
  }

  function Count(t: Tensor): nat {
    if t.Vector? then |t.entries| else |t.rows|
  }

  /** The hard labels as integers, one per example. */
  function HardLabels(t: Tensor): (ys: seq<int>)
    requires WellFormed(t) && IsHard(t)
    ensures |ys| == Count(t)
  {
    match t
    case Vector(_, es) => seq(|es|, i requires 0 <= i < |es| => es[i].Floor)
    case Matrix(_, rows, _) => seq(|rows|, i requires 0 <= i < |rows| => rows[i][0].Floor)
  }

  /** The largest label. */
  function Max(ys: seq<int>): (m: int)
    requires |ys| > 0
    ensures m in ys
    ensures forall i :: 0 <= i < |ys| ==> ys[i] <= m
  {
    if |ys| == 1 then ys[0]
    else
      var rest := Max(ys[1..]);
      if ys[0] < rest then rest else ys[0]
  }

  /**
   * The width assumed of `hard_to_soft(ys, k)`, which is not part of this
   * model: one row per label and one column per class 0 .. k.
   */
  ghost predicate HardToSoftShape(hardToSoft: (seq<int>, int) -> Tensor) {
    forall ys: seq<int>, k: int :: 0 <= k ==> Shaped(hardToSoft(ys, k), |ys|, k + 1)
  }

  /** Hard labels are class indices, so never negative. */
  predicate HardLabelsAreIndices(t: Tensor)
    requires WellFormed(t)
  {
    IsHard(t) && t.dtype == Long ==> forall i :: 0 <= i < Count(t) ==> HardLabels(t)[i] >= 0
  }

  /** `t[:, 1:]`: every row without its first column. */
  function DropFirstColumn(t: Tensor): (r: Tensor)
    requires t.Matrix? && Shaped(t, |t.rows|, t.width)
    ensures r.Matrix? && |r.rows| == |t.rows| && r.dtype == t.dtype
    ensures Shaped(r, |t.rows|, if t.width == 0 then 0 else t.width - 1)
    ensures forall i, j :: 0 <= i < |t.rows| && 1 <= j < t.width ==> r.rows[i][j - 1] == t.rows[i][j]
  {
    Matrix(t.dtype, seq(|t.rows|, i requires 0 <= i < |t.rows| => if |t.rows[i]| == 0 then [] else t.rows[i][1..]),
           if t.width == 0 then 0 else t.width - 1)
  }

  /**
   * Converts labels to soft labels if necessary. Labels with more than one
   * column are returned unchanged; hard labels are expanded over classes
   * 0 .. max(labels) by `hardToSoft` and lose the class-0 column.
   */
  function PreprocessY(y: Tensor, hardToSoft: (seq<int>, int) -> Tensor): (r: Result<Tensor, LabelError>)
    requires WellFormed(y) && HardLabelsAreIndices(y)
    requires HardToSoftShape(hardToSoft)
    ensures !IsHard(y) ==> r == Ok(y)
    ensures IsHard(y) && y.dtype != Long ==> r == Err(NotLongTensor)
    ensures IsHard(y) && y.dtype == Long && Count(y) == 0 ==> r == Err(EmptyLabels)
    ensures IsHard(y) && y.dtype == Long && Count(y) > 0 ==>
      var ys := HardLabels(y);
      var soft := hardToSoft(ys, Max(ys));
      r.Ok? && Shaped(r.value, Count(y), Max(ys)) &&
      forall i, j :: 0 <= i < Count(y) && 0 <= j < Max(ys) ==> r.value.rows[i][j] == soft.rows[i][j + 1]
  {
    if !IsHard(y) then Ok(y)
    else if y.dtype != Long then Err(NotLongTensor)
    else if Count(y) == 0 then Err(EmptyLabels)
    else
      var ys := HardLabels(y);
      Ok(DropFirstColumn(hardToSoft(ys, Max(ys))))
  }
}
