/**
 * The part of `get_rsi` that turns raw klines into the gain and loss series:
 * select the close column, take successive differences, and split every
 * difference by sign into a gain (`up`) and a loss (`down.abs()`).
 * The exponential smoothing and the RS division that follow are not modelled.
 */
module RsiInput {
  import opened Wrappers
  import opened Floats

  /** Number of column names assigned to the kline frame. */
  const KlineColumns: nat := 12
  /** Position of `close` among those names. */
  const CloseIndex: nat := 4

  datatype KlineError =
    | ColumnCountMismatch  // the frame's column count differs from the 12 names
    | CloseNotFloat        // a close field is not a float literal

  /** Every row has the twelve kline fields and there is at least one row. */
  predicate Tabular<T>(rows: seq<seq<T>>) {
    |rows| > 0 && forall i :: 0 <= i < |rows| ==> |rows[i]| == KlineColumns
  }

  /** `astype(float)` on the close column, in row order; `toFloat` is the string conversion. */
  function ConvertCloses<T>(rows: seq<seq<T>>, toFloat: T -> Option<real>): (r: Result<seq<real>, KlineError>)
    requires forall i :: 0 <= i < |rows| ==> |rows[i]| == KlineColumns
    ensures r.Success? <==> forall i :: 0 <= i < |rows| ==> toFloat(rows[i][CloseIndex]).Some?
    ensures r.Success? ==>
      |r.value| == |rows| &&
      forall i :: 0 <= i < |rows| ==> toFloat(rows[i][CloseIndex]) == Some(r.value[i])
    ensures r.Failure? ==> r.error == CloseNotFloat
  {
    if rows == [] then Success([])
    else
      match toFloat(rows[0][CloseIndex])
      case None => Failure(CloseNotFloat)
      case Some(x) =>
        match ConvertCloses(rows[1..], toFloat)
        case Failure(e) => Failure(e)
        case Success(xs) => Success([x] + xs)
  }

  /**
   * Build the frame, name its twelve columns, and take the close column as
   * floats. An empty response has no columns, so naming them fails as well.
   */
  function CloseColumn<T>(rows: seq<seq<T>>, toFloat: T -> Option<real>): (r: Result<seq<real>, KlineError>)
    ensures r == Failure(ColumnCountMismatch) <==> !Tabular(rows)
    ensures r.Success? <==>
      Tabular(rows) && forall i :: 0 <= i < |rows| ==> toFloat(rows[i][CloseIndex]).Some?
    ensures r.Success? ==>
      |r.value| == |rows| &&
      forall i :: 0 <= i < |rows| ==> toFloat(rows[i][CloseIndex]) == Some(r.value[i])
  {
    if !Tabular(rows) then Failure(ColumnCountMismatch)
    else ConvertCloses(rows, toFloat)
  }

  /** `diff()`: row 0 has no predecessor and becomes NaN. */
  function Diff(closes: seq<real>): (delta: seq<Float>)
    ensures |delta| == |closes|
    ensures |closes| > 0 ==> delta[0] == NaN
    ensures forall i :: 1 <= i < |delta| ==> delta[i].Num?
  {
    seq(|closes|, i requires 0 <= i < |closes| => if i == 0 then NaN else Num(closes[i] - closes[i - 1]))
  }

  /** The finite value of a difference, 0 for NaN. */
  function ValueOr0(d: Float): real {
    if d.Num? then d.v else 0.0
  }

  /** Cumulative sum of the differences starting from `first`: the inverse of `Diff`. */
  function Accumulate(first: real, delta: seq<Float>): (prices: seq<real>)
    requires |delta| > 0
    ensures |prices| == |delta| && prices[0] == first
  {
    if |delta| == 1 then [first]
    else
      var p := Accumulate(first, delta[..|delta| - 1]);
      p + [p[|p| - 1] + ValueOr0(delta[|delta| - 1])]
  }

  /** The differences lose nothing but the first price: accumulating them gives the closes back. */
  lemma {:induction false} DiffRoundTrip(closes: seq<real>)
    requires |closes| > 0
    ensures Accumulate(closes[0], Diff(closes)) == closes
  {
    var n := |closes|;
    if n > 1 {
      var prefix := closes[..n - 1];
      assert Diff(closes)[..n - 1] == Diff(prefix);
      DiffRoundTrip(prefix);
      assert closes == prefix + [closes[n - 1]];
    }
  }

  /** `up[up < 0] = 0` for one element. */
  function Gain(d: Float): Float {
    if d.Less(0.0) then Num(0.0) else d
  }

  /** `down[down > 0] = 0` for one element. */
  function ClampPositive(d: Float): Float {
    if d.Greater(0.0) then Num(0.0) else d
  }

  /** `down.abs()` after the mask. */
  function Loss(d: Float): Float {
    ClampPositive(d).Abs()
  }

  /**
   * A finite difference splits into a gain and a loss that are both
   * non-negative, of which at most one is nonzero, and whose difference is
   * the original value. NaN stays NaN in both.
   */
  lemma SignSplit(d: Float)
    ensures d.NaN? ==> Gain(d) == NaN && Loss(d) == NaN
    ensures d.Num? ==>
      Gain(d).Num? && Loss(d).Num? &&
      Gain(d).v >= 0.0 && Loss(d).v >= 0.0 &&
      Gain(d).v - Loss(d).v == d.v &&
      (Gain(d).v == 0.0 || Loss(d).v == 0.0)
  {
  }

  /** For every index after the first, the split of the close differences has the sign properties. */
  lemma GainLossOfCloses(closes: seq<real>, i: nat)
    requires 1 <= i < |closes|
    ensures Gain(Diff(closes)[i]).Num? && Loss(Diff(closes)[i]).Num?
    ensures Gain(Diff(closes)[i]).v >= 0.0 && Loss(Diff(closes)[i]).v >= 0.0
    ensures Gain(Diff(closes)[i]).v - Loss(Diff(closes)[i]).v == closes[i] - closes[i - 1]
    ensures Gain(Diff(closes)[i]).v == 0.0 || Loss(Diff(closes)[i]).v == 0.0
  {
    assert Diff(closes)[i] == Num(closes[i] - closes[i - 1]);
    SignSplit(Diff(closes)[i]);
  }

  /** The first row is excluded: its gain and loss are NaN. */
  lemma FirstRowIsNaN(closes: seq<real>)
    requires |closes| > 0
    ensures Gain(Diff(closes)[0]) == NaN && Loss(Diff(closes)[0]) == NaN
  {
    assert Diff(closes)[0] == NaN;
  }

  /** A non-decreasing series has no loss after the first row. */
  lemma NonDecreasingHasNoLoss(closes: seq<real>)
    requires forall i :: 1 <= i < |closes| ==> closes[i - 1] <= closes[i]
    ensures forall i :: 1 <= i < |closes| ==> Loss(Diff(closes)[i]) == Num(0.0)
  {
    forall i | 1 <= i < |closes| ensures Loss(Diff(closes)[i]) == Num(0.0) {
      assert Diff(closes)[i] == Num(closes[i] - closes[i - 1]);
    }
  }

  /** A non-increasing series has no gain after the first row. */
  lemma NonIncreasingHasNoGain(closes: seq<real>)
    requires forall i :: 1 <= i < |closes| ==> closes[i - 1] >= closes[i]
    ensures forall i :: 1 <= i < |closes| ==> Gain(Diff(closes)[i]) == Num(0.0)
  {
    forall i | 1 <= i < |closes| ensures Gain(Diff(closes)[i]) == Num(0.0) {
      assert Diff(closes)[i] == Num(closes[i] - closes[i - 1]);
    }
  }

  /** Masked assignment `up[up < 0] = 0`, in place. */
  method MaskNegatives(a: array<Float>)
    modifies a
    ensures forall i :: 0 <= i < a.Length ==> a[i] == Gain(old(a[i]))
  {
    for k := 0 to a.Length
      invariant forall i :: 0 <= i < k ==> a[i] == Gain(old(a[i]))
      invariant forall i :: k <= i < a.Length ==> a[i] == old(a[i])
    {
      if a[k].Less(0.0) {
        a[k] := Num(0.0);
      }
    }
  }

  /** Masked assignment `down[down > 0] = 0`, in place. */
  method MaskPositives(a: array<Float>)
    modifies a
    ensures forall i :: 0 <= i < a.Length ==> a[i] == ClampPositive(old(a[i]))
  {
    for k := 0 to a.Length
      invariant forall i :: 0 <= i < k ==> a[i] == ClampPositive(old(a[i]))
      invariant forall i :: k <= i < a.Length ==> a[i] == old(a[i])
    {
      if a[k].Greater(0.0) {
        a[k] := Num(0.0);
      }
    }
  }

  /**
   * Copy `delta` twice, mask the copies in place and take the absolute value
   * of the second: the series that feed the gain and loss averages.
   */
  method SplitGainLoss(delta: seq<Float>) returns (up: seq<Float>, loss: seq<Float>)
    ensures |up| == |delta| && |loss| == |delta|
    ensures forall i :: 0 <= i < |delta| ==> up[i] == Gain(delta[i]) && loss[i] == Loss(delta[i])
  {
    var u := new Float[|delta|](i requires 0 <= i < |delta| => delta[i]);
    var d := new Float[|delta|](i requires 0 <= i < |delta| => delta[i]);
    MaskNegatives(u);
    MaskPositives(d);
    up := u[..];
    var clamped := d[..];
    loss := seq(|clamped|, i requires 0 <= i < |clamped| => clamped[i].Abs());
  }

  /** Closes from the klines, then their gain and loss series. */
  method GainLossFromKlines<T>(rows: seq<seq<T>>, toFloat: T -> Option<real>)
    returns (r: Result<(seq<Float>, seq<Float>), KlineError>)
    ensures r.Success? <==> CloseColumn(rows, toFloat).Success?
    ensures r.Failure? ==> r == Failure(CloseColumn(rows, toFloat).error)
    ensures r.Success? ==>
      var closes := CloseColumn(rows, toFloat).value;
      |r.value.0| == |r.value.1| == |rows| &&
      r.value.0[0] == NaN && r.value.1[0] == NaN &&
      forall i :: 1 <= i < |rows| ==>
        r.value.0[i].Num? && r.value.1[i].Num? &&
        r.value.0[i].v >= 0.0 && r.value.1[i].v >= 0.0 &&
        r.value.0[i].v - r.value.1[i].v == closes[i] - closes[i - 1] &&
        (r.value.0[i].v == 0.0 || r.value.1[i].v == 0.0)
  {
    var column := CloseColumn(rows, toFloat);
    if column.Failure? {
      return Failure(column.error);
    }
    var closes := column.value;
    var delta := Diff(closes);
    var up, loss := SplitGainLoss(delta);
    FirstRowIsNaN(closes);
    forall i | 1 <= i < |rows|
      ensures up[i].Num? && loss[i].Num? && up[i].v >= 0.0 && loss[i].v >= 0.0
      ensures up[i].v - loss[i].v == closes[i] - closes[i - 1]
      ensures up[i].v == 0.0 || loss[i].v == 0.0
    {
      GainLossOfCloses(closes, i);
    }
    r := Success((up, loss));
  }
}
