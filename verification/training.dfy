/** The sliding-window builder of the training script: a series of rows is
    cut into overlapping windows of `seqLength` consecutive first-column
    values, each paired with the first-column value that follows it. The
    element type is a parameter, since values are only copied. */
module Training {

  /** Column 0 of a block of rows (`block[:, 0]` in numpy terms). */
  function Column<T>(rows: seq<seq<T>>): (c: seq<T>)
    requires forall i :: 0 <= i < |rows| ==> |rows[i]| > 0
    ensures |c| == |rows|
    ensures forall i :: 0 <= i < |rows| ==> c[i] == rows[i][0]
  {
    if rows == [] then [] else [rows[0][0]] + Column(rows[1..])
  }

  /** The number of windows a series of `n` rows yields. */
  function WindowCount(n: nat, seqLength: nat): nat {
    if n >= seqLength then n - seqLength else 0
  }

  /** create_sequences: for i from seqLength up to |data| - 1, the window
      is column 0 of rows [i - seqLength, i) and its target is column 0 of
      row i. Windows are appended in increasing start order. */
  method CreateSequences<T>(data: seq<seq<T>>, seqLength: nat) returns (x: seq<seq<T>>, y: seq<T>)
    requires forall i :: 0 <= i < |data| ==> |data[i]| > 0
    ensures |x| == |y| == WindowCount(|data|, seqLength)
    ensures forall k :: 0 <= k < |x| ==> |x[k]| == seqLength
    ensures forall k :: 0 <= k < |x| ==> x[k] == Column(data[k..k + seqLength])
    ensures forall k :: 0 <= k < |y| ==> y[k] == data[k + seqLength][0]
  {
    x, y := [], [];
    var i := seqLength;
    while i < |data|
      invariant |x| == |y|
      invariant i == seqLength + |x|
      invariant |x| <= WindowCount(|data|, seqLength)
      invariant forall k :: 0 <= k < |x| ==> x[k] == Column(data[k..k + seqLength])
      invariant forall k :: 0 <= k < |y| ==> y[k] == data[k + seqLength][0]
    {
      x := x + [Column(data[i - seqLength..i])];
      y := y + [data[i][0]];
      i := i + 1;
    }
  }

  /** Consecutive windows overlap in all but one element: window k + 1 is
      window k shifted left by one, with the target of window k appended. */
  lemma {:induction false} NextWindowShifts<T>(data: seq<seq<T>>, seqLength: nat, k: nat)
    requires forall i :: 0 <= i < |data| ==> |data[i]| > 0
    requires 0 < seqLength
    requires k + 1 < WindowCount(|data|, seqLength)
    ensures Column(data[k + 1..k + 1 + seqLength])
         == Column(data[k..k + seqLength])[1..] + [data[k + seqLength][0]]
  {
    var next, prev := Column(data[k + 1..k + 1 + seqLength]), Column(data[k..k + seqLength]);
    var shifted := prev[1..] + [data[k + seqLength][0]];
    assert |next| == |shifted|;
    forall j | 0 <= j < seqLength ensures next[j] == shifted[j] {
      assert next[j] == data[k + 1 + j][0];
      if j < seqLength - 1 {
        assert shifted[j] == prev[j + 1] == data[k + 1 + j][0];
      }
    }
  }

  /** The target of every window but the last one is the last element of
      the following window. */
  lemma TargetEndsNextWindow<T>(data: seq<seq<T>>, seqLength: nat, k: nat)
    requires forall i :: 0 <= i < |data| ==> |data[i]| > 0
    requires 0 < seqLength
    requires k + 1 < WindowCount(|data|, seqLength)
    ensures Column(data[k + 1..k + 1 + seqLength])[seqLength - 1] == data[k + seqLength][0]
  {
    NextWindowShifts(data, seqLength, k);
  }
}
