/**
 * The in-place FloatMatrix operations the tangent assemblies use, on
 * `array2<real>`.
 */
module DenseArrays {
  import opened Algebra

  /** The entries of an array as a matrix value (a copy, as `FloatMatrix m3d = answer`). */
  function Entries(a: array2<real>): (m: Matrix)
    reads a
    ensures IsMatrix(m, a.Length0, a.Length1)
    ensures forall i, j :: 0 <= i < a.Length0 && 0 <= j < a.Length1 ==> m[i][j] == a[i, j]
  {
    seq(a.Length0, i requires 0 <= i < a.Length0 reads a =>
      seq(a.Length1, j requires 0 <= j < a.Length1 reads a => a[i, j]))
  }

  /** An array whose every entry agrees with a matrix value has that value as its entries. */
  lemma EntriesAre(a: array2<real>, m: Matrix)
    requires IsMatrix(m, a.Length0, a.Length1)
    requires forall i, j :: 0 <= i < a.Length0 && 0 <= j < a.Length1 ==> a[i, j] == m[i][j]
    ensures Entries(a) == m
  {
    var e := Entries(a);
    forall i | 0 <= i < a.Length0 ensures e[i] == m[i] {
    }
  }

  /** answer := m, entry by entry. */
  method CopyInto(answer: array2<real>, m: Matrix)
    requires IsMatrix(m, answer.Length0, answer.Length1)
    modifies answer
    ensures forall i, j :: 0 <= i < answer.Length0 && 0 <= j < answer.Length1 ==> answer[i, j] == m[i][j]
  {
    var i := 0;
    while i < answer.Length0
      invariant 0 <= i <= answer.Length0
      invariant forall r, c :: 0 <= r < i && 0 <= c < answer.Length1 ==> answer[r, c] == m[r][c]
    {
      var j := 0;
      while j < answer.Length1
        invariant 0 <= j <= answer.Length1
        invariant forall r, c :: 0 <= r < i && 0 <= c < answer.Length1 ==> answer[r, c] == m[r][c]
        invariant forall c :: 0 <= c < j ==> answer[i, c] == m[i][c]
      {
        answer[i, j] := m[i][j];
        j := j + 1;
      }
      i := i + 1;
    }
  }

  /** FloatMatrix::times: every entry multiplied by c. */
  method ScaleInPlace(answer: array2<real>, c: real)
    modifies answer
    ensures forall i, j :: 0 <= i < answer.Length0 && 0 <= j < answer.Length1 ==> answer[i, j] == c * old(answer[i, j])
  {
    var i := 0;
    while i < answer.Length0
      invariant 0 <= i <= answer.Length0
      invariant forall r, col :: 0 <= r < i && 0 <= col < answer.Length1 ==> answer[r, col] == c * old(answer[r, col])
      invariant forall r, col :: i <= r < answer.Length0 && 0 <= col < answer.Length1 ==> answer[r, col] == old(answer[r, col])
    {
      var j := 0;
      while j < answer.Length1
        invariant 0 <= j <= answer.Length1
        invariant forall r, col :: 0 <= r < i && 0 <= col < answer.Length1 ==> answer[r, col] == c * old(answer[r, col])
        invariant forall col :: 0 <= col < j ==> answer[i, col] == c * old(answer[i, col])
        invariant forall r, col :: i <= r < answer.Length0 && 0 <= col < answer.Length1 && (r > i || col >= j) ==>
                    answer[r, col] == old(answer[r, col])
      {
        answer[i, j] := c * answer[i, j];
        j := j + 1;
      }
      i := i + 1;
    }
  }

  /** FloatMatrix::subtract: every entry decreased by the matching entry of m. */
  method SubtractInPlace(answer: array2<real>, m: Matrix)
    requires IsMatrix(m, answer.Length0, answer.Length1)
    modifies answer
    ensures forall i, j :: 0 <= i < answer.Length0 && 0 <= j < answer.Length1 ==> answer[i, j] == old(answer[i, j]) - m[i][j]
  {
    var i := 0;
    while i < answer.Length0
      invariant 0 <= i <= answer.Length0
      invariant forall r, col :: 0 <= r < i && 0 <= col < answer.Length1 ==> answer[r, col] == old(answer[r, col]) - m[r][col]
      invariant forall r, col :: i <= r < answer.Length0 && 0 <= col < answer.Length1 ==> answer[r, col] == old(answer[r, col])
    {
      var j := 0;
      while j < answer.Length1
        invariant 0 <= j <= answer.Length1
        invariant forall r, col :: 0 <= r < i && 0 <= col < answer.Length1 ==> answer[r, col] == old(answer[r, col]) - m[r][col]
        invariant forall col :: 0 <= col < j ==> answer[i, col] == old(answer[i, col]) - m[i][col]
        invariant forall r, col :: i <= r < answer.Length0 && 0 <= col < answer.Length1 && (r > i || col >= j) ==>
                    answer[r, col] == old(answer[r, col])
      {
        answer[i, j] := answer[i, j] - m[i][j];
        j := j + 1;
      }
      i := i + 1;
    }
  }
}
