/**
 * Storage of second-order 3x3 tensors as 9-component vectors and of
 * fourth-order tensors as 9x9 matrices, in OOFEM's ordering
 * 11, 22, 33, 23, 13, 12, 32, 31, 21 (giveVI), with 0-based indices here.
 */
module TensorIndex {
  import opened Algebra
  import opened DenseArrays

  /** The position of tensor component (i, j) in the vector form. */
  function VI(i: nat, j: nat): (k: nat)
    requires i < 3 && j < 3
    ensures k < 9
    ensures Row(k) == i && Col(k) == j
    ensures (k < 3) == (i == j)
  {
    if i == j then i
    else if i == 1 && j == 2 then 3
    else if i == 0 && j == 2 then 4
    else if i == 0 && j == 1 then 5
    else if i == 2 && j == 1 then 6
    else if i == 2 && j == 0 then 7
    else 8
  }

  /** The tensor row stored at position k. */
  function Row(k: nat): (i: nat)
    requires k < 9
    ensures i < 3
  {
    [0, 1, 2, 1, 0, 0, 2, 2, 1][k]
  }

  /** The tensor column stored at position k. */
  function Col(k: nat): (j: nat)
    requires k < 9
    ensures j < 3
  {
    [0, 1, 2, 2, 2, 1, 1, 0, 0][k]
  }

  /** Every position holds exactly one component: VI is a bijection onto 0..8. */
  lemma VIOnto(k: nat)
    requires k < 9
    ensures Row(k) < 3 && Col(k) < 3 && VI(Row(k), Col(k)) == k
  {
  }

  /** Distinct components are stored at distinct positions. */
  lemma VIInjective(i: nat, j: nat, m: nat, n: nat)
    requires i < 3 && j < 3 && m < 3 && n < 3
    ensures VI(i, j) == VI(m, n) <==> i == m && j == n
  {
  }

  /** The vector form of the identity, the `delta` array of compute_dC_dF. */
  const Delta: Vector := [1.0, 1.0, 1.0, 0.0, 0.0, 0.0, 0.0, 0.0, 0.0]

  /** Delta read through VI is the Kronecker delta. */
  lemma DeltaIsKronecker(i: nat, j: nat)
    requires i < 3 && j < 3
    ensures Delta[VI(i, j)] == (if i == j then 1.0 else 0.0)
  {
  }

  /** Component (i, j) of a tensor in vector form. */
  function Comp(v: Vector, i: nat, j: nat): real
    requires |v| == 9 && i < 3 && j < 3
  {
    v[VI(i, j)]
  }

  /** The 3x3 matrix of a tensor stored in vector form (FloatMatrix::beMatrixForm). */
  function MatrixForm(v: Vector): (m: Matrix)
    requires |v| == 9
    ensures IsMatrix(m, 3, 3)
    ensures forall i, j :: 0 <= i < 3 && 0 <= j < 3 ==> m[i][j] == v[VI(i, j)]
  {
    seq(3, i requires 0 <= i < 3 => seq(3, j requires 0 <= j < 3 => v[VI(i, j)]))
  }

  /** The vector form of a 3x3 matrix (FloatArray::beVectorForm). */
  function VectorForm(m: Matrix): (v: Vector)
    requires IsMatrix(m, 3, 3)
    ensures |v| == 9
    ensures forall i, j :: 0 <= i < 3 && 0 <= j < 3 ==> v[VI(i, j)] == m[i][j]
  {
    seq(9, k requires 0 <= k < 9 => VIOnto(k); m[Row(k)][Col(k)])
  }

  /** The two forms are mutually inverse. */
  lemma {:induction false} FormsRoundTrip(v: Vector, m: Matrix)
    requires |v| == 9 && IsMatrix(m, 3, 3)
    ensures VectorForm(MatrixForm(v)) == v
    ensures MatrixForm(VectorForm(m)) == m
  {
    var w := VectorForm(MatrixForm(v));
    forall k | 0 <= k < 9 ensures w[k] == v[k] {
      VIOnto(k);
    }
    var n := MatrixForm(VectorForm(m));
    forall i | 0 <= i < 3 ensures n[i] == m[i] {
      assert forall j :: 0 <= j < 3 ==> n[i][j] == m[i][j];
    }
  }

  /**
   * The plane-strain components 11, 22, 33, 12, 21: the five positions the
   * reduced forms keep, in their order.
   */
  const PlaneStrainPositions: seq<nat> := [0, 1, 2, 5, 8]

  /** The kept positions are exactly the components without an out-of-plane index, except 33. */
  lemma PlaneStrainPositionsAreInPlane()
    ensures PlaneStrainPositions == [VI(0, 0), VI(1, 1), VI(2, 2), VI(0, 1), VI(1, 0)]
    ensures forall i, j :: 0 <= i < 3 && 0 <= j < 3 ==>
              (VI(i, j) in PlaneStrainPositions <==> (i == j || (i < 2 && j < 2)))
  {
  }

  /** The step at which the loops of FillByComponents write position (a, b). */
  function WriteStep(a: nat, b: nat): nat
    requires a < 9 && b < 9
  {
    27 * Row(a) + 9 * Col(a) + 3 * Row(b) + Col(b)
  }

  /** Every position written before step n holds f of its components. */
  ghost predicate FilledBefore(answer: array2<real>, f: (nat, nat, nat, nat) --> real, n: nat)
    requires answer.Length0 == 9 && answer.Length1 == 9
    requires forall i, j, o, p :: i < 3 && j < 3 && o < 3 && p < 3 ==> f.requires(i, j, o, p)
    reads answer
  {
    forall a, b :: 0 <= a < 9 && 0 <= b < 9 && WriteStep(a, b) < n ==>
      answer[a, b] == f(Row(a), Col(a), Row(b), Col(b))
  }

  /** Base-3 digits are unique: the write steps of distinct quadruples differ. */
  lemma Base3Digits(i: nat, j: nat, o: nat, p: nat, i': nat, j': nat, o': nat, p': nat)
    requires i < 3 && j < 3 && o < 3 && p < 3 && i' < 3 && j' < 3 && o' < 3 && p' < 3
    requires 27 * i + 9 * j + 3 * o + p == 27 * i' + 9 * j' + 3 * o' + p'
    ensures i == i' && j == j' && o == o' && p == p'
  {
  }

  /** One step of the loops of FillByComponents: the entry for (i, j), (o, p) is written. */
  method WriteComponent(answer: array2<real>, f: (nat, nat, nat, nat) --> real, i: nat, j: nat, o: nat, p: nat)
    requires answer.Length0 == 9 && answer.Length1 == 9
    requires forall i, j, o, p :: i < 3 && j < 3 && o < 3 && p < 3 ==> f.requires(i, j, o, p)
    requires i < 3 && j < 3 && o < 3 && p < 3
    requires FilledBefore(answer, f, 27 * i + 9 * j + 3 * o + p)
    modifies answer
    ensures FilledBefore(answer, f, 27 * i + 9 * j + 3 * o + p + 1)
  {
    var n := 27 * i + 9 * j + 3 * o + p;
    answer[VI(i, j), VI(o, p)] := f(i, j, o, p);
    forall a, b | 0 <= a < 9 && 0 <= b < 9 && WriteStep(a, b) < n + 1
      ensures answer[a, b] == f(Row(a), Col(a), Row(b), Col(b))
    {
      VIOnto(a);
      VIOnto(b);
      if WriteStep(a, b) == n {
        Base3Digits(Row(a), Col(a), Row(b), Col(b), i, j, o, p);
      } else {
        assert (a, b) != (VI(i, j), VI(o, p));
        assert old(answer[a, b]) == f(Row(a), Col(a), Row(b), Col(b));
      }
    }
  }

  /**
   * Writes f(i, j, o, p) at (VI(i, j), VI(o, p)) for all index quadruples,
   * the four nested loops over i, j, o, p of compute_dC_dF and of the
   * micromorphic coupling blocks.  Every entry of the 9x9 matrix is written.
   */
  method FillByComponents(answer: array2<real>, f: (nat, nat, nat, nat) --> real)
    requires answer.Length0 == 9 && answer.Length1 == 9
    requires forall i, j, o, p :: i < 3 && j < 3 && o < 3 && p < 3 ==> f.requires(i, j, o, p)
    modifies answer
    ensures forall a, b :: 0 <= a < 9 && 0 <= b < 9 ==> answer[a, b] == f(Row(a), Col(a), Row(b), Col(b))
  {
    for i := 0 to 3
      invariant FilledBefore(answer, f, 27 * i)
    {
      for j := 0 to 3
        invariant FilledBefore(answer, f, 27 * i + 9 * j)
      {
        for o := 0 to 3
          invariant FilledBefore(answer, f, 27 * i + 9 * j + 3 * o)
        {
          for p := 0 to 3
            invariant FilledBefore(answer, f, 27 * i + 9 * j + 3 * o + p)
          {
            WriteComponent(answer, f, i, j, o, p);
          }
        }
      }
    }
    assert FilledBefore(answer, f, 81);
  }

  /** FillByComponents read through VI: the entry for components (i, j), (o, p) is f(i, j, o, p). */
  lemma FilledComponents(answer: array2<real>, f: (nat, nat, nat, nat) --> real, i: nat, j: nat, o: nat, p: nat)
    requires answer.Length0 == 9 && answer.Length1 == 9
    requires forall i, j, o, p :: i < 3 && j < 3 && o < 3 && p < 3 ==> f.requires(i, j, o, p)
    requires forall a, b :: 0 <= a < 9 && 0 <= b < 9 ==> answer[a, b] == f(Row(a), Col(a), Row(b), Col(b))
    requires i < 3 && j < 3 && o < 3 && p < 3
    ensures answer[VI(i, j), VI(o, p)] == f(i, j, o, p)
  {
  }

  /**
   * Every position written before step n holds its entry in `base` plus f
   * of its components; every other position still holds its entry in `base`.
   */
  ghost predicate AddedBefore(cur: Matrix, base: Matrix, f: (nat, nat, nat, nat) --> real, n: nat)
    requires IsMatrix(cur, 9, 9) && IsMatrix(base, 9, 9)
    requires forall i, j, o, p :: i < 3 && j < 3 && o < 3 && p < 3 ==> f.requires(i, j, o, p)
  {
    forall a, b :: 0 <= a < 9 && 0 <= b < 9 ==>
      cur[a][b] == (if WriteStep(a, b) < n then base[a][b] + f(Row(a), Col(a), Row(b), Col(b)) else base[a][b])
  }

  /** Adding f(i, j, o, p) at (VI(i, j), VI(o, p)) and nowhere else is one step of the += loops. */
  lemma AddedStep(prev: Matrix, cur: Matrix, base: Matrix, f: (nat, nat, nat, nat) --> real, i: nat, j: nat, o: nat, p: nat)
    requires IsMatrix(prev, 9, 9) && IsMatrix(cur, 9, 9) && IsMatrix(base, 9, 9)
    requires forall i, j, o, p :: i < 3 && j < 3 && o < 3 && p < 3 ==> f.requires(i, j, o, p)
    requires i < 3 && j < 3 && o < 3 && p < 3
    requires AddedBefore(prev, base, f, 27 * i + 9 * j + 3 * o + p)
    requires cur[VI(i, j)][VI(o, p)] == prev[VI(i, j)][VI(o, p)] + f(i, j, o, p)
    requires forall a, b :: 0 <= a < 9 && 0 <= b < 9 && (a != VI(i, j) || b != VI(o, p)) ==> cur[a][b] == prev[a][b]
    ensures AddedBefore(cur, base, f, 27 * i + 9 * j + 3 * o + p + 1)
  {
    var n := 27 * i + 9 * j + 3 * o + p;
    forall a, b | 0 <= a < 9 && 0 <= b < 9
      ensures cur[a][b] == (if WriteStep(a, b) < n + 1 then base[a][b] + f(Row(a), Col(a), Row(b), Col(b)) else base[a][b])
    {
      VIOnto(a);
      VIOnto(b);
      if WriteStep(a, b) == n {
        Base3Digits(Row(a), Col(a), Row(b), Col(b), i, j, o, p);
      } else {
        assert a != VI(i, j) || b != VI(o, p);
      }
    }
  }

  /** One step of the loops of AddByComponents: f(i, j, o, p) is added at (VI(i, j), VI(o, p)). */
  method AddComponent(answer: array2<real>, ghost base: Matrix, f: (nat, nat, nat, nat) --> real, i: nat, j: nat, o: nat, p: nat)
    requires answer.Length0 == 9 && answer.Length1 == 9 && IsMatrix(base, 9, 9)
    requires forall i, j, o, p :: i < 3 && j < 3 && o < 3 && p < 3 ==> f.requires(i, j, o, p)
    requires i < 3 && j < 3 && o < 3 && p < 3
    requires AddedBefore(Entries(answer), base, f, 27 * i + 9 * j + 3 * o + p)
    modifies answer
    ensures AddedBefore(Entries(answer), base, f, 27 * i + 9 * j + 3 * o + p + 1)
  {
    ghost var prev := Entries(answer);
    answer[VI(i, j), VI(o, p)] := answer[VI(i, j), VI(o, p)] + f(i, j, o, p);
    AddedStep(prev, Entries(answer), base, f, i, j, o, p);
  }

  /**
   * Adds f(i, j, o, p) at (VI(i, j), VI(o, p)) for all index quadruples:
   * the four nested `+=` loops of the double-well stiffness.
   */
  method AddByComponents(answer: array2<real>, f: (nat, nat, nat, nat) --> real)
    requires answer.Length0 == 9 && answer.Length1 == 9
    requires forall i, j, o, p :: i < 3 && j < 3 && o < 3 && p < 3 ==> f.requires(i, j, o, p)
    modifies answer
    ensures forall a, b :: 0 <= a < 9 && 0 <= b < 9 ==>
              answer[a, b] == old(answer[a, b]) + f(Row(a), Col(a), Row(b), Col(b))
  {
    ghost var base := Entries(answer);
    for i := 0 to 3
      invariant AddedBefore(Entries(answer), base, f, 27 * i)
    {
      for j := 0 to 3
        invariant AddedBefore(Entries(answer), base, f, 27 * i + 9 * j)
      {
        for o := 0 to 3
          invariant AddedBefore(Entries(answer), base, f, 27 * i + 9 * j + 3 * o)
        {
          for p := 0 to 3
            invariant AddedBefore(Entries(answer), base, f, 27 * i + 9 * j + 3 * o + p)
          {
            AddComponent(answer, base, f, i, j, o, p);
          }
        }
      }
    }
    AddedAll(Entries(answer), base, f);
  }

  lemma AddedAll(cur: Matrix, base: Matrix, f: (nat, nat, nat, nat) --> real)
    requires IsMatrix(cur, 9, 9) && IsMatrix(base, 9, 9)
    requires forall i, j, o, p :: i < 3 && j < 3 && o < 3 && p < 3 ==> f.requires(i, j, o, p)
    requires AddedBefore(cur, base, f, 81)
    ensures forall a, b :: 0 <= a < 9 && 0 <= b < 9 ==> cur[a][b] == base[a][b] + f(Row(a), Col(a), Row(b), Col(b))
  {
    forall a, b | 0 <= a < 9 && 0 <= b < 9
      ensures cur[a][b] == base[a][b] + f(Row(a), Col(a), Row(b), Col(b))
    {
      var ra, ca, rb, cb := Row(a), Col(a), Row(b), Col(b);
      assert WriteStep(a, b) == 27 * ra + 9 * ca + 3 * rb + cb < 81;
    }
  }

  /** Row a of the reduced matrix: the entries of row r of m3d at the five plane-strain positions. */
  method SetReducedRow(answer: array2<real>, a: nat, m3d: Matrix, r: nat)
    requires answer.Length0 == 5 && answer.Length1 == 5 && a < 5
    requires IsMatrix(m3d, 9, 9) && r < 9
    modifies answer
    ensures forall b :: 0 <= b < 5 ==> answer[a, b] == m3d[r][PlaneStrainPositions[b]]
    ensures forall a', b :: 0 <= a' < 5 && a' != a && 0 <= b < 5 ==> answer[a', b] == old(answer[a', b])
  {
    answer[a, 0] := m3d[r][0];
    answer[a, 1] := m3d[r][1];
    answer[a, 2] := m3d[r][2];
    answer[a, 3] := m3d[r][5];
    answer[a, 4] := m3d[r][8];
  }

  /**
   * The plane-strain reduction of a 9x9 tangent (a copy `m3d` of the full
   * matrix): the 5x5 matrix of its rows and columns at the plane-strain
   * positions.
   */
  method ReducePlaneStrain(m3d: Matrix) returns (answer: array2<real>)
    requires IsMatrix(m3d, 9, 9)
    ensures answer.Length0 == 5 && answer.Length1 == 5
    ensures forall a, b :: 0 <= a < 5 && 0 <= b < 5 ==>
              answer[a, b] == m3d[PlaneStrainPositions[a]][PlaneStrainPositions[b]]
  {
    answer := new real[5, 5];
    SetReducedRow(answer, 0, m3d, 0);
    SetReducedRow(answer, 1, m3d, 1);
    SetReducedRow(answer, 2, m3d, 2);
    SetReducedRow(answer, 3, m3d, 5);
    SetReducedRow(answer, 4, m3d, 8);
  }

  /** The tangent a mode receives: the 9x9 matrix d itself, or in plane strain its 5x5 reduction. */
  ghost predicate TangentFor(answer: array2<real>, d: Matrix, planeStrain: bool)
    requires IsMatrix(d, 9, 9)
    reads answer
  {
    if planeStrain then
      answer.Length0 == 5 && answer.Length1 == 5 &&
      forall a, b :: 0 <= a < 5 && 0 <= b < 5 ==> answer[a, b] == d[PlaneStrainPositions[a]][PlaneStrainPositions[b]]
    else
      answer.Length0 == 9 && answer.Length1 == 9 && Entries(answer) == d
  }

  /** The last step of every tangent: in plane strain `answer` is replaced by its reduction. */
  method ReduceForMode(full: array2<real>, planeStrain: bool) returns (answer: array2<real>)
    requires full.Length0 == 9 && full.Length1 == 9
    ensures TangentFor(answer, Entries(full), planeStrain)
  {
    answer := full;
    if planeStrain {
      answer := ReducePlaneStrain(Entries(full));
    }
  }

  /**
   * The loops over i and j of a vector filled component by component, from
   * zero: the components visited before step k hold their value in
   * `target`, the others are still 0.
   */
  ghost predicate ComponentsBefore(v: seq<real>, target: seq<real>, k: nat)
    requires |v| == 9 && |target| == 9
  {
    forall a :: 0 <= a < 9 ==> v[a] == (if 3 * Row(a) + Col(a) < k then target[a] else 0.0)
  }

  /** Writing component (i, j) of the target and nothing else is step 3 i + j of those loops. */
  lemma ComponentsStep(prev: seq<real>, cur: seq<real>, target: seq<real>, i: nat, j: nat)
    requires |prev| == 9 && |cur| == 9 && |target| == 9 && i < 3 && j < 3
    requires ComponentsBefore(prev, target, 3 * i + j)
    requires cur[VI(i, j)] == target[VI(i, j)]
    requires forall a :: 0 <= a < 9 && a != VI(i, j) ==> cur[a] == prev[a]
    ensures ComponentsBefore(cur, target, 3 * i + j + 1)
  {
    forall a | 0 <= a < 9
      ensures cur[a] == (if 3 * Row(a) + Col(a) < 3 * i + j + 1 then target[a] else 0.0)
    {
      VIOnto(a);
      if a != VI(i, j) {
        assert 3 * Row(a) + Col(a) != 3 * i + j;
      }
    }
  }

  /** After all nine steps the vector is the target. */
  lemma ComponentsAll(v: seq<real>, target: seq<real>)
    requires |v| == 9 && |target| == 9
    requires ComponentsBefore(v, target, 9)
    ensures v == target
  {
    forall a | 0 <= a < 9 ensures v[a] == target[a] {
      VIOnto(a);
    }
  }

  // ---------------------------------------------------------------------
  // Running sums over the inner (m, n) loops
  // ---------------------------------------------------------------------

  /** Step k of a loop over m in 0..3 with a loop over n in 0..3 inside it is (k / 3, k % 3). */
  lemma StepIndex(m: nat, n: nat)
    requires m < 3 && n < 3
    ensures (3 * m + n) / 3 == m && (3 * m + n) % 3 == n
  {
  }

  /** The sum of f(m, n) over the first c steps of the loops over m and n. */
  function StepSum(f: (nat, nat) --> real, c: nat): real
    requires c <= 9
    requires forall m, n :: m < 3 && n < 3 ==> f.requires(m, n)
  {
    if c == 0 then 0.0 else StepSum(f, c - 1) + f((c - 1) / 3, (c - 1) % 3)
  }

  /** Step sums are linear: when g is f0 - f1 at every step, the step sums differ by the step sum of g. */
  lemma {:induction false} StepSumDifference(f1: (nat, nat) --> real, f0: (nat, nat) --> real, g: (nat, nat) --> real, c: nat)
    requires c <= 9
    requires forall m, n :: m < 3 && n < 3 ==> f1.requires(m, n) && f0.requires(m, n) && g.requires(m, n)
    requires forall m, n :: m < 3 && n < 3 ==> f0(m, n) - f1(m, n) == g(m, n)
    ensures StepSum(f0, c) - StepSum(f1, c) == StepSum(g, c)
  {
    if c > 0 {
      StepSumDifference(f1, f0, g, c - 1);
    }
  }

  /** The sum of f1(m, n) + f2(m, n) + f3(m, n) over the first c steps of the loops over m and n. */
  function StepSum3(f1: (nat, nat) --> real, f2: (nat, nat) --> real, f3: (nat, nat) --> real, c: nat): real
    requires c <= 9
    requires forall m, n :: m < 3 && n < 3 ==> f1.requires(m, n) && f2.requires(m, n) && f3.requires(m, n)
  {
    if c == 0 then 0.0
    else
      var m, n := (c - 1) / 3, (c - 1) % 3;
      StepSum3(f1, f2, f3, c - 1) + f1(m, n) + f2(m, n) + f3(m, n)
  }

  /** The loops over m and n with `acc -= f(m, n)` as their body, from acc = start. */
  method SubtractSteps(f: (nat, nat) --> real, start: real) returns (acc: real)
    requires forall m, n :: m < 3 && n < 3 ==> f.requires(m, n)
    ensures acc == start - StepSum(f, 9)
  {
    acc := start;
    for m := 0 to 3
      invariant acc == start - StepSum(f, 3 * m)
    {
      for n := 0 to 3
        invariant acc == start - StepSum(f, 3 * m + n)
      {
        StepIndex(m, n);
        acc := acc - f(m, n);
      }
    }
  }

  /** The loops over m and n with the three statements `acc += fk(m, n)` as their body, from acc = start. */
  method AddSteps3(f1: (nat, nat) --> real, f2: (nat, nat) --> real, f3: (nat, nat) --> real, start: real) returns (acc: real)
    requires forall m, n :: m < 3 && n < 3 ==> f1.requires(m, n) && f2.requires(m, n) && f3.requires(m, n)
    ensures acc == start + StepSum3(f1, f2, f3, 9)
  {
    acc := start;
    for m := 0 to 3
      invariant acc == start + StepSum3(f1, f2, f3, 3 * m)
    {
      for n := 0 to 3
        invariant acc == start + StepSum3(f1, f2, f3, 3 * m + n)
      {
        StepIndex(m, n);
        acc := acc + f1(m, n);
        acc := acc + f2(m, n);
        acc := acc + f3(m, n);
      }
    }
  }
}
