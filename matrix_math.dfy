/** The value a Matrix object holds (its rows, cols and data fields) and the
    meaning of the operations on it: the zero grid the constructor builds,
    element-wise addition, the row-by-column product, and the ValueError
    both raise when the shapes do not fit. */
module MatrixMath {
  import opened Sums

  /** The two ValueError messages of the source */
  datatype ShapeError =
    | DifferentSizes  // addition: the matrices must have the same dimensions
    | InnerMismatch   // multiplication: columns of the first must equal rows of the second

  datatype Result<T> = Ok(value: T) | Err(error: ShapeError)

  type Grid = seq<seq<int>>

  /** The fields of a Matrix object as a value. Nothing forces data to have
      the shape rows x cols: a caller may assign any list of lists to it. */
  datatype Mat = Mat(rows: nat, cols: nat, data: Grid)
  {
    /** data is exactly rows x cols */
    predicate Valid()
    {
      |data| == rows && forall i :: 0 <= i < rows ==> |data[i]| == cols
    }
  }

  predicate SameShape(a: Mat, b: Mat)
  {
    a.rows == b.rows && a.cols == b.cols
  }

  /** Addition reads data only once the shape test has passed, and then
      indexes every cell of both operands */
  predicate CanAdd(a: Mat, b: Mat)
  {
    SameShape(a, b) ==> a.Valid() && b.Valid()
  }

  /** Multiplication reads data only once the inner dimensions agree, and
      then indexes every cell of both operands */
  predicate CanMultiply(a: Mat, b: Mat)
  {
    a.cols == b.rows ==> a.Valid() && b.Valid()
  }

  /** The rows x cols matrix filled with zeros */
  function Zero(rows: nat, cols: nat): (z: Mat)
    ensures z.Valid() && z.rows == rows && z.cols == cols
    ensures forall i, j :: 0 <= i < rows && 0 <= j < cols ==> z.data[i][j] == 0
  {
    Mat(rows, cols, seq(rows, _ => seq(cols, _ => 0)))
  }

  /** Two valid matrices of one shape whose cells all agree are the same value */
  lemma CellsDetermine(a: Mat, b: Mat)
    requires a.Valid() && b.Valid() && SameShape(a, b)
    requires forall i, j :: 0 <= i < a.rows && 0 <= j < a.cols ==> a.data[i][j] == b.data[i][j]
    ensures a == b
  {
    forall i | 0 <= i < a.rows ensures a.data[i] == b.data[i] {
      assert forall j :: 0 <= j < a.cols ==> a.data[i][j] == b.data[i][j];
    }
  }

  /** a + b: DifferentSizes unless the shapes agree, and otherwise the matrix
      of that shape whose every cell is the sum of the operands' cells */
  function Plus(a: Mat, b: Mat): (r: Result<Mat>)
    requires CanAdd(a, b)
    ensures r.Err? <==> !SameShape(a, b)
    ensures r.Err? ==> r.error == DifferentSizes
    ensures r.Ok? ==> r.value.Valid() && SameShape(r.value, a)
    ensures r.Ok? ==> forall i, j :: 0 <= i < a.rows && 0 <= j < a.cols ==>
                        r.value.data[i][j] == a.data[i][j] + b.data[i][j]
  {
    if !SameShape(a, b) then Err(DifferentSizes)
    else Ok(Mat(a.rows, a.cols, seq(a.rows, i requires 0 <= i < a.rows =>
              seq(a.cols, j requires 0 <= j < a.cols => a.data[i][j] + b.data[i][j]))))
  }

  /** Cell (i, k) of a grid, and 0 outside it */
  function At(g: Grid, i: nat, k: nat): int
  {
    if i < |g| && k < |g[i]| then g[i][k] else 0
  }

  /** k => a[i][k] * b[k][j]: the k-th product the cell (i, j) of a * b accumulates */
  function Term(a: Grid, b: Grid, i: nat, j: nat): nat -> int
  {
    (k: nat) => At(a, i, k) * At(b, k, j)
  }

  /** a[i][0] * b[0][j] + ... + a[i][n-1] * b[n-1][j], accumulated from 0 */
  function Dot(a: Grid, b: Grid, i: nat, j: nat, n: nat): int
  {
    Sum(n, Term(a, b, i, j))
  }

  /** a * b: InnerMismatch unless a.cols == b.rows, and otherwise the
      a.rows x b.cols matrix whose cell (i, j) is the sum over k < a.cols
      of a[i][k] * b[k][j] */
  function Times(a: Mat, b: Mat): (r: Result<Mat>)
    requires CanMultiply(a, b)
    ensures r.Err? <==> a.cols != b.rows
    ensures r.Err? ==> r.error == InnerMismatch
    ensures r.Ok? ==> r.value.Valid() && r.value.rows == a.rows && r.value.cols == b.cols
    ensures r.Ok? ==> forall i, j :: 0 <= i < a.rows && 0 <= j < b.cols ==>
                        r.value.data[i][j] == Dot(a.data, b.data, i, j, a.cols)
  {
    if a.cols != b.rows then Err(InnerMismatch)
    else Ok(Mat(a.rows, b.cols, seq(a.rows, i requires 0 <= i < a.rows =>
              seq(b.cols, j requires 0 <= j < b.cols => Dot(a.data, b.data, i, j, a.cols)))))
  }

  // ---------------------------------------------------------------------
  // Algebra of the two operations

  /** Addition is commutative, error included */
  lemma PlusCommutes(a: Mat, b: Mat)
    requires CanAdd(a, b)
    ensures Plus(a, b) == Plus(b, a)
  {
    if SameShape(a, b) {
      CellsDetermine(Plus(a, b).value, Plus(b, a).value);
    }
  }

  /** Addition is associative on three matrices of one shape */
  lemma PlusAssociates(a: Mat, b: Mat, c: Mat)
    requires a.Valid() && b.Valid() && c.Valid() && SameShape(a, b) && SameShape(b, c)
    ensures Plus(Plus(a, b).value, c) == Plus(a, Plus(b, c).value)
  {
    CellsDetermine(Plus(Plus(a, b).value, c).value, Plus(a, Plus(b, c).value).value);
  }

  /** The zero matrix of a's shape is a right identity of addition */
  lemma PlusZero(a: Mat)
    requires a.Valid()
    ensures Plus(a, Zero(a.rows, a.cols)) == Ok(a)
  {
    CellsDetermine(Plus(a, Zero(a.rows, a.cols)).value, a);
  }

  /** Inside the operands' bounds the k-th term is the product of their cells */
  lemma TermAt(a: Mat, b: Mat, i: nat, j: nat, k: nat)
    requires a.Valid() && b.Valid() && a.cols == b.rows
    requires i < a.rows && j < b.cols && k < a.cols
    ensures Term(a.data, b.data, i, j)(k) == a.data[i][k] * b.data[k][j]
  {
  }

  /** The table k, l => a[i][k] * b[k][l] * c[l][j] that both ways of
      bracketing a triple product sum up */
  function Triple(a: Grid, b: Grid, c: Grid, i: nat, j: nat): (nat, nat) -> int
  {
    (k: nat, l: nat) => At(a, i, k) * At(b, k, l) * At(c, l, j)
  }

  lemma TimesAssociatesAt(a: Mat, b: Mat, c: Mat, i: nat, j: nat)
    requires a.Valid() && b.Valid() && c.Valid() && a.cols == b.rows && b.cols == c.rows
    requires i < a.rows && j < c.cols
    ensures Times(Times(a, b).value, c).value.data[i][j] == Times(a, Times(b, c).value).value.data[i][j]
  {
    var ab, bc := Times(a, b).value, Times(b, c).value;
    var n, p := a.cols, b.cols;
    var g := Triple(a.data, b.data, c.data, i, j);
    // ((a b) c)[i][j] sums column by column
    forall l: nat | l < p
      ensures Term(ab.data, c.data, i, j)(l) == ColSums(g, n)(l)
    {
      SumScale(n, At(c.data, l, j), Term(a.data, b.data, i, l), ColOf(g, l));
    }
    SumExt(p, Term(ab.data, c.data, i, j), ColSums(g, n));
    // (a (b c))[i][j] sums row by row
    forall k: nat | k < n
      ensures Term(a.data, bc.data, i, j)(k) == RowSums(g, p)(k)
    {
      SumScale(p, At(a.data, i, k), Term(b.data, c.data, k, j), RowOf(g, k));
    }
    SumExt(n, Term(a.data, bc.data, i, j), RowSums(g, p));
    SumSwap(n, p, g);
  }

  /** Multiplication is associative when the dimension chain agrees */
  lemma TimesAssociates(a: Mat, b: Mat, c: Mat)
    requires a.Valid() && b.Valid() && c.Valid() && a.cols == b.rows && b.cols == c.rows
    ensures Times(Times(a, b).value, c) == Times(a, Times(b, c).value)
  {
    var x, y := Times(Times(a, b).value, c).value, Times(a, Times(b, c).value).value;
    forall i, j | 0 <= i < a.rows && 0 <= j < c.cols ensures x.data[i][j] == y.data[i][j] {
      TimesAssociatesAt(a, b, c, i, j);
    }
    CellsDetermine(x, y);
  }

  /** Multiplication distributes over addition from the left */
  lemma TimesDistributes(a: Mat, b: Mat, c: Mat)
    requires a.Valid() && b.Valid() && c.Valid() && a.cols == b.rows && SameShape(b, c)
    ensures Times(a, Plus(b, c).value) == Plus(Times(a, b).value, Times(a, c).value)
  {
    var bc := Plus(b, c).value;
    var x, y := Times(a, bc).value, Plus(Times(a, b).value, Times(a, c).value).value;
    forall i, j | 0 <= i < a.rows && 0 <= j < b.cols ensures x.data[i][j] == y.data[i][j] {
      SumPlus(a.cols, Term(a.data, b.data, i, j), Term(a.data, c.data, i, j), Term(a.data, bc.data, i, j));
    }
    CellsDetermine(x, y);
  }

  // ---------------------------------------------------------------------
  // The worked examples of the source's command-line demonstration

  /** [[1,2,3],[4,5,6]] + [[7,8,9],[10,11,12]] = [[8,10,12],[14,16,18]] */
  lemma AddExample()
    ensures Plus(Mat(2, 3, [[1, 2, 3], [4, 5, 6]]), Mat(2, 3, [[7, 8, 9], [10, 11, 12]]))
         == Ok(Mat(2, 3, [[8, 10, 12], [14, 16, 18]]))
  {
    var r := Plus(Mat(2, 3, [[1, 2, 3], [4, 5, 6]]), Mat(2, 3, [[7, 8, 9], [10, 11, 12]])).value;
    CellsDetermine(r, Mat(2, 3, [[8, 10, 12], [14, 16, 18]]));
  }

  /** [[1,2],[3,4],[5,6]] * [[7,8],[9,10]] = [[25,28],[57,64],[89,100]] */
  lemma MultiplyExample()
    ensures Times(Mat(3, 2, [[1, 2], [3, 4], [5, 6]]), Mat(2, 2, [[7, 8], [9, 10]]))
         == Ok(Mat(3, 2, [[25, 28], [57, 64], [89, 100]]))
  {
    var a, b := Mat(3, 2, [[1, 2], [3, 4], [5, 6]]), Mat(2, 2, [[7, 8], [9, 10]]);
    var r := Times(a, b).value;
    var want := Mat(3, 2, [[25, 28], [57, 64], [89, 100]]);
    forall i, j | 0 <= i < 3 && 0 <= j < 2 ensures r.data[i][j] == want.data[i][j] {
      TermAt(a, b, i, j, 0);
      TermAt(a, b, i, j, 1);
    }
    CellsDetermine(r, want);
  }

  /** A 2 x 3 and a 3 x 2 matrix cannot be added */
  lemma AddRejectsShapes(a: Mat, b: Mat)
    requires a.rows == 2 && a.cols == 3 && b.rows == 3 && b.cols == 2
    ensures Plus(a, b) == Err(DifferentSizes)
  {
  }

  /** A 2 x 2 matrix cannot be multiplied by a 3 x 3 one */
  lemma MultiplyRejectsShapes(a: Mat, b: Mat)
    requires a.rows == 2 && a.cols == 2 && b.rows == 3 && b.cols == 3
    ensures Times(a, b) == Err(InnerMismatch)
  {
  }
}
