/** The Matrix class: three public fields, a constructor that fills the grid
    with zeros, and the equality, addition and multiplication methods, which
    walk the grid with nested loops and, for the two arithmetic ones, fill a
    freshly constructed result in place. */
module FinalTask {
  import opened Text
  import opened MatrixMath

  class Matrix {
    var rows: nat
    var cols: nat
    /** Any caller may assign a new grid here; nothing keeps it rows x cols */
    var data: Grid

    /** The fields as a value */
    function Value(): Mat
      reads this
    {
      Mat(rows, cols, data)
    }

    predicate Valid()
      reads this
    {
      Value().Valid()
    }

    /** A rows x cols matrix of zeros */
    constructor (rows: nat, cols: nat)
      ensures this.rows == rows && this.cols == cols
      ensures Value() == Zero(rows, cols)
    {
      this.rows := rows;
      this.cols := cols;
      data := Zero(rows, cols).data;
    }

    /** __str__: elements joined by ' ', rows by '\n' */
    function Str(): string
      reads this
    {
      Show(data)
    }

    /** __repr__: the dimensions only */
    function Repr(): string
      reads this
    {
      Describe(rows, cols)
    }

    /** __eq__: false at once when the shapes differ; otherwise compares the
        cells row by row and stops at the first that differs. The outcome
        is exactly equality of the two values. */
    method Equals(other: Matrix) returns (eq: bool)
      requires SameShape(Value(), other.Value()) ==> Valid() && other.Valid()
      ensures eq <==> Value() == other.Value()
    {
      if rows != other.rows || cols != other.cols {
        return false;
      }
      for i := 0 to rows
        invariant forall i', j :: 0 <= i' < i && 0 <= j < cols ==> data[i'][j] == other.data[i'][j]
      {
        for j := 0 to cols
          invariant forall j' :: 0 <= j' < j ==> data[i][j'] == other.data[i][j']
        {
          if data[i][j] != other.data[i][j] {
            return false;
          }
        }
      }
      CellsDetermine(Value(), other.Value());
      return true;
    }

    /** __add__: DifferentSizes when the shapes differ; otherwise a new matrix
        whose cells are filled one by one with the sums. Neither operand
        changes. */
    method Add(other: Matrix) returns (r: Result<Matrix>)
      requires CanAdd(Value(), other.Value())
      ensures r.Err? ==> Plus(Value(), other.Value()) == Err(r.error)
      ensures r.Ok? ==> fresh(r.value) && Plus(Value(), other.Value()) == Ok(r.value.Value())
    {
      if rows != other.rows || cols != other.cols {
        return Err(DifferentSizes);
      }
      var result := new Matrix(rows, cols);
      for i := 0 to rows
        invariant result.Valid() && result.rows == rows && result.cols == cols
        invariant forall i', j :: 0 <= i' < i && 0 <= j < cols ==>
                    result.data[i'][j] == data[i'][j] + other.data[i'][j]
      {
        for j := 0 to cols
          invariant result.Valid() && result.rows == rows && result.cols == cols
          invariant forall i', j' :: 0 <= i' < i && 0 <= j' < cols ==>
                      result.data[i'][j'] == data[i'][j'] + other.data[i'][j']
          invariant forall j' :: 0 <= j' < j ==> result.data[i][j'] == data[i][j'] + other.data[i][j']
        {
          result.data := result.data[i := result.data[i][j := data[i][j] + other.data[i][j]]];
        }
      }
      CellsDetermine(result.Value(), Plus(Value(), other.Value()).value);
      return Ok(result);
    }

    /** __mul__: InnerMismatch when cols != other.rows; otherwise a new
        rows x other.cols matrix of zeros in which cell (i, j) accumulates
        data[i][k] * other.data[k][j] for k = 0, 1, ... in turn. Neither
        operand changes. */
    method Mul(other: Matrix) returns (r: Result<Matrix>)
      requires CanMultiply(Value(), other.Value())
      ensures r.Err? ==> Times(Value(), other.Value()) == Err(r.error)
      ensures r.Ok? ==> fresh(r.value) && Times(Value(), other.Value()) == Ok(r.value.Value())
    {
      if cols != other.rows {
        return Err(InnerMismatch);
      }
      var result := new Matrix(rows, other.cols);
      for i := 0 to rows
        invariant result.Valid() && result.rows == rows && result.cols == other.cols
        invariant forall i', j :: 0 <= i' < i && 0 <= j < other.cols ==>
                    result.data[i'][j] == Dot(data, other.data, i', j, cols)
        invariant forall i', j :: i <= i' < rows && 0 <= j < other.cols ==> result.data[i'][j] == 0
      {
        for j := 0 to other.cols
          invariant result.Valid() && result.rows == rows && result.cols == other.cols
          invariant forall i', j' :: 0 <= i' < i && 0 <= j' < other.cols ==>
                      result.data[i'][j'] == Dot(data, other.data, i', j', cols)
          invariant forall j' :: 0 <= j' < j ==> result.data[i][j'] == Dot(data, other.data, i, j', cols)
          invariant forall j' :: j <= j' < other.cols ==> result.data[i][j'] == 0
          invariant forall i', j' :: i < i' < rows && 0 <= j' < other.cols ==> result.data[i'][j'] == 0
        {
          for k := 0 to cols
            invariant result.Valid() && result.rows == rows && result.cols == other.cols
            invariant forall i', j' :: 0 <= i' < i && 0 <= j' < other.cols ==>
                        result.data[i'][j'] == Dot(data, other.data, i', j', cols)
            invariant forall j' :: 0 <= j' < j ==> result.data[i][j'] == Dot(data, other.data, i, j', cols)
            invariant result.data[i][j] == Dot(data, other.data, i, j, k)
            invariant forall j' :: j < j' < other.cols ==> result.data[i][j'] == 0
            invariant forall i', j' :: i < i' < rows && 0 <= j' < other.cols ==> result.data[i'][j'] == 0
          {
            result.data := result.data[i := result.data[i][j := result.data[i][j] + data[i][k] * other.data[k][j]]];
          }
        }
      }
      CellsDetermine(result.Value(), Times(Value(), other.Value()).value);
      return Ok(result);
    }
  }

  /** The addition path of the command-line demonstration: two 2 x 3
      matrices whose zero grids are replaced by literal data, added, and
      the sum shown */
  method AddDemo() returns (shown: string)
    ensures shown == "8 10 12\n14 16 18"
  {
    var m1 := new Matrix(2, 3);
    m1.data := [[1, 2, 3], [4, 5, 6]];
    var m2 := new Matrix(2, 3);
    m2.data := [[7, 8, 9], [10, 11, 12]];
    AddExample();
    var sum := m1.Add(m2);
    assert sum.value.data == [[8, 10, 12], [14, 16, 18]];
    shown := sum.value.Str();
    ShowSum();
  }

  /** The multiplication path of the command-line demonstration: a 3 x 2
      and a 2 x 2 matrix of literal data, multiplied, and the product shown */
  method MultiplyDemo() returns (shown: string)
    ensures shown == "25 28\n57 64\n89 100"
  {
    var m3 := new Matrix(3, 2);
    m3.data := [[1, 2], [3, 4], [5, 6]];
    var m4 := new Matrix(2, 2);
    m4.data := [[7, 8], [9, 10]];
    MultiplyExample();
    var product := m3.Mul(m4);
    assert product.value.data == [[25, 28], [57, 64], [89, 100]];
    shown := product.value.Str();
    ShowProduct();
  }

  /** The text the addition path prints */
  lemma ShowSum()
    ensures Show([[8, 10, 12], [14, 16, 18]]) == "8 10 12\n14 16 18"
  {
    assert NatStr(1) == "1";
    assert Words([8, 10, 12]) == ["8", "10", "12"] by {
      assert IntStr(10) == "10" by { assert DigitChar(0) == '0'; }
      assert IntStr(12) == "12" by { assert DigitChar(2) == '2'; }
    }
    assert Words([14, 16, 18]) == ["14", "16", "18"] by {
      assert IntStr(14) == "14" by { assert DigitChar(4) == '4'; }
      assert IntStr(16) == "16" by { assert DigitChar(6) == '6'; }
      assert IntStr(18) == "18" by { assert DigitChar(8) == '8'; }
    }
    assert Line([8, 10, 12]) == "8 10 12";
    assert Line([14, 16, 18]) == "14 16 18";
    assert Lines([[8, 10, 12], [14, 16, 18]]) == ["8 10 12", "14 16 18"];
  }

  /** The text the multiplication path prints */
  lemma ShowProduct()
    ensures Show([[25, 28], [57, 64], [89, 100]]) == "25 28\n57 64\n89 100"
  {
    assert Words([25, 28]) == ["25", "28"] by {
      assert NatStr(2) == "2";
      assert IntStr(25) == "25" by { assert DigitChar(5) == '5'; }
      assert IntStr(28) == "28" by { assert DigitChar(8) == '8'; }
    }
    assert Words([57, 64]) == ["57", "64"] by {
      assert IntStr(57) == "57" by { assert NatStr(5) == "5"; assert DigitChar(7) == '7'; }
      assert IntStr(64) == "64" by { assert NatStr(6) == "6"; assert DigitChar(4) == '4'; }
    }
    assert Words([89, 100]) == ["89", "100"] by {
      assert IntStr(89) == "89" by { assert NatStr(8) == "8"; assert DigitChar(9) == '9'; }
      assert IntStr(100) == "100" by {
        assert NatStr(1) == "1";
        assert DigitChar(0) == '0';
        assert NatStr(10) == "10";
      }
    }
    assert Line([25, 28]) == "25 28";
    assert Line([57, 64]) == "57 64";
    assert Line([89, 100]) == "89 100";
    assert Lines([[25, 28], [57, 64], [89, 100]]) == ["25 28", "57 64", "89 100"];
  }
}
