# Matrix — a verified model of a dense integer matrix type

The repository defines one class, `Matrix`, in `Final_work/final_task.py`. It is a
`rows x cols` grid held in three public fields (`rows`, `cols`, `data`). Its
constructor fills the grid with zeros. `__eq__` compares shapes and then cells.
`__add__` adds element-wise. `__mul__` is the textbook triple loop. `__str__` and
`__repr__` render it as text. Addition and multiplication raise `ValueError`
when the shapes do not fit.

The model has four modules:

- `Sums` (`sums.dfy`): `Sum(n, f)`, the left-to-right prefix sum that starts from 0,
  as the innermost multiplication loop accumulates it. It also holds the lemmas
  the algebra needs (extensionality, scaling, pointwise addition, and swapping
  the order of a double sum).
- `Text` (`text.dfy`): Python's `str()` of an int (`IntStr`), `str.join` (`Join`),
  one matrix row (`Line`), the whole matrix (`Show`) and the short form
  (`Describe`). It also has inverses used only to state properties (`Split`,
  `ParseInt`, `Parse`), which show that the rendering loses nothing.
- `MatrixMath` (`matrix_math.dfy`): `Mat`, the value of a `Matrix` object's
  three fields, and its `Valid()` predicate (`data` is exactly `rows x cols`).
  It defines the meaning of each operation as a function: `Zero`, `Plus`,
  `Times`. The ValueError becomes the error of a `Result`. The module also
  proves the algebraic laws and the two worked examples of the command-line demo.
- `FinalTask` (`final_task.dfy`): the class `Matrix` itself, with mutable
  `rows`, `cols` and `data: seq<seq<int>>` fields. Its constructor builds the
  zero grid. `Equals`, `Add` and `Mul` are methods with the source's nested
  loops. `Add` and `Mul` fill a freshly constructed result cell by cell.
  Each method is proved against the `MatrixMath` function. `Str()` and
  `Repr()` delegate to `Text.Show` and `Text.Describe`. `AddDemo` and
  `MultiplyDemo` run the demo's two paths through the class.

Nothing in the source keeps `data` in the shape `rows x cols`: the demo assigns
literal lists to `data` after construction. So `Valid()` is a precondition
of each operation once its shape test passes. `Equals`, `Add` and `Mul`
test the dimensions first and read `data` only when that test passes. Their
preconditions (`SameShape(..) ==> Valid()..`, `CanAdd`, `CanMultiply`)
therefore ask for well-shaped data only in that case. In the other case,
`__eq__` returns false and the other two return the error, whatever `data` holds.

## Model

| member | source | states |
|---|---|---|
| `MatrixMath.Zero` | Final_work/final_task.py:29-31 | the constructed grid has `rows` rows of `cols` elements each, every element 0, and the dimension fields equal the arguments |
| `FinalTask.Matrix.constructor` | Final_work/final_task.py:23-31 | a new object's fields are the arguments and the zero grid of that shape |
| `FinalTask.Matrix.Equals` | Final_work/final_task.py:41-55 | returns false when row or column counts differ, even if `data` is malformed; otherwise compares cell by cell and stops at the first difference; the answer is true exactly when the two objects hold equal values |
| `MatrixMath.CellsDetermine` | Final_work/final_task.py:51-55 | two well-shaped matrices of one shape whose cells all agree are equal, which is why the cell-by-cell loop decides equality |
| `MatrixMath.Plus` | Final_work/final_task.py:65-71 | fails with `DifferentSizes` exactly when rows or cols differ; otherwise the result has the operands' shape and cell `(i,j)` is `a[i][j] + b[i][j]` |
| `FinalTask.Matrix.Add` | Final_work/final_task.py:57-71 | returns the `DifferentSizes` error or a fresh matrix whose value is `Plus` of the operands' values; the operands are not modified (no modifies clause) |
| `MatrixMath.PlusCommutes` | Final_work/final_task.py:65-70 | `a + b == b + a`, including the error when shapes differ |
| `MatrixMath.PlusAssociates` | Final_work/final_task.py:67-70 | `(a + b) + c == a + (b + c)` for three matrices of one shape |
| `MatrixMath.PlusZero` | Final_work/final_task.py:67-70 | adding the zero matrix the constructor builds gives back `a` |
| `MatrixMath.Times` | Final_work/final_task.py:81-88 | fails with `InnerMismatch` exactly when `a.cols != b.rows`; otherwise the result is `a.rows x b.cols` and cell `(i,j)` is the sum over `k < a.cols` of `a[i][k]*b[k][j]`, accumulated from 0 |
| `FinalTask.Matrix.Mul` | Final_work/final_task.py:73-88 | returns the `InnerMismatch` error or a fresh matrix whose value is `Times` of the operands' values; the loop invariant keeps the accumulator equal to the prefix sum after `k` steps; operands are unchanged |
| `MatrixMath.TermAt` | Final_work/final_task.py:87 | inside the operands' bounds, the `k`-th term accumulated into cell `(i,j)` is `a[i][k] * b[k][j]` |
| `MatrixMath.TimesAssociatesAt` | Final_work/final_task.py:84-87 | one cell of `(a*b)*c` equals the same cell of `a*(b*c)` |
| `MatrixMath.TimesAssociates` | Final_work/final_task.py:83-88 | `(a * b) * c == a * (b * c)` when the dimension chain agrees |
| `MatrixMath.TimesDistributes` | Final_work/final_task.py:83-88 | `a * (b + c) == a*b + a*c` |
| `Text.NatStr` | Final_work/final_task.py:35 | `str()` of a non-negative int is a non-empty string of digits, with a leading `'0'` only for 0 |
| `Text.IntStr` | Final_work/final_task.py:35 | `str()` of an int is non-empty, holds only digits after an optional leading `'-'`, and starts with `'-'` exactly for negative numbers |
| `Text.IntStrRoundTrip` | Final_work/final_task.py:35 | the number can be read back from its `str()` |
| `Text.SplitJoin` | Final_work/final_task.py:35 | splitting at the separator undoes `join` for at least one part, when no part contains the separator (`join` of no parts is `""`, which splits into one empty part) |
| `Text.JoinAvoids` | Final_work/final_task.py:35 | a character absent from the parts and different from the separator is absent from the join, so rows never contain `'\n'` |
| `Text.ShowRoundTrip` | Final_work/final_task.py:33-35 | reading the text back line by line at `'\n'` and element by element at `' '` gives back the grid, for at least one row and no empty row; `Matrix.Str()` is `Show(data)` |
| `Text.ShowInjective` | Final_work/final_task.py:35 | two such grids that render the same text are equal |
| `Text.ShowSingle` | Final_work/final_task.py:35 | the 1x1 matrix holding 5 renders as `"5"`, with no separator at either end |
| `Text.DescribeFields` | Final_work/final_task.py:39 | between `Matrix(` and `)` the short form holds the two dimensions, separated by `", "` |
| `Text.DescribeInjective` | Final_work/final_task.py:37-39 | the short form is built from `rows` and `cols` alone, never from `data`, and determines both of them; `Matrix.Repr()` is `Describe(rows, cols)` |
| `MatrixMath.AddExample` | Final_work/final_task.py:108-114 | `[[1,2,3],[4,5,6]] + [[7,8,9],[10,11,12]] = [[8,10,12],[14,16,18]]` |
| `MatrixMath.MultiplyExample` | Final_work/final_task.py:120-127 | `[[1,2],[3,4],[5,6]] * [[7,8],[9,10]] = [[25,28],[57,64],[89,100]]` |
| `MatrixMath.AddRejectsShapes` | Final_work/final_task.py:65-66 | a 2x3 and a 3x2 matrix cannot be added |
| `MatrixMath.MultiplyRejectsShapes` | Final_work/final_task.py:81-82 | a 2x2 matrix cannot be multiplied by a 3x3 one |
| `FinalTask.AddDemo` | Final_work/final_task.py:106-115 | the demo's addition path, run through the class, renders `"8 10 12\n14 16 18"` |
| `FinalTask.MultiplyDemo` | Final_work/final_task.py:119-128 | the demo's multiplication path, run through the class, renders `"25 28\n57 64\n89 100"` |
| `FinalTask.ShowSum` | Final_work/final_task.py:115 | the text printed for the demo sum |
| `FinalTask.ShowProduct` | Final_work/final_task.py:128 | the text printed for the demo product |

## Left out

- `main` (Final_work/final_task.py:91-133): argument parsing, the log file and `print` are I/O. Only its two fixed demo computations are kept, as `AddDemo`, `MultiplyDemo`, `AddExample` and `MultiplyExample`.
- `main`'s add path sizes both matrices from command-line dimensions and then overwrites `data` with fixed 2x3 lists. With other dimensions the source may compute on part of the data, raise IndexError or ValueError, or read no cell at all when a shared dimension is 0 or negative (`add 5 0 5 0` gives a sum whose `str()` is four newlines; `add 0 3 0 3` gives one with no rows). The model covers only the 2x3 case.
- Element types: Python's `+` and `*` work on any numbers. The model uses unbounded `int` only, so floating point is not modelled.
- Text.IntStr: does not model the ValueError that Python's `str()` raises for an int with more digits than the interpreter's limit (4300 decimal digits by default in current CPython). `__mul__` can produce such elements from printable operands, and the model renders every int.
- Negative dimensions: `range` of a negative number is empty in Python, but the source never defines this case. Dimensions are `nat`.
- Operands that are not `Matrix` objects (Python would raise AttributeError) cannot occur in the model's types.
- Logging and exit behaviour on a caught ValueError belong to `main` and are not modelled.
- FinalTask.Matrix.Equals requires data to be exactly `rows x cols` once the shapes agree. The source also runs on a larger `data` (it compares the top-left block). On a smaller one it may raise IndexError, or return before reaching the missing cell: False at the first differing cell, True when `cols` is 0. Neither case is modelled.
- FinalTask.Matrix.Add has the same exact-shape precondition (`CanAdd`) once the shapes agree; the source's behaviour on a larger or smaller `data` is not modelled.
- FinalTask.Matrix.Mul has the same exact-shape precondition (`CanMultiply`) once `cols == other.rows`; the source's behaviour on a larger or smaller `data` is not modelled.
- Text.ShowRoundTrip needs at least one row and no empty row. A matrix with no rows and a 1x0 matrix both render as `""`, so no reader can tell them apart.
- Text.Split, Text.Parse and Text.ParseInt are not in the source, which never splits or parses text. They are helpers that exist only to state that the rendering loses nothing.
