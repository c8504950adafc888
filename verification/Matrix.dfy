/** Complex integer matrices as values: sums, products, transposes and their algebra. */
module MatrixAlgebra {

  datatype Complex = Complex(re: int, im: int)

  const ZERO := Complex(0, 0)

  function Plus(x: Complex, y: Complex): Complex {
    Complex(x.re + y.re, x.im + y.im)
  }

  function Times(x: Complex, y: Complex): Complex {
    Complex(x.re * y.re - x.im * y.im, x.re * y.im + x.im * y.re)
  }

  datatype Matrix = Matrix(rows: nat, cols: nat, cells: seq<seq<Complex>>) {
    ghost predicate Valid() {
      |cells| == rows && forall i :: 0 <= i < rows ==> |cells[i]| == cols
    }

    function At(i: int, j: int): Complex {
      if 0 <= i < |cells| && 0 <= j < |cells[i]| then cells[i][j] else ZERO
    }
  }

  /** Matrices are equal if their sizes and their entries are. */
  lemma SameEntries(a: Matrix, b: Matrix)
    requires a.Valid() && b.Valid() && a.rows == b.rows && a.cols == b.cols
    requires forall i, j :: 0 <= i < a.rows && 0 <= j < a.cols ==> a.At(i, j) == b.At(i, j)
    ensures a == b
  {
    forall i | 0 <= i < a.rows ensures a.cells[i] == b.cells[i] {
      forall j | 0 <= j < a.cols ensures a.cells[i][j] == b.cells[i][j] {
        assert a.At(i, j) == b.At(i, j);
      }
    }
  }

  function Tabulate(rows: nat, cols: nat, f: (int, int) -> Complex): (m: Matrix)
    ensures m.Valid() && m.rows == rows && m.cols == cols
    ensures forall i, j :: 0 <= i < rows && 0 <= j < cols ==> m.At(i, j) == f(i, j)
  {
    Matrix(rows, cols, seq(rows, i => seq(cols, j => f(i, j))))
  }

  // ---------- sums ----------

  /** `f(0) + ... + f(n - 1)`. */
  function Sum(f: int -> Complex, n: nat): Complex {
    if n == 0 then ZERO else Plus(Sum(f, n - 1), f(n - 1))
  }

  lemma {:induction false} SumEqual(f: int -> Complex, g: int -> Complex, n: nat)
    requires forall k :: 0 <= k < n ==> f(k) == g(k)
    ensures Sum(f, n) == Sum(g, n)
  {
    if n > 0 { SumEqual(f, g, n - 1); }
  }

  lemma {:induction false} SumPlusParts(f: int -> Complex, g: int -> Complex, h: int -> Complex, n: nat)
    requires forall k :: 0 <= k < n ==> h(k) == Plus(f(k), g(k))
    ensures Sum(h, n).re == Sum(f, n).re + Sum(g, n).re
    ensures Sum(h, n).im == Sum(f, n).im + Sum(g, n).im
  {
    if n > 0 { SumPlusParts(f, g, h, n - 1); }
  }

  lemma SumPlus(f: int -> Complex, g: int -> Complex, h: int -> Complex, n: nat)
    requires forall k :: 0 <= k < n ==> h(k) == Plus(f(k), g(k))
    ensures Sum(h, n) == Plus(Sum(f, n), Sum(g, n))
  {
    SumPlusParts(f, g, h, n);
  }

  lemma TimesPlus(x: Complex, y: Complex, z: Complex)
    ensures Times(x, Plus(y, z)) == Plus(Times(x, y), Times(x, z))
    ensures Times(Plus(y, z), x) == Plus(Times(y, x), Times(z, x))
  {
    Distribute(x.re, y.re, z.re);
    Distribute(x.im, y.im, z.im);
    Distribute(x.re, y.im, z.im);
    Distribute(x.im, y.re, z.re);
  }

  lemma TimesZero(x: Complex)
    ensures Times(x, ZERO) == ZERO == Times(ZERO, x)
  {
  }

  lemma Distribute(x: int, y: int, z: int)
    ensures x * (y + z) == x * y + x * z && (y + z) * x == y * x + z * x
    ensures x * (y - z) == x * y - x * z && (y - z) * x == y * x - z * x
    ensures (x * y) * z == x * (y * z)
  {
  }

  lemma TimesAssoc(x: Complex, y: Complex, z: Complex)
    ensures Times(Times(x, y), z) == Times(x, Times(y, z))
  {
    Distribute(z.re, x.re * y.re, x.im * y.im);
    Distribute(z.im, x.re * y.im, x.im * y.re);
    Distribute(z.im, x.re * y.re, x.im * y.im);
    Distribute(z.re, x.re * y.im, x.im * y.re);
    Distribute(x.re, y.re * z.re, y.im * z.im);
    Distribute(x.im, y.re * z.im, y.im * z.re);
    Distribute(x.re, y.re * z.im, y.im * z.re);
    Distribute(x.im, y.re * z.re, y.im * z.im);
    Distribute(x.re, y.re, z.re);
    Distribute(x.im, y.im, z.re);
    Distribute(x.re, y.im, z.im);
    Distribute(x.im, y.re, z.im);
    Distribute(x.re, y.re, z.im);
    Distribute(x.im, y.im, z.im);
    Distribute(x.re, y.im, z.re);
    Distribute(x.im, y.re, z.re);
  }

  lemma TimesCommutes(x: Complex, y: Complex)
    ensures Times(x, y) == Times(y, x)
  {
  }

  lemma {:induction false} SumScaleLeft(x: Complex, f: int -> Complex, g: int -> Complex, n: nat)
    requires forall k :: 0 <= k < n ==> g(k) == Times(x, f(k))
    ensures Sum(g, n) == Times(x, Sum(f, n))
  {
    TimesZero(x);
    if n > 0 {
      SumScaleLeft(x, f, g, n - 1);
      TimesPlus(x, Sum(f, n - 1), f(n - 1));
    }
  }

  lemma {:induction false} SumScaleRight(x: Complex, f: int -> Complex, g: int -> Complex, n: nat)
    requires forall k :: 0 <= k < n ==> g(k) == Times(f(k), x)
    ensures Sum(g, n) == Times(Sum(f, n), x)
  {
    TimesZero(x);
    if n > 0 {
      SumScaleRight(x, f, g, n - 1);
      TimesPlus(x, Sum(f, n - 1), f(n - 1));
    }
  }

  lemma SumZero(f: int -> Complex, n: nat)
    requires forall k :: 0 <= k < n ==> f(k) == ZERO
    ensures Sum(f, n) == ZERO
  {
    SumZeroTail(f, 0, n);
  }

  lemma {:induction false} SumZeroTail(f: int -> Complex, l: nat, n: nat)
    requires l <= n && forall k :: l <= k < n ==> f(k) == ZERO
    ensures Sum(f, n) == Sum(f, l)
  {
    if l < n { SumZeroTail(f, l, n - 1); }
  }

  /** One table, by rows and by columns. */
  ghost predicate SameTable(row: int -> int -> Complex, col: int -> int -> Complex, n: nat, m: nat) {
    forall k, l :: 0 <= k < n && 0 <= l < m ==> row(k)(l) == col(l)(k)
  }

  /** `r` holds the sums of the first `n` rows. */
  ghost predicate RowSums(r: int -> Complex, row: int -> int -> Complex, n: nat, m: nat) {
    forall k :: 0 <= k < n ==> r(k) == Sum(row(k), m)
  }

  /** Exchanging the order of a double sum: `r` sums the rows and `c` the columns of one table. */
  lemma {:induction false} SumSwap(row: int -> int -> Complex, col: int -> int -> Complex,
                                   r: int -> Complex, c: int -> Complex, n: nat, m: nat)
    requires SameTable(row, col, n, m) && RowSums(r, row, n, m) && RowSums(c, col, m, n)
    ensures Sum(r, n) == Sum(c, m)
  {
    if n == 0 {
      SumZero(c, m);
    } else {
      var c' := l => Sum(col(l), n - 1);
      SumSwap(row, col, r, c', n - 1, m);
      forall l | 0 <= l < m ensures c(l) == Plus(c'(l), row(n - 1)(l)) {
        assert row(n - 1)(l) == col(l)(n - 1);
      }
      SumPlus(c', row(n - 1), c, m);
    }
  }

  // ---------- what makes them the complex numbers ----------

  /** The imaginary unit is a square root of -1. */
  lemma ImaginaryUnit()
    ensures Times(Complex(0, 1), Complex(0, 1)) == Complex(-1, 0)
  {
  }

  /** The squared norm is multiplicative. */
  lemma NormMultiplies(x: Complex, y: Complex)
    ensures var z := Times(x, y);
            z.re * z.re + z.im * z.im == (x.re * x.re + x.im * x.im) * (y.re * y.re + y.im * y.im)
  {
    TwoSquares(x.re, x.im, y.re, y.im);
  }

  lemma TwoSquares(a: int, b: int, c: int, d: int)
    ensures (a * c - b * d) * (a * c - b * d) + (a * d + b * c) * (a * d + b * c) == (a * a + b * b) * (c * c + d * d)
  {
    SquaresOf(a * c, b * d, a * d, b * c);
    FourFactors(a, c, b, d);
    FourFactors(a, c, a, c);
    FourFactors(b, d, b, d);
    FourFactors(a, d, a, d);
    FourFactors(b, c, b, c);
    FourTerms(a * a, b * b, c * c, d * d);
  }

  lemma SquaresOf(p: int, q: int, u: int, v: int)
    requires p * q == u * v
    ensures (p - q) * (p - q) + (u + v) * (u + v) == p * p + q * q + u * u + v * v
  {
    Distribute(p - q, p, q);
    Distribute(p, p, q);
    Distribute(q, p, q);
    Distribute(u + v, u, v);
    Distribute(u, u, v);
    Distribute(v, u, v);
  }

  lemma FourTerms(a: int, b: int, c: int, d: int)
    ensures (a + b) * (c + d) == a * c + a * d + b * c + b * d
  {
    Distribute(a + b, c, d);
    Distribute(c, a, b);
    Distribute(d, a, b);
  }

  /** A product of four factors in other orders. */
  lemma FourFactors(a: int, b: int, c: int, d: int)
    ensures (a * b) * (c * d) == (a * c) * (b * d) == (a * d) * (c * b)
  {
    Distribute(a, b, c * d);
    Distribute(b, c, d);
    Distribute(a, c, b * d);
    Distribute(c, b, d);
    Distribute(a, d, c * b);
    Distribute(d, c, b);
  }

  // ---------- products and transposes ----------

  function Transposed(m: Matrix): Matrix {
    Tabulate(m.cols, m.rows, (i, j) => m.At(j, i))
  }

  /** The first `n` terms of entry `(i, j)` of the product. */
  function Dot(a: Matrix, b: Matrix, i: int, j: int, n: nat): Complex {
    Sum(Term(a, b, i, j), n)
  }

  function Term(a: Matrix, b: Matrix, i: int, j: int): int -> Complex {
    k => Times(a.At(i, k), b.At(k, j))
  }

  function Product(a: Matrix, b: Matrix): Matrix {
    Tabulate(a.rows, b.cols, (i, j) => Dot(a, b, i, j, a.cols))
  }

  function Identity(n: nat): Matrix {
    Tabulate(n, n, (i, j) => if i == j then Complex(1, 0) else Complex(0, 0))
  }

  /** A sum with one term that is not zero. */
  lemma SumSingle(f: int -> Complex, l: nat, n: nat)
    requires l < n && forall k :: 0 <= k < n && k != l ==> f(k) == ZERO
    ensures Sum(f, n) == f(l)
  {
    SumZeroTail(f, l + 1, n);
    SumZeroTail(f, 0, l);
  }

  lemma TimesOne(x: Complex)
    ensures Times(x, Complex(1, 0)) == x == Times(Complex(1, 0), x)
  {
  }

  lemma RightIdentity(m: Matrix, i: int, j: int)
    requires 0 <= i < m.rows && 0 <= j < m.cols
    ensures Dot(m, Identity(m.cols), i, j, m.cols) == m.At(i, j)
  {
    var f, e := Term(m, Identity(m.cols), i, j), Identity(m.cols);
    forall k | 0 <= k < m.cols ensures f(k) == if k == j then m.At(i, j) else ZERO {
      assert e.At(k, j) == if k == j then Complex(1, 0) else ZERO;
      TimesOne(m.At(i, k));
      TimesZero(m.At(i, k));
    }
    SumSingle(f, j, m.cols);
  }

  lemma LeftIdentity(m: Matrix, i: int, j: int)
    requires 0 <= i < m.rows && 0 <= j < m.cols
    ensures Dot(Identity(m.rows), m, i, j, m.rows) == m.At(i, j)
  {
    var f, e := Term(Identity(m.rows), m, i, j), Identity(m.rows);
    forall k | 0 <= k < m.rows ensures f(k) == if k == i then m.At(i, j) else ZERO {
      assert e.At(i, k) == if i == k then Complex(1, 0) else ZERO;
      TimesOne(m.At(k, j));
      TimesZero(m.At(k, j));
    }
    SumSingle(f, i, m.rows);
  }

  /** Multiplying by the identity on either side changes nothing. */
  lemma ProductIdentity(m: Matrix)
    requires m.Valid()
    ensures Product(m, Identity(m.cols)) == m && Product(Identity(m.rows), m) == m
  {
    forall i, j | 0 <= i < m.rows && 0 <= j < m.cols
      ensures Product(m, Identity(m.cols)).At(i, j) == m.At(i, j) == Product(Identity(m.rows), m).At(i, j)
    {
      RightIdentity(m, i, j);
      LeftIdentity(m, i, j);
    }
    SameEntries(Product(m, Identity(m.cols)), m);
    SameEntries(Product(Identity(m.rows), m), m);
  }

  /** `f(0) + ... + f(n - 1)` of integers. */
  function Total(f: int -> int, n: nat): int {
    if n == 0 then 0 else Total(f, n - 1) + f(n - 1)
  }

  /** The product by its real and imaginary parts, entry by entry. */
  lemma ProductParts(a: Matrix, b: Matrix, i: int, j: int)
    requires 0 <= i < a.rows && 0 <= j < b.cols
    ensures Product(a, b).At(i, j).re
            == Total(k => a.At(i, k).re * b.At(k, j).re - a.At(i, k).im * b.At(k, j).im, a.cols)
    ensures Product(a, b).At(i, j).im
            == Total(k => a.At(i, k).re * b.At(k, j).im + a.At(i, k).im * b.At(k, j).re, a.cols)
  {
    SumParts(Term(a, b, i, j), k => a.At(i, k).re * b.At(k, j).re - a.At(i, k).im * b.At(k, j).im,
             k => a.At(i, k).re * b.At(k, j).im + a.At(i, k).im * b.At(k, j).re, a.cols);
  }

  lemma {:induction false} SumParts(f: int -> Complex, re: int -> int, im: int -> int, n: nat)
    requires forall k :: 0 <= k < n ==> f(k) == Complex(re(k), im(k))
    ensures Sum(f, n) == Complex(Total(re, n), Total(im, n))
  {
    if n > 0 { SumParts(f, re, im, n - 1); }
  }

  /** (AB)C = A(BC) for all conformable sizes, so products compose as linear maps do. */
  lemma ProductAssociative(a: Matrix, b: Matrix, c: Matrix)
    requires a.cols == b.rows && b.cols == c.rows
    ensures Product(Product(a, b), c) == Product(a, Product(b, c))
  {
    forall i, j | 0 <= i < a.rows && 0 <= j < c.cols
      ensures Product(Product(a, b), c).At(i, j) == Product(a, Product(b, c)).At(i, j)
    {
      EntryAssociative(a, b, c, i, j);
    }
    SameEntries(Product(Product(a, b), c), Product(a, Product(b, c)));
  }

  lemma EntryAssociative(a: Matrix, b: Matrix, c: Matrix, i: int, j: int)
    requires a.cols == b.rows && b.cols == c.rows && 0 <= i < a.rows && 0 <= j < c.cols
    ensures Dot(Product(a, b), c, i, j, b.cols) == Dot(a, Product(b, c), i, j, a.cols)
  {
    OneTable(a, b, c, i, j);
    TermsByRows(a, b, c, i, j);
    TermsByColumns(a, b, c, i, j);
    SumSwap(Rows(a, b, c, i, j), Cols(a, b, c, i, j), Term(Product(a, b), c, i, j), Term(a, Product(b, c), i, j), b.cols, a.cols);
  }

  lemma OneTable(a: Matrix, b: Matrix, c: Matrix, i: int, j: int)
    ensures SameTable(Rows(a, b, c, i, j), Cols(a, b, c, i, j), b.cols, a.cols)
  {
    forall k, l ensures Rows(a, b, c, i, j)(k)(l) == Cols(a, b, c, i, j)(l)(k) {
      TimesAssoc(a.At(i, l), b.At(l, k), c.At(k, j));
    }
  }

  lemma TermsByRows(a: Matrix, b: Matrix, c: Matrix, i: int, j: int)
    requires a.cols == b.rows && b.cols == c.rows && 0 <= i < a.rows
    ensures RowSums(Term(Product(a, b), c, i, j), Rows(a, b, c, i, j), b.cols, a.cols)
  {
    forall k | 0 <= k < b.cols ensures Term(Product(a, b), c, i, j)(k) == Sum(Rows(a, b, c, i, j)(k), a.cols) {
      OneRow(a, b, c, i, j, k);
    }
  }

  lemma OneRow(a: Matrix, b: Matrix, c: Matrix, i: int, j: int, k: int)
    requires a.cols == b.rows && b.cols == c.rows && 0 <= i < a.rows && 0 <= k < b.cols
    ensures Term(Product(a, b), c, i, j)(k) == Sum(Rows(a, b, c, i, j)(k), a.cols)
  {
    SumScaleRight(c.At(k, j), Term(a, b, i, k), Rows(a, b, c, i, j)(k), a.cols);
  }

  lemma TermsByColumns(a: Matrix, b: Matrix, c: Matrix, i: int, j: int)
    requires a.cols == b.rows && b.cols == c.rows && 0 <= j < c.cols
    ensures RowSums(Term(a, Product(b, c), i, j), Cols(a, b, c, i, j), a.cols, b.cols)
  {
    forall l | 0 <= l < a.cols ensures Term(a, Product(b, c), i, j)(l) == Sum(Cols(a, b, c, i, j)(l), b.cols) {
      OneColumn(a, b, c, i, j, l);
    }
  }

  lemma OneColumn(a: Matrix, b: Matrix, c: Matrix, i: int, j: int, l: int)
    requires a.cols == b.rows && b.cols == c.rows && 0 <= j < c.cols && 0 <= l < a.cols
    ensures Term(a, Product(b, c), i, j)(l) == Sum(Cols(a, b, c, i, j)(l), b.cols)
  {
    SumScaleLeft(a.At(i, l), Term(b, c, l, j), Cols(a, b, c, i, j)(l), b.cols);
  }

  /** The terms of entry `(i, j)` of (AB)C, by the index of the outer sum and then the inner. */
  function Rows(a: Matrix, b: Matrix, c: Matrix, i: int, j: int): int -> int -> Complex {
    k => l => Times(Times(a.At(i, l), b.At(l, k)), c.At(k, j))
  }

  /** And those of A(BC). */
  function Cols(a: Matrix, b: Matrix, c: Matrix, i: int, j: int): int -> int -> Complex {
    l => k => Times(a.At(i, l), Times(b.At(l, k), c.At(k, j)))
  }

  /** (AB)^T = B^T A^T. */
  lemma TransposeOfProduct(a: Matrix, b: Matrix)
    requires a.cols == b.rows
    ensures Transposed(Product(a, b)) == Product(Transposed(b), Transposed(a))
  {
    var l, r := Transposed(Product(a, b)), Product(Transposed(b), Transposed(a));
    forall i, j | 0 <= i < b.cols && 0 <= j < a.rows ensures l.At(i, j) == r.At(i, j) {
      forall k | 0 <= k < a.cols
        ensures Times(a.At(j, k), b.At(k, i)) == Times(Transposed(b).At(i, k), Transposed(a).At(k, j))
      {
        TimesCommutes(a.At(j, k), b.At(k, i));
      }
      SumEqual(Term(a, b, j, i), Term(Transposed(b), Transposed(a), i, j), a.cols);
    }
    SameEntries(l, r);
  }

  lemma TransposeTwice(m: Matrix)
    requires m.Valid()
    ensures Transposed(Transposed(m)) == m
  {
    SameEntries(Transposed(Transposed(m)), m);
  }

  /** M^T M is its own transpose. */
  lemma GramSymmetric(m: Matrix)
    requires m.Valid()
    ensures Transposed(Product(Transposed(m), m)) == Product(Transposed(m), m)
  {
    TransposeOfProduct(Transposed(m), m);
    TransposeTwice(m);
  }
}

/** The matrix code of the server (Final/complex_matrix.c), on arrays updated in place. */
module ComplexMatrices {
  import opened MatrixAlgebra

  /** `complex_matrix_t`. */
  class ComplexMatrix {
    const rows: nat
    const cols: nat
    const data: array2<Complex>

    /** `create_matrix`; the entries are arbitrary. */
    constructor (rows: nat, cols: nat)
      ensures this.rows == rows && this.cols == cols && Valid() && fresh(data)
    {
      this.rows, this.cols := rows, cols;
      data := new Complex[rows, cols];
    }

    ghost predicate Valid() {
      data.Length0 == rows && data.Length1 == cols
    }

    ghost function Value(): (m: Matrix)
      requires Valid()
      reads data
      ensures m.Valid() && m.rows == rows && m.cols == cols
      ensures forall i, j :: 0 <= i < rows && 0 <= j < cols ==> m.At(i, j) == data[i, j]
    {
      Matrix(rows, cols, seq(rows, i requires 0 <= i < rows reads data =>
                             seq(cols, j requires 0 <= j < cols reads data => data[i, j])))
    }
  }

  /** `transpose`. */
  method Transpose(matrix: ComplexMatrix) returns (transposed: ComplexMatrix)
    requires matrix.Valid()
    ensures transposed.Valid() && fresh(transposed) && fresh(transposed.data)
    ensures transposed.Value() == Transposed(matrix.Value())
    ensures transposed.rows == matrix.cols && transposed.cols == matrix.rows
    ensures forall i, j :: 0 <= i < matrix.rows && 0 <= j < matrix.cols ==> transposed.data[j, i] == matrix.data[i, j]
  {
    transposed := new ComplexMatrix(matrix.cols, matrix.rows);
    for i := 0 to matrix.rows
      invariant forall r, k :: 0 <= r < i && 0 <= k < matrix.cols ==> transposed.data[k, r] == matrix.data[r, k]
    {
      for j := 0 to matrix.cols
        invariant forall r, k :: 0 <= r < i && 0 <= k < matrix.cols ==> transposed.data[k, r] == matrix.data[r, k]
        invariant forall k :: 0 <= k < j ==> transposed.data[k, i] == matrix.data[i, k]
      {
        transposed.data[j, i] := matrix.data[i, j];
      }
    }
    SameEntries(transposed.Value(), Transposed(matrix.Value()));
  }

  /** `multiply`: null exactly if the sizes do not fit. */
  method Multiply(a: ComplexMatrix, b: ComplexMatrix) returns (result: ComplexMatrix?)
    requires a.Valid() && b.Valid()
    ensures result == null <==> a.cols != b.rows
    ensures result != null ==> result.Valid() && fresh(result) && fresh(result.data)
    ensures result != null ==> result.Value() == Product(a.Value(), b.Value())
  {
    if a.cols != b.rows {
      return null;
    }
    var m := new ComplexMatrix(a.rows, b.cols);
    ghost var av, bv := a.Value(), b.Value();
    for i := 0 to m.rows
      invariant forall r, k :: 0 <= r < i && 0 <= k < m.cols ==> m.data[r, k] == Dot(av, bv, r, k, a.cols)
    {
      for j := 0 to m.cols
        invariant forall r, k :: 0 <= r < i && 0 <= k < m.cols ==> m.data[r, k] == Dot(av, bv, r, k, a.cols)
        invariant forall k :: 0 <= k < j ==> m.data[i, k] == Dot(av, bv, i, k, a.cols)
      {
        MultiplyEntry(a, b, m, i, j);
      }
    }
    SameEntries(m.Value(), Product(av, bv));
    result := m;
  }

  /** The innermost loop of `multiply`, which accumulates in the entry itself. */
  method MultiplyEntry(a: ComplexMatrix, b: ComplexMatrix, m: ComplexMatrix, i: nat, j: nat)
    requires a.Valid() && b.Valid() && m.Valid() && a.cols == b.rows && m.rows == a.rows && m.cols == b.cols
    requires i < m.rows && j < m.cols && m.data != a.data && m.data != b.data
    modifies m.data
    ensures m.data[i, j] == Dot(a.Value(), b.Value(), i, j, a.cols)
    ensures forall r, k :: 0 <= r < m.rows && 0 <= k < m.cols && (r != i || k != j) ==> m.data[r, k] == old(m.data[r, k])
  {
    ghost var av, bv := a.Value(), b.Value();
    m.data[i, j] := ZERO;
    for k := 0 to a.cols
      invariant m.data[i, j] == Dot(av, bv, i, j, k)
      invariant forall r, c :: 0 <= r < m.rows && 0 <= c < m.cols && (r != i || c != j) ==> m.data[r, c] == old(m.data[r, c])
    {
      var x, y := a.data[i, k], b.data[k, j];
      assert av.At(i, k) == x && bv.At(k, j) == y;
      var realPart := x.re * y.re - x.im * y.im;
      var imagPart := x.re * y.im + x.im * y.re;
      m.data[i, j] := Complex(m.data[i, j].re + realPart, m.data[i, j].im + imagPart);
    }
  }

  // ---------- the simplified inverse ----------

  /** C's integer division, which truncates towards zero. */
  function TruncatedDivision(x: int, y: int): int
    requires y != 0
  {
    if x >= 0 then (if y > 0 then x / y else -(x / -y))
    else (if y > 0 then -(-x / y) else -x / -y)
  }

  /** What is left of a part of an entry: 1 and -1 stay, everything else becomes 0. */
  function Unit(x: int): int {
    if x == 1 then 1 else if x == -1 then -1 else 0
  }

  /** It leaves a remainder that is smaller than the divisor and has the sign of the dividend. */
  lemma TruncatesTowardsZero(x: int, y: int)
    requires y != 0
    ensures var r := x - y * TruncatedDivision(x, y);
            && (if y > 0 then -y < r < y else y < r < -y)
            && (r == 0 || (r > 0 <==> x > 0))
  {
    var a, b := if x >= 0 then x else -x, if y > 0 then y else -y;
    var k := a / b;
    Quotient(a, b);
    SignsOut(y, k);
    assert TruncatedDivision(x, y) == if (x >= 0) == (y > 0) then k else -k;
  }

  lemma Quotient(a: nat, b: int)
    requires 0 < b
    ensures 0 <= a - b * (a / b) < b
  {
  }

  lemma SignsOut(y: int, q: int)
    ensures y * -q == -(y * q) && -y * q == -(y * q) && -y * -q == y * q
  {
  }

  lemma OneOver(x: int)
    requires x != 0
    ensures TruncatedDivision(1, x) == Unit(x)
  {
  }

  function Units(x: Complex): Complex {
    Complex(Unit(x.re), Unit(x.im))
  }

  /** The loops of `pseudo_inverse` that replace each entry of the product by its units. */
  method TakeUnits(product: ComplexMatrix)
    requires product.Valid()
    modifies product.data
    ensures forall i, j :: 0 <= i < product.rows && 0 <= j < product.cols ==>
              product.data[i, j] == Units(old(product.data[i, j]))
  {
    for i := 0 to product.rows
      invariant forall r, k :: 0 <= r < i && 0 <= k < product.cols ==> product.data[r, k] == Units(old(product.data[r, k]))
      invariant forall r, k :: i <= r < product.rows && 0 <= k < product.cols ==> product.data[r, k] == old(product.data[r, k])
    {
      for j := 0 to product.cols
        invariant forall r, k :: 0 <= r < i && 0 <= k < product.cols ==> product.data[r, k] == Units(old(product.data[r, k]))
        invariant forall r, k :: i < r < product.rows && 0 <= k < product.cols ==> product.data[r, k] == old(product.data[r, k])
        invariant forall k :: 0 <= k < j ==> product.data[i, k] == Units(old(product.data[i, k]))
        invariant forall k :: j <= k < product.cols ==> product.data[i, k] == old(product.data[i, k])
      {
        var x := product.data[i, j];
        if product.data[i, j].re != 0 {
          OneOver(x.re);
          product.data[i, j] := Complex(TruncatedDivision(1, product.data[i, j].re), product.data[i, j].im);
        }
        if product.data[i, j].im != 0 {
          OneOver(x.im);
          product.data[i, j] := Complex(product.data[i, j].re, TruncatedDivision(1, product.data[i, j].im));
        }
        assert product.data[i, j] == Units(x);
      }
    }
  }

  /** M^T M. */
  function Gram(m: Matrix): Matrix {
    Product(Transposed(m), m)
  }

  function Inverse(m: Matrix): Matrix {
    Tabulate(m.cols, m.cols, (i, j) => Units(Gram(m).At(i, j)))
  }

  /** `pseudo_inverse`: for every size, the product is not null. */
  method PseudoInverse(matrix: ComplexMatrix) returns (product: ComplexMatrix)
    requires matrix.Valid()
    ensures product.Valid() && product.Value() == Inverse(matrix.Value())
  {
    var transposed := Transpose(matrix);
    var multiplied := Multiply(transposed, matrix);
    product := multiplied;
    ghost var gram := Gram(matrix.Value());
    assert product.Value() == gram;
    TakeUnits(product);
    SameEntries(product.Value(), Inverse(matrix.Value()));
  }

  /** The result is square and symmetric, and has only -1, 0 and 1 in it. */
  lemma InverseSymmetric(m: Matrix)
    requires m.Valid()
    ensures Inverse(m).rows == Inverse(m).cols == m.cols && Transposed(Inverse(m)) == Inverse(m)
    ensures forall i, j :: -1 <= Inverse(m).At(i, j).re <= 1 && -1 <= Inverse(m).At(i, j).im <= 1
  {
    GramSymmetric(m);
    var t := Transposed(Inverse(m));
    forall i, j | 0 <= i < m.cols && 0 <= j < m.cols ensures t.At(i, j) == Inverse(m).At(i, j) {
      assert Transposed(Gram(m)).At(i, j) == Gram(m).At(j, i);
    }
    SameEntries(t, Inverse(m));
  }

  /** What the result says of M^T M, for either part of each entry: 1 and -1 are their own inverses and
      stay, everything else becomes 0. */
  lemma InverseEntries(m: Matrix, i: int, j: int)
    requires m.Valid() && 0 <= i < m.cols && 0 <= j < m.cols
    ensures var g, u := Product(Transposed(m), m).At(i, j), Inverse(m).At(i, j);
            && (if g.re == 1 || g.re == -1 then u.re * g.re == 1 else u.re == 0)
            && (if g.im == 1 || g.im == -1 then u.im * g.im == 1 else u.im == 0)
  {
    assert Inverse(m).At(i, j) == Units(Gram(m).At(i, j));
  }

  // ---------- no overflow ----------

  /** A matrix as `generate_random_matrix` fills it. */
  ghost predicate Generated(m: Matrix) {
    m.Valid() && forall i, j :: 0 <= i < m.rows && 0 <= j < m.cols ==>
      0 <= m.At(i, j).re <= 999 && 0 <= m.At(i, j).im <= 999
  }

  /** A value of a `long long`. */
  predicate Fits(x: int) { -0x8000_0000_0000_0000 <= x <= 0x7FFF_FFFF_FFFF_FFFF }

  lemma SmallProduct(x: int, y: int)
    requires 0 <= x <= 999 && 0 <= y <= 999
    ensures 0 <= x * y <= 998001
  {
    NonNegative(x, y);
    NonNegative(x, 999 - y);
    Distribute(x, 999 - y, y);
  }

  lemma NonNegative(x: int, y: int)
    requires 0 <= x && 0 <= y
    ensures 0 <= x * y
  {
  }

  /** Every partial sum of an entry of M^T M stays within `n` times 999 squared, twice that for the
      imaginary part, which is never negative. */
  lemma {:induction false} PartialSumBounded(m: Matrix, i: int, j: int, n: nat)
    requires Generated(m) && 0 <= i < m.cols && 0 <= j < m.cols && n <= m.rows
    ensures var s := Dot(Transposed(m), m, i, j, n);
            && -(n * 998001) <= s.re <= n * 998001
            && 0 <= s.im <= 2 * n * 998001
  {
    if n > 0 {
      PartialSumBounded(m, i, j, n - 1);
      var x, y := m.At(n - 1, i), m.At(n - 1, j);
      assert Transposed(m).At(i, n - 1) == x;
      SmallProduct(x.re, y.re);
      SmallProduct(x.im, y.im);
      SmallProduct(x.re, y.im);
      SmallProduct(x.im, y.re);
    }
  }

  /** With r rows and 2 * r * 999 * 999 below 2^63, as for the 30 rows the server uses, no value
      that `multiply` computes for `pseudo_inverse` overflows a `long long`: 64-bit arithmetic is
      integer arithmetic. */
  lemma NoOverflow(m: Matrix, i: int, j: int, k: nat)
    requires Generated(m) && 0 <= i < m.cols && 0 <= j < m.cols && k < m.rows
    requires 2 * m.rows * 998001 <= 0x7FFF_FFFF_FFFF_FFFF
    ensures var x, y, s := Transposed(m).At(i, k), m.At(k, j), Dot(Transposed(m), m, i, j, k + 1);
            && Fits(x.re * y.re) && Fits(x.im * y.im) && Fits(x.re * y.im) && Fits(x.im * y.re)
            && -0x8000_0000_0000_0000 <= Times(x, y).re <= 0x7FFF_FFFF_FFFF_FFFF
            && -0x8000_0000_0000_0000 <= Times(x, y).im <= 0x7FFF_FFFF_FFFF_FFFF
            && -0x8000_0000_0000_0000 <= s.re <= 0x7FFF_FFFF_FFFF_FFFF
            && -0x8000_0000_0000_0000 <= s.im <= 0x7FFF_FFFF_FFFF_FFFF
  {
    var x, y := m.At(k, i), m.At(k, j);
    assert Transposed(m).At(i, k) == x;
    SmallProduct(x.re, y.re);
    SmallProduct(x.im, y.im);
    SmallProduct(x.re, y.im);
    SmallProduct(x.im, y.re);
    PartialSumBounded(m, i, j, k + 1);
  }
}
