/** Symmetry augmentation of training examples (`NNetWrapper.augment_examples` of
    the graph-attention Tic-Tac-Toe network): every example is followed by its
    three quarter-turn rotations and its left-right mirror image. The board is
    rotated or mirrored with NumPy's `rot90` / `fliplr`; the first nine policy
    entries, read as a 3x3 grid, get the same treatment; the pass entry `pi[9]`
    and the value `v` are copied. */
module Augmentation {
  import opened Common

  type Board = seq<seq<int>>
  type Policy = seq<real>

  // ---------------------------------------------------------------------------
  // Matrices as sequences of rows, and the NumPy operations used on them.

  /** Number of columns, taken from the first row (NumPy arrays are rectangular). */
  function Width<T>(m: seq<seq<T>>): nat
  {
    if |m| == 0 then 0 else |m[0]|
  }

  predicate Rectangular<T>(m: seq<seq<T>>)
  {
    forall i :: 0 <= i < |m| ==> |m[i]| == Width(m)
  }

  /** `m` has `h` rows of `w` entries. */
  predicate IsMatrix<T>(m: seq<seq<T>>, h: nat, w: nat)
  {
    |m| == h && Rectangular(m) && (h > 0 ==> Width(m) == w)
  }

  /** `np.fliplr(m)`: every row reversed. */
  function FlipLR<T>(m: seq<seq<T>>): (r: seq<seq<T>>)
    ensures |r| == |m| && Width(r) == Width(m)
    ensures forall i :: 0 <= i < |m| ==> |r[i]| == |m[i]|
    ensures Rectangular(m) ==> Rectangular(r)
  {
    seq(|m|, i requires 0 <= i < |m| => seq(|m[i]|, j requires 0 <= j < |m[i]| => m[i][|m[i]| - 1 - j]))
  }

  /** `np.flipud(m)`: the rows in reverse order. */
  function FlipUD<T>(m: seq<seq<T>>): (r: seq<seq<T>>)
    ensures |r| == |m|
    ensures forall i :: 0 <= i < |m| ==> r[i] == m[|m| - 1 - i]
    ensures Rectangular(m) ==> Rectangular(r) && Width(r) == Width(m)
  {
    seq(|m|, i requires 0 <= i < |m| => m[|m| - 1 - i])
  }

  /** `np.transpose(m)` of a rectangular matrix. */
  function Transpose<T>(m: seq<seq<T>>): (r: seq<seq<T>>)
    requires Rectangular(m)
    ensures |r| == Width(m) && Rectangular(r) && (|r| > 0 ==> Width(r) == |m|)
    ensures forall i, j :: 0 <= i < |r| && 0 <= j < |m| ==> |r[i]| == |m| && r[i][j] == m[j][i]
  {
    seq(Width(m), i requires 0 <= i < Width(m) => seq(|m|, j requires 0 <= j < |m| => m[j][i]))
  }

  /** `np.rot90(m, k)` as NumPy computes it for a 2-D array: `k` is taken modulo 4, then
      `k == 1` is the transpose of `fliplr`, `k == 2` flips both axes and `k == 3` is
      `fliplr` of the transpose. */
  function Rot90<T>(m: seq<seq<T>>, k: int): (r: seq<seq<T>>)
    requires Rectangular(m)
    ensures Rectangular(r)
  {
    var q := k % 4;
    if q == 0 then m
    else if q == 1 then Transpose(FlipLR(m))
    else if q == 2 then FlipLR(FlipUD(m))
    else FlipLR(Transpose(m))
  }

  /** One counter-clockwise quarter turn, written as the index map it is: entry `(i, j)`
      of the result is entry `(j, w - 1 - i)` of a matrix of width `w`. */
  function QuarterTurn<T>(m: seq<seq<T>>): (r: seq<seq<T>>)
    requires Rectangular(m)
    ensures |r| == Width(m) && Rectangular(r) && (|r| > 0 ==> Width(r) == |m|)
  {
    var w := Width(m);
    seq(w, i requires 0 <= i < w => seq(|m|, j requires 0 <= j < |m| => m[j][w - 1 - i]))
  }

  /** Two matrices of the same shape with the same entries are equal. */
  lemma MatrixExt<T>(a: seq<seq<T>>, b: seq<seq<T>>, h: nat, w: nat)
    requires IsMatrix(a, h, w) && IsMatrix(b, h, w)
    requires forall i, j :: 0 <= i < h && 0 <= j < w ==> a[i][j] == b[i][j]
    ensures a == b
  {
    forall i | 0 <= i < h
      ensures a[i] == b[i]
    {
      assert forall j :: 0 <= j < w ==> a[i][j] == b[i][j];
    }
  }

  /** Two quarter turns send entry `(h - 1 - i, w - 1 - j)` to `(i, j)`. */
  lemma HalfTurnAt<T>(m: seq<seq<T>>, h: nat, w: nat)
    requires IsMatrix(m, h, w) && h > 0 && w > 0
    ensures IsMatrix(QuarterTurn(m), w, h)
    ensures IsMatrix(QuarterTurn(QuarterTurn(m)), h, w)
    ensures forall i, j :: 0 <= i < h && 0 <= j < w ==>
      QuarterTurn(QuarterTurn(m))[i][j] == m[h - 1 - i][w - 1 - j]
  {
  }

  /** Four quarter turns give the matrix back. */
  lemma QuarterTurnFour<T>(m: seq<seq<T>>, h: nat, w: nat)
    requires IsMatrix(m, h, w) && h > 0 && w > 0
    ensures QuarterTurn(QuarterTurn(QuarterTurn(QuarterTurn(m)))) == m
  {
    var m2 := QuarterTurn(QuarterTurn(m));
    HalfTurnAt(m, h, w);
    HalfTurnAt(m2, h, w);
    MatrixExt(QuarterTurn(QuarterTurn(m2)), m, h, w);
  }

  /** Mirroring left-right twice gives the matrix back. */
  lemma FlipLRTwice<T>(m: seq<seq<T>>)
    ensures FlipLR(FlipLR(m)) == m
  {
    var r := FlipLR(FlipLR(m));
    forall i | 0 <= i < |m|
      ensures r[i] == m[i]
    {
    }
  }

  /** NumPy's `rot90(m, k)` is `k` quarter turns, for `k = 1, 2, 3`. */
  lemma Rot90IsQuarterTurns<T>(m: seq<seq<T>>, h: nat, w: nat)
    requires IsMatrix(m, h, w) && h > 0 && w > 0
    ensures Rot90(m, 1) == QuarterTurn(m)
    ensures Rot90(m, 2) == QuarterTurn(QuarterTurn(m))
    ensures Rot90(m, 3) == QuarterTurn(QuarterTurn(QuarterTurn(m)))
  {
    Rot90One(m, h, w);
    Rot90Two(m, h, w);
    Rot90Three(m, h, w);
  }

  lemma Rot90One<T>(m: seq<seq<T>>, h: nat, w: nat)
    requires IsMatrix(m, h, w) && h > 0 && w > 0
    ensures Rot90(m, 1) == QuarterTurn(m)
  {
    MatrixExt(Rot90(m, 1), QuarterTurn(m), w, h);
  }

  lemma Rot90Two<T>(m: seq<seq<T>>, h: nat, w: nat)
    requires IsMatrix(m, h, w) && h > 0 && w > 0
    ensures Rot90(m, 2) == QuarterTurn(QuarterTurn(m))
  {
    HalfTurnAt(m, h, w);
    MatrixExt(Rot90(m, 2), QuarterTurn(QuarterTurn(m)), h, w);
  }

  lemma Rot90Three<T>(m: seq<seq<T>>, h: nat, w: nat)
    requires IsMatrix(m, h, w) && h > 0 && w > 0
    ensures Rot90(m, 3) == QuarterTurn(QuarterTurn(QuarterTurn(m)))
  {
    var m1 := QuarterTurn(m);
    HalfTurnAt(m1, w, h);
    var r := Rot90(m, 3);
    var t := QuarterTurn(QuarterTurn(m1));
    forall i, j | 0 <= i < w && 0 <= j < h
      ensures r[i][j] == t[i][j]
    {
      Rot90ThreeAt(m, h, w, i, j);
    }
    MatrixExt(r, t, w, h);
  }

  lemma Rot90ThreeAt<T>(m: seq<seq<T>>, h: nat, w: nat, i: nat, j: nat)
    requires IsMatrix(m, h, w) && h > 0 && w > 0 && i < w && j < h
    ensures Rot90(m, 3)[i][j] == QuarterTurn(QuarterTurn(QuarterTurn(m)))[i][j]
  {
    var m1 := QuarterTurn(m);
    HalfTurnAt(m1, w, h);
    assert QuarterTurn(QuarterTurn(m1))[i][j] == m1[w - 1 - i][h - 1 - j] == m[h - 1 - j][i];
    assert Rot90(m, 3)[i][j] == Transpose(m)[i][h - 1 - j];
  }

  // ---------------------------------------------------------------------------
  // The five images of an example.

  datatype Symmetry = Original | Rotate(k: int) | Mirror

  /** In the order `augment_examples` appends them. */
  const Symmetries: seq<Symmetry> := [Original, Rotate(1), Rotate(2), Rotate(3), Mirror]

  /** The board under a symmetry; a square board stays a square board of the same size. */
  function Image<T>(s: Symmetry, m: seq<seq<T>>): (r: seq<seq<T>>)
    requires Rectangular(m)
    ensures Rectangular(r)
    ensures |m| == Width(m) ==> IsMatrix(r, |m|, |m|)
  {
    match s
    case Original => m
    case Rotate(k) => Rot90(m, k)
    case Mirror => FlipLR(m)
  }

  /** `pi[:9].reshape(3, 3)`. */
  function Grid(pi: Policy): (g: seq<seq<real>>)
    requires |pi| >= 9
    ensures IsMatrix(g, 3, 3)
  {
    [pi[0..3], pi[3..6], pi[6..9]]
  }

  function Zeros(n: nat): (z: Policy)
    ensures |z| == n && forall i :: 0 <= i < n ==> z[i] == 0.0
  {
    seq(n, _ => 0.0)
  }

  /** `np.rot90(pi[:9].reshape(3, 3), k).flatten()`, and the same with `fliplr`: the image
      of the 3x3 grid of cell probabilities, read back in row order. */
  function GridImage(s: Symmetry, pi: Policy): (cells: Policy)
    requires |pi| >= 9
    ensures |cells| == 9
  {
    var g := Image(s, Grid(pi));
    g[0] + g[1] + g[2]
  }

  /** `rotated_pi` / `flipped_pi`: a zero buffer shaped like `pi`, the transformed cells in
      its first nine entries and the pass entry copied to entry 9. */
  function PolicyImage(s: Symmetry, pi: Policy): (q: Policy)
    requires |pi| >= 10
    ensures |q| == |pi|
  {
    GridImage(s, pi) + [pi[9]] + Zeros(|pi| - 10)
  }

  /** An example `augment_examples` can process: a rectangular board and a policy with
      the nine cells and the pass entry. */
  predicate Augmentable(e: Example<Board, Policy>)
  {
    Rectangular(e.board) && |e.pi| >= 10
  }

  type Sample = e: Example<Board, Policy> | Augmentable(e)
    witness Example([], [0.0, 0.0, 0.0, 0.0, 0.0, 0.0, 0.0, 0.0, 0.0, 0.0], 0.0)

  /** The example appended for symmetry `s`; the original is appended as it is. */
  function Transformed(e: Sample, s: Symmetry): Example<Board, Policy>
  {
    if s == Original then e
    else Example(Image(s, e.board), PolicyImage(s, e.pi), e.v)
  }

  /** The five entries appended for one example. */
  function Block(e: Sample): (b: seq<Example<Board, Policy>>)
    ensures |b| == 5
  {
    seq(5, c requires 0 <= c < 5 => Transformed(e, Symmetries[c]))
  }

  /** What `augment_examples` returns: the blocks of the examples, in order. */
  function Augmented(examples: seq<Sample>): (r: seq<Example<Board, Policy>>)
    ensures |r| == 5 * |examples|
    decreases |examples|
  {
    if examples == [] then []
    else Augmented(examples[..|examples| - 1]) + Block(examples[|examples| - 1])
  }

  // ---------------------------------------------------------------------------
  // The same cell map for the board and the policy.

  /** A cell of the 3x3 grid, as (row, column). */
  datatype Cell = Cell(row: nat, col: nat)

  predicate OnGrid(c: Cell)
  {
    c.row < 3 && c.col < 3
  }

  /** Position of a cell in the row-order flattening of the grid. */
  function Index(c: Cell): nat
  {
    3 * c.row + c.col
  }

  /** The cell of a 3x3 grid that ends up at cell `c` under `s`. */
  function SourceCell(s: Symmetry, c: Cell): (src: Cell)
    requires OnGrid(c)
    ensures OnGrid(src)
  {
    var i, j := c.row, c.col;
    match s
    case Original => c
    case Rotate(k) =>
      var q := k % 4;
      if q == 0 then c
      else if q == 1 then Cell(j, 2 - i)
      else if q == 2 then Cell(2 - i, 2 - j)
      else Cell(2 - j, i)
    case Mirror => Cell(i, 2 - j)
  }

  /** Different cells come from different source cells: together with `OnGrid` this makes
      `SourceCell(s, ·)` a bijection of the nine cells. */
  lemma SourceCellInjective(s: Symmetry, c: Cell, c': Cell)
    requires OnGrid(c) && OnGrid(c') && SourceCell(s, c) == SourceCell(s, c')
    ensures c == c'
  {
  }

  /** On a 3x3 board, cell `(i, j)` of every image is the board's cell `SourceCell(s, (i, j))`. */
  lemma BoardCells<T>(s: Symmetry, m: seq<seq<T>>, c: Cell)
    requires IsMatrix(m, 3, 3) && OnGrid(c)
    ensures var src := SourceCell(s, c);
      Image(s, m)[c.row][c.col] == m[src.row][src.col]
  {
    match s
    case Original =>
    case Mirror =>
    case Rotate(k) => RotateCells(m, k, c);
  }

  lemma RotateCells<T>(m: seq<seq<T>>, k: int, c: Cell)
    requires IsMatrix(m, 3, 3) && OnGrid(c)
    ensures var src := SourceCell(Rotate(k), c);
      Rot90(m, k)[c.row][c.col] == m[src.row][src.col]
  {
    var q := k % 4;
    if q == 1 {
      QuarterTurnCells(m, k, c);
    } else if q == 2 {
      HalfTurnCells(m, k, c);
    } else if q == 3 {
      ThreeQuarterCells(m, k, c);
    }
  }

  lemma QuarterTurnCells<T>(m: seq<seq<T>>, k: int, c: Cell)
    requires IsMatrix(m, 3, 3) && OnGrid(c) && k % 4 == 1
    ensures var src := SourceCell(Rotate(k), c);
      Rot90(m, k)[c.row][c.col] == m[src.row][src.col]
  {
    assert Rot90(m, k) == Transpose(FlipLR(m));
  }

  lemma HalfTurnCells<T>(m: seq<seq<T>>, k: int, c: Cell)
    requires IsMatrix(m, 3, 3) && OnGrid(c) && k % 4 == 2
    ensures var src := SourceCell(Rotate(k), c);
      Rot90(m, k)[c.row][c.col] == m[src.row][src.col]
  {
    var u := FlipUD(m);
    assert Rot90(m, k) == FlipLR(u);
    assert u[c.row] == m[2 - c.row] && |u[c.row]| == 3;
    assert FlipLR(u)[c.row][c.col] == u[c.row][2 - c.col];
  }

  lemma ThreeQuarterCells<T>(m: seq<seq<T>>, k: int, c: Cell)
    requires IsMatrix(m, 3, 3) && OnGrid(c) && k % 4 == 3
    ensures var src := SourceCell(Rotate(k), c);
      Rot90(m, k)[c.row][c.col] == m[src.row][src.col]
  {
    assert Rot90(m, k) == FlipLR(Transpose(m));
  }

  /** Cell `c` of the policy image is the policy entry of the same source cell as the
      board image's cell `c`. */
  lemma PolicyCells(s: Symmetry, pi: Policy, c: Cell)
    requires |pi| >= 9 && OnGrid(c)
    ensures GridImage(s, pi)[Index(c)] == pi[Index(SourceCell(s, c))]
  {
    var g := Grid(pi);
    BoardCells(s, g, c);
    RowOrder(Image(s, g), c);
    GridCells(pi, SourceCell(s, c));
  }

  /** `reshape(3, 3)` puts entry `3i + j` at row `i`, column `j`. */
  lemma GridCells(pi: Policy, c: Cell)
    requires |pi| >= 9 && OnGrid(c)
    ensures Grid(pi)[c.row][c.col] == pi[Index(c)]
  {
  }

  /** `flatten()` of a 3x3 grid reads it in row order. */
  lemma RowOrder<T>(g: seq<seq<T>>, c: Cell)
    requires IsMatrix(g, 3, 3) && OnGrid(c)
    ensures (g[0] + g[1] + g[2])[Index(c)] == g[c.row][c.col]
  {
  }

  // ---------------------------------------------------------------------------
  // The policy image is a permutation of the nine cells.

  function Sum(xs: seq<real>): real
    decreases |xs|
  {
    if xs == [] then 0.0 else Sum(xs[..|xs| - 1]) + xs[|xs| - 1]
  }

  lemma {:induction false} SumConcat(a: seq<real>, b: seq<real>)
    ensures Sum(a + b) == Sum(a) + Sum(b)
    decreases |b|
  {
    if b == [] {
      assert a + b == a;
    } else {
      var b' := b[..|b| - 1];
      var x := b[|b| - 1];
      calc {
        Sum(a + b);
        { assert (a + b)[..|a + b| - 1] == a + b'; }
        Sum(a + b') + x;
        { SumConcat(a, b'); }
        Sum(a) + Sum(b') + x;
        Sum(a) + Sum(b);
      }
    }
  }

  /** Rearranging the entries of a list keeps its sum. */
  lemma {:induction false} SumPermutation(a: seq<real>, b: seq<real>)
    requires multiset(a) == multiset(b)
    ensures Sum(a) == Sum(b)
    decreases |a|
  {
    if a == [] {
      assert |b| == |multiset(b)| == 0;
    } else {
      var a' := a[..|a| - 1];
      var x := a[|a| - 1];
      assert x in multiset(b) by {
        assert a == a' + [x];
      }
      var k :| 0 <= k < |b| && b[k] == x;
      var rest := b[..k] + b[k + 1..];
      MultisetRemove(a, b, k);
      SumPermutation(a', rest);
      SumRemove(b, k);
    }
  }

  lemma MultisetRemove<T>(a: seq<T>, b: seq<T>, k: nat)
    requires multiset(a) == multiset(b) && a != [] && k < |b| && b[k] == a[|a| - 1]
    ensures multiset(a[..|a| - 1]) == multiset(b[..k] + b[k + 1..])
  {
    var x := b[k];
    var a', left, right := a[..|a| - 1], b[..k], b[k + 1..];
    assert a == a' + [x];
    assert b == left + [x] + right;
    calc {
      multiset(a');
      multiset(a') + multiset{x} - multiset{x};
      multiset(a) - multiset{x};
      multiset(b) - multiset{x};
      multiset(left) + multiset(right) + multiset{x} - multiset{x};
      multiset(left) + multiset(right);
      multiset(left + right);
    }
  }

  /** Taking out entry `k` lowers the sum by that entry. */
  lemma SumRemove(b: seq<real>, k: nat)
    requires k < |b|
    ensures Sum(b) == Sum(b[..k] + b[k + 1..]) + b[k]
  {
    var left, right, x := b[..k], b[k + 1..], b[k];
    assert b == (left + [x]) + right;
    calc {
      Sum(b);
      { SumConcat(left + [x], right); }
      Sum(left + [x]) + Sum(right);
      { SumConcat(left, [x]); assert [x][..0] == []; }
      Sum(left) + x + Sum(right);
      { SumConcat(left, right); }
      Sum(left + right) + x;
    }
  }

  /** The nine cells in row order. */
  const Cells: seq<Cell> :=
    [Cell(0, 0), Cell(0, 1), Cell(0, 2), Cell(1, 0), Cell(1, 1), Cell(1, 2), Cell(2, 0), Cell(2, 1), Cell(2, 2)]

  /** The nine transformed cells are the nine original cells rearranged by the bijection
      `SourceCell(s, ·)`: the same multiset, so the same total probability. */
  lemma PolicyPermutation(s: Symmetry, pi: Policy)
    requires |pi| >= 9
    ensures multiset(GridImage(s, pi)) == multiset(pi[..9])
    ensures Sum(GridImage(s, pi)) == Sum(pi[..9])
  {
    var cells := GridImage(s, pi);
    CellPermutationBijective(s);
    GridImagePermutes(s, pi);
    PermutedMultiset(pi[..9], cells, CellPermutation(s));
    SumPermutation(cells, pi[..9]);
  }

  /** Position `d` of the policy image holds the entry at position `CellPermutation(s)[d]`. */
  lemma GridImagePermutes(s: Symmetry, pi: Policy)
    requires |pi| >= 9
    ensures forall d :: 0 <= d < 9 ==> GridImage(s, pi)[d] == pi[..9][CellPermutation(s)[d]]
  {
    forall d | 0 <= d < 9
      ensures GridImage(s, pi)[d] == pi[..9][CellPermutation(s)[d]]
    {
      CellsInOrder(d);
      PolicyCells(s, pi, Cells[d]);
    }
  }

  /** `SourceCell(s, ·)` as a map on the row-order positions 0..8. */
  function CellPermutation(s: Symmetry): (p: seq<nat>)
    ensures |p| == 9
  {
    seq(9, d requires 0 <= d < 9 => Index(SourceCell(s, Cells[d])))
  }

  lemma CellsInOrder(d: nat)
    requires d < 9
    ensures OnGrid(Cells[d]) && Index(Cells[d]) == d
  {
  }

  /** Distinct grid cells have distinct positions. */
  lemma IndexInjective(c: Cell, c': Cell)
    requires OnGrid(c) && OnGrid(c') && Index(c) == Index(c')
    ensures c == c'
  {
  }

  /** The position map of every symmetry is a permutation of 0..8. */
  lemma CellPermutationBijective(s: Symmetry)
    ensures IsPermutation(CellPermutation(s), 9)
  {
    var p := CellPermutation(s);
    forall d | 0 <= d < 9
      ensures p[d] < 9
    {
      CellsInOrder(d);
    }
    forall d, e | 0 <= d < 9 && 0 <= e < 9 && p[d] == p[e]
      ensures d == e
    {
      CellsInOrder(d);
      CellsInOrder(e);
      IndexInjective(SourceCell(s, Cells[d]), SourceCell(s, Cells[e]));
      SourceCellInjective(s, Cells[d], Cells[e]);
      IndexInjective(Cells[d], Cells[e]);
    }
  }

  /** `p` maps the positions `0..n-1` one-to-one onto themselves. */
  predicate IsPermutation(p: seq<nat>, n: nat)
  {
    |p| == n && (forall d :: 0 <= d < n ==> p[d] < n) &&
    (forall d, e :: 0 <= d < n && 0 <= e < n && p[d] == p[e] ==> d == e)
  }

  lemma {:induction false} PermutedMultiset<T>(xs: seq<T>, ys: seq<T>, p: seq<nat>)
    requires |xs| == |ys| && IsPermutation(p, |xs|)
    requires forall d :: 0 <= d < |ys| ==> ys[d] == xs[p[d]]
    ensures multiset(ys) == multiset(xs)
    decreases |xs|
  {
    var n := |xs|;
    if n > 0 {
      var k := p[n - 1];
      var xs' := xs[..k] + xs[k + 1..];
      var ys' := ys[..n - 1];
      var p' := seq(n - 1, d requires 0 <= d < n - 1 => if p[d] < k then p[d] else p[d] - 1);
      forall d | 0 <= d < n - 1
        ensures ys'[d] == xs'[p'[d]]
      {
        assert p[d] != k;
      }
      assert IsPermutation(p', n - 1) by {
        forall d, e | 0 <= d < n - 1 && 0 <= e < n - 1 && p'[d] == p'[e]
          ensures d == e
        {
          assert p[d] != k && p[e] != k;
        }
      }
      PermutedMultiset(xs', ys', p');
      calc {
        multiset(ys);
        { assert ys == ys' + [ys[n - 1]]; }
        multiset(ys') + multiset{xs[k]};
        multiset(xs[..k]) + multiset(xs[k + 1..]) + multiset{xs[k]};
        { assert xs == xs[..k] + [xs[k]] + xs[k + 1..]; }
        multiset(xs);
      }
    }
  }

  // ---------------------------------------------------------------------------
  // The properties of the augmented list.

  /** `zeros_like(pi)` filled as the loop body does: the transformed cells, the pass entry,
      and zeros after it. */
  lemma PolicyImageEntries(s: Symmetry, pi: Policy)
    requires |pi| >= 10
    ensures var q := PolicyImage(s, pi);
      q[..9] == GridImage(s, pi) && q[9] == pi[9] &&
      (forall c :: 10 <= c < |q| ==> q[c] == 0.0) &&
      (forall c :: OnGrid(c) ==> q[Index(c)] == pi[Index(SourceCell(s, c))])
  {
    var q := PolicyImage(s, pi);
    assert q[..9] == GridImage(s, pi);
    forall c | OnGrid(c)
      ensures q[Index(c)] == pi[Index(SourceCell(s, c))]
    {
      PolicyCells(s, pi, c);
    }
  }

  /** Entry `5j + c` of the result is image `c` of example `j`: the original, `rot90` with
      `k = 1, 2, 3`, then `fliplr`. */
  lemma {:induction false} AugmentedAt(examples: seq<Sample>, j: nat, c: nat)
    requires j < |examples| && c < 5
    ensures Augmented(examples)[5 * j + c] == Transformed(examples[j], Symmetries[c])
    decreases |examples|
  {
    var n := |examples|;
    var front := examples[..n - 1];
    var previous := Augmented(front);
    assert Augmented(examples) == previous + Block(examples[n - 1]);
    if j < n - 1 {
      AugmentedAt(front, j, c);
      assert front[j] == examples[j];
    } else {
      assert 5 * j + c - |previous| == c;
    }
  }

  /** Every entry of block `j` keeps the value `v` and the pass entry `pi[9]` of example
      `j`, its policy is the image of the original's cells under the board's own cell map,
      and the nine cells keep their total. */
  lemma AugmentedKeeps(examples: seq<Sample>, j: nat, c: nat)
    requires j < |examples| && c < 5
    ensures var e := examples[j];
      var a := Augmented(examples)[5 * j + c];
      a.v == e.v && |a.pi| == |e.pi| && a.pi[9] == e.pi[9] &&
      multiset(a.pi[..9]) == multiset(e.pi[..9]) && Sum(a.pi[..9]) == Sum(e.pi[..9]) &&
      (forall d :: OnGrid(d) ==> a.pi[Index(d)] == e.pi[Index(SourceCell(Symmetries[c], d))])
  {
    AugmentedAt(examples, j, c);
    var e := examples[j];
    var s := Symmetries[c];
    if s != Original {
      PolicyImageEntries(s, e.pi);
      PolicyPermutation(s, e.pi);
    }
  }

  // ---------------------------------------------------------------------------
  // `augment_examples`, as the loops it is.

  /** `rotated_pi` / `flipped_pi`: a `zeros_like(pi)` buffer whose first nine entries are
      assigned the flattened image of the grid and whose entry 9 is the pass entry. */
  method ImagePolicy(s: Symmetry, pi: Policy) returns (q: Policy)
    requires |pi| >= 10
    ensures q == PolicyImage(s, pi)
  {
    var cells := GridImage(s, pi);
    var buffer := ZerosLike(pi);
    AssignPrefix(buffer, cells);
    buffer[9] := pi[9];
    q := buffer[..];
    PolicyImageAt(s, pi);
  }

  /** The slice assignment `buffer[:len(values)] = values`. */
  method AssignPrefix(buffer: array<real>, values: seq<real>)
    requires |values| <= buffer.Length
    modifies buffer
    ensures buffer[..] == values + old(buffer[..])[|values|..]
  {
    for c := 0 to |values|
      invariant buffer[..] == values[..c] + old(buffer[..])[c..]
    {
      buffer[c] := values[c];
      assert buffer[..] == values[..c + 1] + old(buffer[..])[c + 1..];
    }
  }

  /** `np.zeros_like(pi)`. */
  method ZerosLike(pi: Policy) returns (buffer: array<real>)
    ensures fresh(buffer) && buffer.Length == |pi|
    ensures forall d :: 0 <= d < buffer.Length ==> buffer[d] == 0.0
  {
    buffer := new real[|pi|](_ => 0.0);
  }

  lemma PolicyImageAt(s: Symmetry, pi: Policy)
    requires |pi| >= 10
    ensures forall d :: 0 <= d < |pi| ==>
      PolicyImage(s, pi)[d] == if d < 9 then GridImage(s, pi)[d] else if d == 9 then pi[9] else 0.0
  {
  }

  /** `augment_examples(examples)`. */
  method AugmentExamples(examples: seq<Sample>) returns (augmented: seq<Example<Board, Policy>>)
    ensures augmented == Augmented(examples)
    ensures |augmented| == 5 * |examples|
  {
    augmented := [];
    for n := 0 to |examples|
      invariant augmented == Augmented(examples[..n])
    {
      var block := AugmentOne(examples[n]);
      assert examples[..n + 1][..n] == examples[..n];
      augmented := augmented + block;
    }
    assert examples[..|examples|] == examples;
  }

  /** One pass of the outer loop: the original, `rot90` for `k` in `range(1, 4)`, then `fliplr`. */
  method AugmentOne(e: Sample) returns (block: seq<Example<Board, Policy>>)
    ensures block == Block(e)
  {
    var board, pi, v := e.board, e.pi, e.v;
    block := [e];
    for k := 1 to 4
      invariant |block| == k
      invariant forall c :: 0 <= c < k ==> block[c] == Transformed(e, Symmetries[c])
    {
      assert Symmetries[k] == Rotate(k);
      var rotatedBoard := Rot90(board, k);
      var rotatedPi := ImagePolicy(Rotate(k), pi);
      block := block + [Example(rotatedBoard, rotatedPi, v)];
    }
    var flippedBoard := FlipLR(board);
    var flippedPi := ImagePolicy(Mirror, pi);
    block := block + [Example(flippedBoard, flippedPi, v)];
    assert Symmetries[4] == Mirror;
  }
}
