/** The board-to-graph encoding of the graph-attention Tic-Tac-Toe network
    (`TicTacToeGAT._board_to_graph`): a batch of boards becomes one node per
    cell, with three count features, and one fully connected directed graph per
    board, the copies numbered consecutively. */
module Graph {
  import opened Common

  // ---------------------------------------------------------------------------
  // Tensors.

  /** `m` has `h` rows of `w` entries. */
  predicate IsGrid(m: seq<seq<int>>, h: nat, w: nat)
  {
    |m| == h && forall i :: 0 <= i < h ==> |m[i]| == w
  }

  predicate IsStack(s: seq<seq<seq<int>>>, d: nat, h: nat, w: nat)
  {
    |s| == d && forall k :: 0 <= k < d ==> IsGrid(s[k], h, w)
  }

  predicate IsBatch(x: seq<seq<seq<seq<int>>>>, b: nat, c: nat, h: nat, w: nat)
  {
    |x| == b && forall k :: 0 <= k < b ==> IsStack(x[k], c, h, w)
  }

  /** A `(batch, channels, height, width)` tensor: its entries and its shape. */
  datatype Tensor4 = Tensor4(x: seq<seq<seq<seq<int>>>>, batch: nat, channels: nat, height: nat, width: nat)

  /** The tensor handed to the encoding, by its number of dimensions. A tensor's entries and
      shape always agree; a rank other than 2, 3 or 4 is kept as just that number. */
  datatype RawInput =
    | Dim2(grid: seq<seq<int>>, h: nat, w: nat)
    | Dim3(stack: seq<seq<seq<int>>>, d: nat, h: nat, w: nat)
    | Dim4(tensor: Tensor4)
    | OtherDim(rank: nat)

  predicate ShapeAgrees(s: RawInput)
  {
    match s
    case Dim2(g, h, w) => IsGrid(g, h, w)
    case Dim3(st, d, h, w) => IsStack(st, d, h, w)
    case Dim4(t) => IsBatch(t.x, t.batch, t.channels, t.height, t.width)
    case OtherDim(r) => r != 2 && r != 3 && r != 4
  }

  type Input = s: RawInput | ShapeAgrees(s) witness OtherDim(0)

  /** Why the encoding raises instead of returning. */
  datatype GraphError =
    | BadRank        // the shape does not unpack into four dimensions
    | AmbiguousView  // `view(batch_size, channels, -1)` of a tensor with no entries
    | ShapeMismatch  // the feature columns cannot be assigned into `x`

  /** `s.unsqueeze(0).unsqueeze(0)` for two dimensions, `s.unsqueeze(1)` for three;
      four dimensions are left as they are. */
  function Normalize(s: Input): (t: Option<Tensor4>)
    ensures t.Some? ==> IsBatch(t.value.x, t.value.batch, t.value.channels, t.value.height, t.value.width)
  {
    match s
    case Dim2(g, h, w) => Some(Tensor4([[g]], 1, 1, h, w))
    case Dim3(st, d, h, w) => Some(Tensor4(seq(d, k requires 0 <= k < d => [st[k]]), d, 1, h, w))
    case Dim4(t) => Some(t)
    case OtherDim(_) => None
  }

  /** A 2-D board is lifted to one board with one channel, a 3-D stack to a batch with one
      channel per board, entries unchanged; other ranks fail to unpack. */
  lemma NormalizeShape(s: Input)
    ensures s.Dim2? ==> Normalize(s) == Some(Tensor4([[s.grid]], 1, 1, s.h, s.w))
    ensures s.Dim3? ==> (Normalize(s).Some? &&
      var t := Normalize(s).value;
      t.batch == s.d && t.channels == 1 && t.height == s.h && t.width == s.w &&
      forall k :: 0 <= k < s.d ==> t.x[k] == [s.stack[k]])
    ensures s.Dim4? ==> Normalize(s) == Some(s.tensor)
    ensures Normalize(s).None? <==> s.OtherDim?
  {
  }

  // ---------------------------------------------------------------------------
  // Node features.

  /** How many entries of `values` equal `v`: `(s_flat == v).float().sum(dim=1)`. */
  function Count(values: seq<int>, v: int): nat
  {
    multiset(values)[v]
  }

  /** Row of `x` for one node: the numbers of its channels that are empty (0), X (1)
      and O (-1). */
  function Feature(values: seq<int>): (f: seq<nat>)
    ensures |f| == 3
  {
    [Count(values, 0), Count(values, 1), Count(values, -1)]
  }

  /** The channel values of cell `(i, j)` of board `b`. */
  function Channels(t: Tensor4, b: nat, i: nat, j: nat): (values: seq<int>)
    requires IsBatch(t.x, t.batch, t.channels, t.height, t.width)
    requires b < t.batch && i < t.height && j < t.width
    ensures |values| == t.channels
  {
    seq(t.channels, ch requires 0 <= ch < t.channels => t.x[b][ch][i][j])
  }

  /** The feature rows of board `b`, cell by cell in row-major order. */
  function BoardFeatures(t: Tensor4, b: nat): (rows: seq<seq<nat>>)
    requires IsBatch(t.x, t.batch, t.channels, t.height, t.width) && b < t.batch
  {
    Flatten(seq(t.height, i requires 0 <= i < t.height =>
      seq(t.width, j requires 0 <= j < t.width => Feature(Channels(t, b, i, j)))))
  }

  /** `x` with its three columns assigned: row `r` of
      `s.view(batch, channels, -1).transpose(1, 2).view(-1, channels)` holds the channels of
      one cell, boards in order and the cells of a board in row-major order. */
  function Features(t: Tensor4): (x: seq<seq<nat>>)
    requires IsBatch(t.x, t.batch, t.channels, t.height, t.width)
  {
    Flatten(seq(t.batch, b requires 0 <= b < t.batch => BoardFeatures(t, b)))
  }

  lemma BoardFeaturesAt(t: Tensor4, b: nat, i: nat, j: nat)
    requires IsBatch(t.x, t.batch, t.channels, t.height, t.width)
    requires b < t.batch && i < t.height && j < t.width
    ensures |BoardFeatures(t, b)| == t.height * t.width
    ensures i * t.width + j < |BoardFeatures(t, b)| &&
      BoardFeatures(t, b)[i * t.width + j] == Feature(Channels(t, b, i, j))
  {
    var rows := seq(t.height, i requires 0 <= i < t.height =>
      seq(t.width, j requires 0 <= j < t.width => Feature(Channels(t, b, i, j))));
    FlattenLength(rows);
    TotalLengthUniform(rows, t.width);
    FlattenUniformAt(rows, t.width, i, j);
  }

  /** Node `(i, j)` of board `b` is row `b * height * width + i * width + j` of `x`, and
      `x` has one row per node. */
  lemma FeaturesAt(t: Tensor4, b: nat, i: nat, j: nat)
    requires IsBatch(t.x, t.batch, t.channels, t.height, t.width)
    requires b < t.batch && i < t.height && j < t.width
    ensures var cells := t.height * t.width;
      b * cells + (i * t.width + j) < |Features(t)| &&
      Features(t)[b * cells + (i * t.width + j)] == Feature(Channels(t, b, i, j))
  {
    var cells := t.height * t.width;
    var boards := seq(t.batch, b requires 0 <= b < t.batch => BoardFeatures(t, b));
    forall k | 0 <= k < t.batch
      ensures |boards[k]| == cells
    {
      BoardFeaturesLength(t, k);
    }
    BoardFeaturesAt(t, b, i, j);
    MulBound(i, t.height, j, t.width);
    FeaturesLength(t);
    FlattenUniformAt(boards, cells, b, i * t.width + j);
  }

  lemma FeaturesLength(t: Tensor4)
    requires IsBatch(t.x, t.batch, t.channels, t.height, t.width)
    ensures |Features(t)| == t.batch * (t.height * t.width)
  {
    var boards := seq(t.batch, b requires 0 <= b < t.batch => BoardFeatures(t, b));
    forall k | 0 <= k < t.batch
      ensures |boards[k]| == t.height * t.width
    {
      BoardFeaturesLength(t, k);
    }
    FlattenLength(boards);
    TotalLengthUniform(boards, t.height * t.width);
  }

  lemma BoardFeaturesLength(t: Tensor4, b: nat)
    requires IsBatch(t.x, t.batch, t.channels, t.height, t.width) && b < t.batch
    ensures |BoardFeatures(t, b)| == t.height * t.width
  {
    var rows := seq(t.height, i requires 0 <= i < t.height =>
      seq(t.width, j requires 0 <= j < t.width => Feature(Channels(t, b, i, j))));
    FlattenLength(rows);
    TotalLengthUniform(rows, t.width);
  }

  /** On a one-channel board with entries in {-1, 0, 1} every node row is one-hot. */
  lemma FeatureOneHot(values: seq<int>)
    requires |values| == 1 && values[0] in {-1, 0, 1}
    ensures var f := Feature(values);
      f[0] + f[1] + f[2] == 1 && f[0] <= 1 && f[1] <= 1 && f[2] <= 1
      && (f[0] == 1 <==> values[0] == 0)
      && (f[1] == 1 <==> values[0] == 1)
      && (f[2] == 1 <==> values[0] == -1)
  {
    assert multiset(values) == multiset{values[0]};
  }

  /** With entries in {-1, 0, 1} the three counts add up to the number of channels; in
      general they add up to at most that. */
  lemma {:induction false} FeatureTotal(values: seq<int>)
    ensures var f := Feature(values); f[0] + f[1] + f[2] <= |values|
    ensures (forall k :: 0 <= k < |values| ==> values[k] in {-1, 0, 1}) ==>
      var f := Feature(values); f[0] + f[1] + f[2] == |values|
    decreases |values|
  {
    if values != [] {
      var front, x := values[..|values| - 1], values[|values| - 1];
      FeatureTotal(front);
      assert values == front + [x];
      assert multiset(values) == multiset(front) + multiset{x};
    }
  }

  // ---------------------------------------------------------------------------
  // The edge list of one board.

  /** A directed edge: a column of `edge_index`, source in row 0 and target in row 1. */
  datatype Edge = Edge(src: nat, dst: nat)

  /** `row`'s pairs `(row, j)` for `j` from `row + 1` up to `n - 1`. */
  function PairsFrom(row: nat, n: nat): (es: seq<Edge>)
    requires row < n
    ensures |es| == n - 1 - row
  {
    seq(n - 1 - row, t requires 0 <= t < n - 1 - row => Edge(row, row + 1 + t))
  }

  /** `combinations(arange(n), r=2)` from row `row` on, in lexicographic order. */
  function CombinationsFrom(row: nat, n: nat): seq<Edge>
    decreases n - row
  {
    if row >= n then [] else PairsFrom(row, n) + CombinationsFrom(row + 1, n)
  }

  /** `torch.combinations(torch.arange(n), r=2).t()`. */
  function Combinations(n: nat): seq<Edge>
  {
    CombinationsFrom(0, n)
  }

  /** `edge_index_single.flip(0)`: sources and targets swapped. */
  function Reversed(es: seq<Edge>): (rs: seq<Edge>)
    ensures |rs| == |es|
  {
    seq(|es|, k requires 0 <= k < |es| => Edge(es[k].dst, es[k].src))
  }

  /** `torch.cat([edge_index_single, edge_index_single.flip(0)], dim=1)`. */
  function SingleGraph(n: nat): seq<Edge>
  {
    Combinations(n) + Reversed(Combinations(n))
  }

  /** Lexicographic order on pairs. */
  predicate Before(a: Edge, b: Edge)
  {
    a.src < b.src || (a.src == b.src && a.dst < b.dst)
  }

  predicate StrictlySorted(es: seq<Edge>)
  {
    forall i, j :: 0 <= i < j < |es| ==> Before(es[i], es[j])
  }

  lemma {:induction false} CombinationsFromMembers(row: nat, n: nat, e: Edge)
    ensures e in CombinationsFrom(row, n) <==> row <= e.src < e.dst < n
    decreases n - row
  {
    if row < n {
      CombinationsFromMembers(row + 1, n, e);
      if e.src == row && e.src < e.dst < n {
        assert PairsFrom(row, n)[e.dst - row - 1] == e;
      }
    }
  }

  lemma {:induction false} CombinationsFromLength(row: nat, n: nat)
    ensures 2 * |CombinationsFrom(row, n)| == if row >= n then 0 else (n - row) * (n - row - 1)
    decreases n - row
  {
    if row < n {
      CombinationsFromLength(row + 1, n);
      var m := n - row - 1;
      assert (m + 1) * m == 2 * m + m * (m - 1) by {
        if m > 0 {
          assert (m + 1) * m == m * m + m;
          assert m * (m - 1) == m * m - m;
        }
      }
    }
  }

  lemma {:induction false} CombinationsFromSorted(row: nat, n: nat)
    ensures StrictlySorted(CombinationsFrom(row, n))
    ensures forall k :: 0 <= k < |CombinationsFrom(row, n)| ==> CombinationsFrom(row, n)[k].src >= row
    decreases n - row
  {
    if row < n {
      CombinationsFromSorted(row + 1, n);
      var head, tail := PairsFrom(row, n), CombinationsFrom(row + 1, n);
      var all := head + tail;
      forall i, j | 0 <= i < j < |all|
        ensures Before(all[i], all[j])
      {
        if j < |head| {
        } else if i < |head| {
          assert all[j] == tail[j - |head|];
        } else {
          assert all[i] == tail[i - |head|] && all[j] == tail[j - |head|];
        }
      }
    }
  }

  /** `combinations` yields every pair `u < v` below `n` exactly once, in lexicographic
      order: `n(n-1)/2` pairs. */
  lemma CombinationsProperties(n: nat)
    ensures 2 * |Combinations(n)| == n * (n - 1)
    ensures forall e :: e in Combinations(n) <==> e.src < e.dst < n
    ensures StrictlySorted(Combinations(n))
  {
    CombinationsFromLength(0, n);
    CombinationsFromSorted(0, n);
    forall e
      ensures e in Combinations(n) <==> e.src < e.dst < n
    {
      CombinationsFromMembers(0, n, e);
    }
  }

  /** The single-board edge list is the complete directed graph on `n` nodes:
      `n(n-1)` edges, no self-loop, each ordered pair of distinct nodes exactly once, and
      with every edge its reverse. */
  lemma SingleGraphProperties(n: nat)
    ensures |SingleGraph(n)| == n * (n - 1)
    ensures forall e :: e in SingleGraph(n) <==> e.src != e.dst && e.src < n && e.dst < n
    ensures forall k :: 0 <= k < |SingleGraph(n)| ==> SingleGraph(n)[k].src != SingleGraph(n)[k].dst
    ensures forall e :: e in SingleGraph(n) <==> Edge(e.dst, e.src) in SingleGraph(n)
    ensures forall i, j :: 0 <= i < j < |SingleGraph(n)| ==> SingleGraph(n)[i] != SingleGraph(n)[j]
  {
    CombinationsProperties(n);
    var cs := Combinations(n);
    var g := SingleGraph(n);
    forall e
      ensures e in g <==> e.src != e.dst && e.src < n && e.dst < n
    {
      SingleGraphMember(n, e);
    }
    forall i, j | 0 <= i < j < |g|
      ensures g[i] != g[j]
    {
      if j < |cs| {
        assert Before(cs[i], cs[j]);
      } else if i >= |cs| {
        assert Before(cs[i - |cs|], cs[j - |cs|]);
      } else {
        assert cs[j - |cs|] in cs;
      }
    }
  }

  lemma SingleGraphMember(n: nat, e: Edge)
    requires forall e :: e in Combinations(n) <==> e.src < e.dst < n
    ensures e in SingleGraph(n) <==> e.src != e.dst && e.src < n && e.dst < n
  {
    var cs := Combinations(n);
    var rs := Reversed(cs);
    if e in rs {
      var k :| 0 <= k < |rs| && rs[k] == e;
      assert cs[k] in cs;
    }
    if e.dst < e.src < n {
      var f := Edge(e.dst, e.src);
      assert f in cs;
      var k :| 0 <= k < |cs| && cs[k] == f;
      assert rs[k] == e;
    }
  }

  // ---------------------------------------------------------------------------
  // The batched edge list.

  /** `edge_index_single.repeat(1, copies)`: the list tiled `copies` times. */
  function Repeat<T>(xs: seq<T>, copies: nat): (r: seq<T>)
    ensures |r| == copies * |xs|
    decreases copies
  {
    if copies == 0 then []
    else
      var c: nat := copies - 1;
      assert copies * |xs| == c * |xs| + |xs|;
      Repeat(xs, c) + xs
  }

  /** `arange(copies).repeat_interleave(width) * n`: `width` times `0`, then `width` times
      `n`, and so on. */
  function Offsets(copies: nat, width: nat, n: nat): (r: seq<nat>)
    ensures |r| == copies * width
    decreases copies
  {
    if copies == 0 then []
    else
      var c: nat := copies - 1;
      assert copies * width == c * width + width;
      Offsets(c, width, n) + seq(width, _ => c * n)
  }

  /** `edge_index + batch_offset`: both endpoints of every edge shifted by its offset. */
  function Shifted(es: seq<Edge>, offsets: seq<nat>): (r: seq<Edge>)
    requires |offsets| == |es|
    ensures |r| == |es|
  {
    seq(|es|, k requires 0 <= k < |es| => Edge(es[k].src + offsets[k], es[k].dst + offsets[k]))
  }

  /** The edge index for `batch` boards of `n` nodes. */
  function BatchedEdges(batch: nat, n: nat): (es: seq<Edge>)
  {
    var single := SingleGraph(n);
    Shifted(Repeat(single, batch), Offsets(batch, |single|, n))
  }

  lemma {:induction false} RepeatAt<T>(xs: seq<T>, copies: nat, b: nat, e: nat)
    requires b < copies && e < |xs|
    ensures b * |xs| + e < |Repeat(xs, copies)| && Repeat(xs, copies)[b * |xs| + e] == xs[e]
    decreases copies
  {
    MulBound(b, copies, e, |xs|);
    if b < copies - 1 {
      RepeatAt(xs, copies - 1, b, e);
      MulBound(b, copies - 1, e, |xs|);
    }
  }

  lemma {:induction false} OffsetsAt(copies: nat, width: nat, n: nat, b: nat, e: nat)
    requires b < copies && e < width
    ensures b * width + e < |Offsets(copies, width, n)| && Offsets(copies, width, n)[b * width + e] == b * n
    decreases copies
  {
    MulBound(b, copies, e, width);
    if b < copies - 1 {
      OffsetsAt(copies - 1, width, n, b, e);
      MulBound(b, copies - 1, e, width);
    }
  }

  /** Copy `b` of the graph is the single-board graph with every node shifted by `b * n`. */
  lemma BatchedEdgesAt(batch: nat, n: nat, b: nat, e: nat)
    requires b < batch && e < |SingleGraph(n)|
    ensures var single := SingleGraph(n);
      b * |single| + e < |BatchedEdges(batch, n)| &&
      BatchedEdges(batch, n)[b * |single| + e] == Edge(single[e].src + b * n, single[e].dst + b * n)
  {
    var single := SingleGraph(n);
    RepeatAt(single, batch, b, e);
    OffsetsAt(batch, |single|, n, b, e);
  }

  /** So the edges of copy `b` stay among the nodes `b * n .. (b + 1) * n - 1` of board `b`,
      and none of them is a self-loop. */
  lemma BatchedEdgesWithinBoard(batch: nat, n: nat, b: nat, e: nat)
    requires b < batch && e < |SingleGraph(n)|
    ensures var single := SingleGraph(n);
      b * |single| + e < |BatchedEdges(batch, n)| &&
      var edge := BatchedEdges(batch, n)[b * |single| + e];
      b * n <= edge.src < (b + 1) * n && b * n <= edge.dst < (b + 1) * n && edge.src != edge.dst
  {
    BatchedEdgesAt(batch, n, b, e);
    SingleGraphEdge(n, e);
    assert (b + 1) * n == b * n + n;
  }

  /** Every edge of the single-board graph joins two distinct nodes below `n`. */
  lemma SingleGraphEdge(n: nat, e: nat)
    requires e < |SingleGraph(n)|
    ensures SingleGraph(n)[e].src < n && SingleGraph(n)[e].dst < n
    ensures SingleGraph(n)[e].src != SingleGraph(n)[e].dst
  {
    var g := SingleGraph(n);
    assert g[e] in g;
    SingleGraphMember(n, g[e]) by {
      CombinationsProperties(n);
    }
  }

  /** The number of edges of a batch. */
  lemma BatchedEdgesLength(batch: nat, n: nat)
    ensures |BatchedEdges(batch, n)| == batch * (n * (n - 1))
  {
    SingleGraphProperties(n);
  }

  // ---------------------------------------------------------------------------
  // The whole encoding.

  datatype GraphData = GraphData(x: seq<seq<nat>>, edges: seq<Edge>)

  /** `x = torch.zeros(nodes, 3)` followed by the three column assignments of the feature
      columns computed from `rows`: the columns must have `nodes` entries, or a single
      entry that PyTorch broadcasts down the column. */
  function AssignColumns(rows: seq<seq<nat>>, nodes: nat): Option<seq<seq<nat>>>
  {
    if |rows| == nodes then Some(rows)
    else if |rows| == 1 then Some(seq(nodes, _ => rows[0]))
    else None
  }

  /** The assignment succeeds exactly when the lengths agree or the column has one entry;
      then `x` has `nodes` rows, row `r` taken from row `r` of `rows` or from its only row. */
  lemma AssignColumnsSpec(rows: seq<seq<nat>>, nodes: nat)
    ensures AssignColumns(rows, nodes).Some? <==> |rows| == nodes || |rows| == 1
    ensures AssignColumns(rows, nodes).Some? ==>
      var x := AssignColumns(rows, nodes).value;
      |x| == nodes &&
      forall r :: 0 <= r < nodes ==> x[r] == if |rows| == nodes then rows[r] else rows[0]
  {
  }

  /** `_board_to_graph(s)` for a network over boards of `numNodes` cells: the node features
      of every cell of every board, and the batched complete graph. */
  function BoardToGraph(s: Input, numNodes: nat): Result<GraphData, GraphError>
  {
    match Normalize(s)
    case None => Err(BadRank)
    case Some(t) =>
      if t.batch == 0 || t.channels == 0 then Err(AmbiguousView)
      else
        match AssignColumns(Features(t), t.batch * numNodes)
        case None => Err(ShapeMismatch)
        case Some(x) => Ok(GraphData(x, BatchedEdges(t.batch, numNodes)))
  }

  /** The encoding succeeds exactly for two to four dimensions, a non-empty batch and
      channel dimension, and boards of `numNodes` cells (or a single cell in all, broadcast
      into every row). */
  lemma BoardToGraphSucceeds(s: Input, numNodes: nat)
    ensures BoardToGraph(s, numNodes).Ok? <==>
      Normalize(s).Some? &&
      var t := Normalize(s).value;
      t.batch > 0 && t.channels > 0 &&
      (t.height * t.width == numNodes || t.batch * (t.height * t.width) == 1)
  {
    if Normalize(s).Some? && Normalize(s).value.batch > 0 {
      ColumnsFit(Normalize(s).value, numNodes);
    }
  }

  /** The feature rows of a non-empty batch fill the node column exactly when every board
      has `numNodes` cells or there is a single cell in all. */
  lemma ColumnsFit(t: Tensor4, numNodes: nat)
    requires IsBatch(t.x, t.batch, t.channels, t.height, t.width) && t.batch > 0
    ensures AssignColumns(Features(t), t.batch * numNodes).Some? <==>
      t.height * t.width == numNodes || t.batch * (t.height * t.width) == 1
  {
    FeaturesLength(t);
    if t.height * t.width != numNodes {
      MulCancel(t.batch, t.height * t.width, numNodes);
    }
  }

  /** On success the edges are the batched complete graph and `x` is the column
      assignment of the feature rows: one row per node. */
  lemma BoardToGraphShape(s: Input, numNodes: nat)
    requires BoardToGraph(s, numNodes).Ok?
    ensures var g := BoardToGraph(s, numNodes).value;
      var t := Normalize(s).value;
      g.edges == BatchedEdges(t.batch, numNodes) && |g.x| == t.batch * numNodes &&
      AssignColumns(Features(t), t.batch * numNodes) == Some(g.x)
  {
    AssignColumnsSpec(Features(Normalize(s).value), Normalize(s).value.batch * numNodes);
  }

  /** With boards of `numNodes` cells, `x` is the feature rows of the boards in order. */
  lemma BoardToGraphNodes(s: Input, numNodes: nat)
    requires BoardToGraph(s, numNodes).Ok?
    requires var t := Normalize(s).value; t.height * t.width == numNodes
    ensures BoardToGraph(s, numNodes).value.x == Features(Normalize(s).value)
  {
    FeaturesLength(Normalize(s).value);
  }

  /** Row `b * height * width + i * width + j` of `x` is the feature row of cell `(i, j)` of
      board `b`: the numbers of its channels that are empty, X and O. */
  predicate NodeRow(t: Tensor4, x: seq<seq<nat>>, b: nat, i: nat, j: nat)
  {
    IsBatch(t.x, t.batch, t.channels, t.height, t.width) &&
    b < t.batch && i < t.height && j < t.width &&
    var r := b * (t.height * t.width) + (i * t.width + j);
    r < |x| && x[r] == Feature(Channels(t, b, i, j))
  }

  /** With boards of `numNodes` cells, every cell of every board has its row in `x`. */
  lemma BoardToGraphNodeAt(s: Input, numNodes: nat, t: Tensor4, g: GraphData, b: nat, i: nat, j: nat)
    requires Normalize(s) == Some(t) && BoardToGraph(s, numNodes) == Ok(g)
    requires t.height * t.width == numNodes && b < t.batch && i < t.height && j < t.width
    ensures NodeRow(t, g.x, b, i, j)
  {
    BoardToGraphNodes(s, numNodes);
    FeaturesAt(t, b, i, j);
  }

  /** Otherwise the batch holds a single cell and its feature row is broadcast into every
      row of `x`. */
  lemma BoardToGraphBroadcast(s: Input, numNodes: nat)
    requires BoardToGraph(s, numNodes).Ok?
    requires var t := Normalize(s).value; t.height * t.width != numNodes
    ensures var t := Normalize(s).value;
      var x := BoardToGraph(s, numNodes).value.x;
      t.batch == 1 && t.height * t.width == 1 && |Features(t)| == 1 &&
      forall r :: 0 <= r < |x| ==> x[r] == Features(t)[0]
  {
    var t := Normalize(s).value;
    FeaturesLength(t);
    BoardToGraphSucceeds(s, numNodes);
    BoardToGraphShape(s, numNodes);
    MulCancel(t.batch, t.height * t.width, numNodes);
  }

  lemma MulCancel(a: nat, x: nat, y: nat)
    requires a > 0 && x != y
    ensures a * x != a * y
  {
    if x < y {
      assert a * y == a * x + a * (y - x);
    } else {
      assert a * x == a * y + a * (x - y);
    }
  }
}
