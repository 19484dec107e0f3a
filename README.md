# GATZero self-play orchestration and board encoding, in Dafny

This project models the core of an AlphaZero-style trainer for Tic-Tac-Toe that uses a
graph-attention network. The model covers two source files:

- The orchestrator `SelfPlay` (`self_play.py`). It plays self-play episodes and collects
  their examples in a bounded per-iteration deque. When distributed, the coordinator
  gathers the workers' deques; as written, that gather fails at
  `self_play.py:90` (see "## Findings"), and the model uses the evidently intended
  concatenation of the deques as lists. It keeps a sliding window of iteration batches,
  trains a new model on the window and pits it against the previous one. The gate then
  decides whether the new model is saved as `checkpoint_<i>.pth.tar` and
  `best.pth.tar`, or the `temp.pth.tar` snapshot is restored. The model also covers the
  checkpoint and examples file names, and the skip flag that `loadTrainExamples` sets.
- Two pieces of the network wrapper (`networks/tictactoe_gat.py`). One is the symmetry
  augmentation of training examples (the original, three `rot90` rotations and a
  `fliplr` mirror of board and policy). The other is the board-to-graph encoding: three
  count features per cell, and one complete directed graph per board, the copies
  numbered consecutively.

The model states and proves these properties of the code:

- Episode outcomes are signed by the player to move after the final move.
- A bounded deque keeps the newest examples.
- Bounding each worker's deque before the gather loses nothing the coordinator would keep.
- The history is the last `numItersForTrainExamplesHistory` batches, in order. Each batch
  holds at most `maxlenOfQueue` examples, so training sees at most
  `numItersForTrainExamplesHistory * maxlenOfQueue` examples.
- Each iteration's self-play runs on the model the previous gate chose: the trained model
  on accept, the model from before training on reject.
- The `best` slot changes only on acceptance, and distinct iterations write distinct files.
- Every augmented policy is a permutation of the original cells, under the same cell map
  as its board, with the pass entry and value kept.
- The encoding fails on exactly the inputs the assumed PyTorch rules reject (see "## Left out"). Otherwise it has one
  feature row per node and `n(n-1)` edges per board, all inside that board and with no
  self-loop.

Modules:

- `Common` (`common.dfy`): option and result wrappers, the example record, and
  list concatenation.
- `Episodes` (`episode.dfy`): `executeEpisode` as functions of the supplied steps.
- `Replay` (`replay.dfy`): the bounded deque (a class), the gather and the history window.
- `Checkpoints` (`checkpoints.dfy`): file names and the gate condition.
- `SelfPlay` (`selfplay.dfy`): the state of `learn` as functions, and the class
  `SelfPlay` whose methods run the loops and update the fields.
- `Augmentation` (`augment.dfy`): `augment_examples`.
- `Graph` (`graph.dfy`): `_board_to_graph`.

The collaborators the orchestrator calls are parameters:

- Game, search and sampled action: `game(i, r, e, m)`, the steps of episode `e` of
  worker `r` in iteration `i` when the search uses the model `m`. Each step is a function from the temperature asked for to the
  symmetry variants, the next player and the game result.
- Training, shuffle included: `train(i, m, xs)`.
- The arena: `arena(i, prev, new, n)`.

Saved model files are a map from file name to model, and saved examples files are a
map from (folder, file) to the history they hold. In the network code, the number of
nodes `num_nodes = board_x * board_y` (`networks/tictactoe_gat.py:139`) is a parameter
`numNodes`.

## Model

| member | source | states |
|---|---|---|
| Common.Flatten | self_play.py:103-105 | the lists concatenated in order, as `extend` in a loop does; `FlattenLength`, `FlattenPush` and `FlattenAppend` state its length and how it splits |
| Episodes.Record | self_play.py:59-61 | the pending records of one step; `RecordAt` states them one by one |
| Episodes.Trace | self_play.py:49-68 | the turns played until a step ends the game or the steps run out; `TraceShape` states their temperatures, players and stopping point |
| Episodes.Collect | self_play.py:59-61 | the pending records of all turns, in play order; `CollectAt` states where each turn's records sit |
| Episodes.Episode | self_play.py:43-69 | `executeEpisode` as a function of the steps; `EpisodeOutcomes` states every example of a finished episode, `EpisodeUnended` the run-out case |
| Episodes.BoolToInt | self_play.py:52 | `int(b)` is 1 exactly when `b` holds, else 0 |
| Episodes.Temp | self_play.py:52 | the temperature is 1 exactly before `tempThreshold` and 0 from it on |
| Episodes.Outcome | self_play.py:69 | `r * (-1) ** (player != curPlayer)` is `r` for the final player to move and `-r` otherwise; its magnitude is that of `r` |
| Episodes.Resolve | self_play.py:69 | one example per pending record, keeping board and policy, with the outcome signed by player; every outcome has the magnitude of `r` |
| Episodes.TraceAdvance | self_play.py:49-68 | proof step for the `ExecuteEpisode` loop: one pass adds the turn just played to the trace, which stops at a step with a non-zero result |
| Episodes.EpisodeEnded | self_play.py:66-69 | proof step for the `ExecuteEpisode` loop: once a step ends the game, the episode is the resolution of all pending records against that step's next player and result |
| Episodes.EpisodeUnended | self_play.py:49-68 | if the supplied steps run out before the game ends, no episode is returned |
| Episodes.RecordAt | self_play.py:60-61 | record `j` of a step is symmetry variant `j` with the player to move; one record per variant |
| Episodes.TraceShape | self_play.py:49-68 | step `k` is asked for `Temp(k, ·)`; players follow the steps' next players; every step but the last left the game running; the trace stops early only when the game ended |
| Episodes.CollectAt | self_play.py:59-61 | the records of turn `i` sit at `Offset(t, i)` onwards, in order, with that turn's player |
| Episodes.EpisodeOutcomes | self_play.py:43-69 | example `Offset(t, i) + j` of a finished episode is variant `j` of step `i`, with outcome `r` if its player is the final player to move and `-r` otherwise; `r` is non-zero |
| Episodes.EpisodeValue | self_play.py:66-69 | proof step for the `ExecuteEpisode` loop: a returned episode comes from a trace that ended, resolved against its last step |
| Episodes.SymmetriesShareOutcome | self_play.py:59-69 | all symmetry variants recorded at one step get the same outcome |
| Replay.Suffix | self_play.py:77 | `deque(xs, maxlen=n)` holds `min(len(xs), n)` elements |
| Replay.SuffixIsTail | self_play.py:77 | the deque holds the newest elements, in the order appended |
| Replay.SuffixOfSuffixLeft | self_play.py:82 | bounding, extending and bounding again equals bounding once |
| Replay.SuffixOfSuffixRight | self_play.py:90 | bounding the last part first does not change the final bounded result |
| Replay.BoundedDeque.constructor | self_play.py:77 | a new deque is empty, with the given `maxlen`, and holds within it (`Valid`) |
| Replay.BoundedDeque.Extend | self_play.py:82 | `+=` appends one element at a time, evicting from the left; afterwards the deque is the last `maxlen` of old contents plus `xs`, still within `maxlen` |
| Replay.Gather | self_play.py:85-90 | the gather with each worker's deque turned into a list before concatenation; `GatherIntended` states that this is `sum` over those lists, bounded |
| Replay.GatherAsWritten | self_play.py:85-90 | the gather as written: `sum` over the deques themselves, which fails for any non-empty list of deques |
| Replay.GatherAsWrittenFails | self_play.py:90 | with at least one worker, the gather as written yields no batch |
| Replay.GatherIntended | self_play.py:90 | `sum(map(list, all_examples), [])` succeeds, and bounding it gives `Gather` |
| Replay.PySumLists | self_play.py:90 | Python's `sum(xss, start)` over lists is `start` followed by the lists in order |
| Replay.RankBatches | self_play.py:77-82 | one bounded deque per worker |
| Replay.PerRank | self_play.py:80-82 | one concatenation of episode examples per worker |
| Replay.GatherOfRankBatches | self_play.py:85-90 | the gathered batch is the last `maxlenOfQueue` of all workers' examples in rank order; bounding per worker first loses nothing |
| Replay.GatherCount | self_play.py:90 | with `W` workers of `k` examples each, the coordinator holds `W*k` examples if that fits in `maxlenOfQueue`, otherwise `maxlenOfQueue` |
| Replay.AddIteration | self_play.py:92-97 | `append`, then `pop(0)` when over the bound; `AddIterationWindow` states its effect |
| Replay.AddIterations | self_play.py:92-97 | the history after adding batches one iteration at a time; `HistoryIsWindow` states that it is a window |
| Replay.AddIterationWindow | self_play.py:93-97 | append, then `pop(0)` when over the bound: at most the oldest entry goes, the rest keep their order, and the history stays within the bound |
| Replay.AddIterationsPush | self_play.py:93-97 | adding batches one iteration at a time, with or without a batch in an iteration |
| Replay.HistoryIsWindow | self_play.py:93-97 | starting within the bound, the history is always the last `bound` batches added (FIFO eviction by iteration) |
| Replay.TotalLengthWithin | self_play.py:103-105 | lists of at most `maxlen` elements each have at most `count * maxlen` elements together |
| Replay.HistorySize | self_play.py:92-105 | starting within the bounds, the history keeps at most `bound` batches of at most `maxlen` examples, `bound * maxlen` examples in all |
| Replay.OldestEvicted | self_play.py:95-97 | after `bound + 1` insertions the first batch is gone and the others remain in order |
| Checkpoints.NatToString | self_play.py:156 | `str(n)` is a non-empty string of decimal digits |
| Checkpoints.ParseNatToString | self_play.py:156 | reading back the digits of `str(n)` gives `n` |
| Checkpoints.CheckpointFile | self_play.py:155-156 | `checkpoint_<i>.pth.tar`; `CheckpointFileInjective` states that names tell iterations apart |
| Checkpoints.ExamplesFile | self_play.py:163 | the checkpoint name plus `.examples`; `ExamplesFileInjective` states the same for it |
| Checkpoints.CheckpointFileInjective | self_play.py:149-156 | `getCheckpointFile(i) == getCheckpointFile(j)` iff `i == j`; no checkpoint file is `best.pth.tar` or `temp.pth.tar` |
| Checkpoints.ExamplesFileInjective | self_play.py:163 | different iterations have different `.examples` files |
| Checkpoints.Rejects | self_play.py:144 | reject iff no game was decisive or `nwins < updateThreshold * (pwins + nwins)`; both directions |
| Checkpoints.GateBoundary | self_play.py:144 | boundary examples of `Rejects`, not a general property: 55 of 100 decisive games meet a threshold of 0.55, 54 do not, and a match of draws only is rejected |
| SelfPlay.EpisodesPerWorker | self_play.py:79 | `numEps // world_size` is the largest `k` with `k * W <= numEps`; the episodes dropped are `numEps % W` |
| SelfPlay.RunsSelfPlay | self_play.py:76 | self-play is skipped exactly when the flag is set and `i <= 1` |
| SelfPlay.SkippedAtMostOnce | self_play.py:76 | of iterations `1..n`, exactly one skips self-play if the flag is set, none otherwise |
| SelfPlay.Played | self_play.py:81-82 | the examples one episode adds to a worker's deque, searched with the given model; an episode whose supplied steps run out adds none |
| SelfPlay.RankEpisodes | self_play.py:80-82 | a worker's first `count` episodes of an iteration, in the order played; `RankEpisodesStep` and `PlayRank` state what its deque keeps |
| SelfPlay.AllRanks | self_play.py:79-82 | the episodes of every worker, one entry per rank |
| SelfPlay.IterationBatch | self_play.py:75-90 | the coordinator's batch of an iteration played with a given model: its own deque, or the gather of all deques when distributed |
| SelfPlay.IterationBatchAsWritten | self_play.py:75-90 | the same with the gather as written |
| SelfPlay.IterationBatchAsWrittenFails | self_play.py:84-90 | as written, self-play yields no batch exactly when distributed, and the intended batch otherwise |
| SelfPlay.IterationBatchSize | self_play.py:77-90 | an iteration's batch holds at most `maxlenOfQueue` examples |
| SelfPlay.AfterSelfPlay | self_play.py:75-99 | the state after self-play with the current model, windowing and saving; `SelfPlayPhase` states it |
| SelfPlay.AfterGate | self_play.py:101-150 | the state after snapshot, training, arena and gate; `GateDecision` states it |
| SelfPlay.IterationStep | self_play.py:71-153 | one loop iteration: self-play, then the gate |
| SelfPlay.RunIterations | self_play.py:71-153 | iterations `1..n` in order |
| SelfPlay.IterationBatchIsSuffix | self_play.py:77-90 | with or without a gather, the iteration batch is the last `maxlenOfQueue` examples of all workers' episodes, in rank and play order |
| SelfPlay.SelfPlayPhase | self_play.py:76-99 | self-play appends the batch to the window and saves it as `checkpoint_<i-1>.pth.tar.examples`; the models and checkpoints are unchanged; when skipped, nothing changes |
| SelfPlay.GateDecision | self_play.py:127-150 | `temp` holds the old model, which `pnet` loads; training uses the whole window; on reject the old model is active and `best` is untouched; on accept `checkpoint_<i>` and `best` hold the trained model, which is active; no other file changes |
| SelfPlay.BestChangesOnlyOnAccept | self_play.py:144-150 | when the gate rejects, an iteration leaves `best.pth.tar` as it was |
| SelfPlay.NextSelfPlayModel | self_play.py:75-150 | after an iteration the active model is the trained one on accept and the model from before training on reject, and the next iteration's self-play uses exactly that model |
| SelfPlay.StepHistory | self_play.py:92-97 | an iteration changes the history only by adding its batch |
| SelfPlay.RunHistory | self_play.py:72-97 | after `n` iterations the history is the start history with the played batches added one at a time |
| SelfPlay.RunHistoryStep | self_play.py:72-97 | the history of `n` iterations follows from that of `n - 1` |
| SelfPlay.RunWindow | self_play.py:72-97 | starting within the bound, after `n` iterations the history is the last `numItersForTrainExamplesHistory` of the start history plus the played batches |
| SelfPlay.BatchesSizeStep | self_play.py:77-97 | proof step for `BatchesSize`: one more iteration adds a batch within `maxlenOfQueue` |
| SelfPlay.BatchesSize | self_play.py:77-97 | every batch played in iterations `1..n` holds at most `maxlenOfQueue` examples |
| SelfPlay.AddedSize | self_play.py:75-90 | what one iteration adds holds at most `maxlenOfQueue` examples per batch |
| SelfPlay.RunHistorySize | self_play.py:71-105 | starting within the bounds, after any number of iterations the history keeps at most `numItersForTrainExamplesHistory` batches of at most `maxlenOfQueue` examples, and the training set at most their product |
| SelfPlay.RankEpisodesStep | self_play.py:80-82 | extending a worker's deque with the next episode keeps it equal to the bounded examples of the episodes played so far |
| SelfPlay.SelfPlay.constructor | self_play.py:21-41 | empty history, flag cleared, the given networks and saved files |
| SelfPlay.SelfPlay.RecordSymmetries | self_play.py:59-61 | the loop appends one pending record per symmetry variant, in order, with the player to move |
| SelfPlay.SelfPlay.ExecuteEpisode | self_play.py:43-69 | the loop returns exactly `Episodes.Episode` of the steps and leaves `curPlayer` at the player after the played steps |
| SelfPlay.SelfPlay.PlayEpisode | self_play.py:81-82 | after `+= executeEpisode()`, the deque is the bounded examples of the first `e + 1` episodes |
| SelfPlay.SelfPlay.PlayRank | self_play.py:77-82 | a worker's batch is the last `maxlenOfQueue` examples of its `numEps // W` episodes |
| SelfPlay.SelfPlay.SelfPlayBatch | self_play.py:77-90 | the coordinator's batch is `IterationBatch` with the active model: its own deque, or the intended bounded gather when distributed |
| SelfPlay.SelfPlay.SaveTrainExamples | self_play.py:158-165 | the history is stored under `checkpoint_<iteration>.pth.tar.examples` in the checkpoint folder; no other file changes |
| SelfPlay.SelfPlay.LoadTrainExamples | self_play.py:167-183 | if `<file>.examples` exists, the history is loaded and the skip flag set; otherwise nothing changes, and any answer but `y` exits |
| SelfPlay.SelfPlay.SelfPlayPhase | self_play.py:76-99 | the fields after self-play, windowing and saving are `AfterSelfPlay` of the old state |
| SelfPlay.SelfPlay.TrainingSet | self_play.py:101-105 | the `extend` loop yields the concatenation of the history's batches, in order |
| SelfPlay.SelfPlay.TrainAndGate | self_play.py:127-150 | the fields after snapshot, training, arena and gate are `AfterGate` of the old state |
| SelfPlay.SelfPlay.Iterate | self_play.py:72-153 | one loop iteration yields `IterationStep` of the old state |
| SelfPlay.SelfPlay.Learn | self_play.py:71-153 | `learn` yields `RunIterations` of the start state over `numIters` iterations |
| Augmentation.FlipLR | networks/tictactoe_gat.py:316 | `fliplr` keeps the shape and reverses every row |
| Augmentation.FlipUD | networks/tictactoe_gat.py:310 | `flipud` (inside `rot90`) reverses the order of the rows |
| Augmentation.Transpose | networks/tictactoe_gat.py:310 | entry `(i, j)` of the transpose is entry `(j, i)`; the shape is swapped |
| Augmentation.Rot90 | networks/tictactoe_gat.py:310 | `rot90(m, k)` of a rectangular matrix is rectangular |
| Augmentation.QuarterTurnFour | networks/tictactoe_gat.py:309-314 | four quarter turns give the board back |
| Augmentation.FlipLRTwice | networks/tictactoe_gat.py:316 | mirroring twice gives the board back |
| Augmentation.Rot90IsQuarterTurns | networks/tictactoe_gat.py:310 | NumPy's `rot90(m, k)` for `k = 1, 2, 3` is `k` counter-clockwise quarter turns |
| Augmentation.Image | networks/tictactoe_gat.py:309-316 | every image of a square board is a square board of the same size |
| Augmentation.QuarterTurn | networks/tictactoe_gat.py:310 | one counter-clockwise quarter turn: a `w x h` rectangle from an `h x w` one |
| Augmentation.SourceCell | networks/tictactoe_gat.py:309-318 | the cell of the original board that lands on cell `c` under a symmetry; it stays on the grid |
| Augmentation.Transformed | networks/tictactoe_gat.py:306-318 | one symmetry applied to board and policy, keeping `v`; `AugmentedKeeps` states what it keeps |
| Augmentation.Grid | networks/tictactoe_gat.py:312 | `pi[:9].reshape(3, 3)` is a 3x3 matrix |
| Augmentation.GridImage | networks/tictactoe_gat.py:312 | the flattened image of the grid has nine entries |
| Augmentation.PolicyImage | networks/tictactoe_gat.py:311-313 | the transformed policy has the length of `pi` |
| Augmentation.Block | networks/tictactoe_gat.py:306-320 | five entries per example |
| Augmentation.Augmented | networks/tictactoe_gat.py:304-322 | the result has five times as many entries as the input |
| Augmentation.SourceCellInjective | networks/tictactoe_gat.py:309-318 | every symmetry's cell map is one-to-one on the 3x3 grid |
| Augmentation.BoardCells | networks/tictactoe_gat.py:310-316 | cell `c` of each board image is the board's cell `SourceCell(s, c)` |
| Augmentation.PolicyCells | networks/tictactoe_gat.py:310-318 | cell `c` of each policy image is the policy cell `SourceCell(s, c)`: policy and board move together |
| Augmentation.PolicyPermutation | networks/tictactoe_gat.py:312-318 | the nine transformed cells are a permutation of the original nine, so they keep their total |
| Augmentation.CellPermutationBijective | networks/tictactoe_gat.py:312-318 | each symmetry's position map is a permutation of 0..8 |
| Augmentation.PolicyImageEntries | networks/tictactoe_gat.py:311-313 | `zeros_like` then slice assignment: the cells image first, `pi[9]` copied, zeros after |
| Augmentation.AugmentedAt | networks/tictactoe_gat.py:304-322 | entry `5j + c` is image `c` of example `j`: original, `rot90` for `k = 1, 2, 3`, then `fliplr` |
| Augmentation.AugmentedKeeps | networks/tictactoe_gat.py:304-322 | every augmented entry keeps `v`, `pi`'s length and `pi[9]`; its cells are the original's under the board's own cell map, as a permutation with the same sum |
| Augmentation.ImagePolicy | networks/tictactoe_gat.py:311-313 | the buffer built in place equals `PolicyImage` |
| Augmentation.AssignPrefix | networks/tictactoe_gat.py:312 | `buffer[:len(values)] = values` replaces the prefix and keeps the rest |
| Augmentation.ZerosLike | networks/tictactoe_gat.py:311 | a fresh all-zero buffer of `pi`'s length |
| Augmentation.AugmentExamples | networks/tictactoe_gat.py:304-322 | the loop returns `Augmented(examples)`, five entries per example |
| Augmentation.AugmentOne | networks/tictactoe_gat.py:306-320 | one outer-loop pass appends the original, three rotations and the mirror image |
| Graph.Normalize | networks/tictactoe_gat.py:169-175 | a normalized input is a well-formed `(batch, channels, height, width)` tensor |
| Graph.NormalizeShape | networks/tictactoe_gat.py:169-175 | 2-D becomes one board with one channel, 3-D a batch with one channel each, 4-D is unchanged; other ranks fail to unpack |
| Graph.Count | networks/tictactoe_gat.py:180-183 | how often a value occurs among a cell's channel values, as `(x == v).sum` does |
| Graph.Features | networks/tictactoe_gat.py:178-183 | the feature rows of all boards in order; `FeaturesAt` and `FeaturesLength` state them |
| Graph.Feature | networks/tictactoe_gat.py:180-183 | three counts per node |
| Graph.Channels | networks/tictactoe_gat.py:178 | the channel values of one cell, one per channel |
| Graph.FeaturesAt | networks/tictactoe_gat.py:178-183 | row `b*h*w + i*w + j` of the features counts the empty, X and O channels of cell `(i, j)` of board `b` |
| Graph.FeaturesLength | networks/tictactoe_gat.py:178 | one feature row per cell of every board |
| Graph.FeatureOneHot | networks/tictactoe_gat.py:180-183 | on a one-channel board with entries in {-1, 0, 1}, each row is one-hot, naming the cell's value |
| Graph.FeatureTotal | networks/tictactoe_gat.py:180-183 | the three counts add up to at most the number of channels, and exactly to it when the entries are in {-1, 0, 1} |
| Graph.PairsFrom | networks/tictactoe_gat.py:186 | `n - 1 - row` pairs starting at `row`; `CombinationsProperties` states which |
| Graph.Combinations | networks/tictactoe_gat.py:186 | `combinations(arange(n), 2)`; `CombinationsProperties` states it |
| Graph.CombinationsProperties | networks/tictactoe_gat.py:186 | `combinations(arange(n), 2)` gives each pair `u < v < n` exactly once, sorted lexicographically: `n(n-1)/2` pairs |
| Graph.Reversed | networks/tictactoe_gat.py:187 | `flip(0)` keeps the number of edges |
| Graph.SingleGraph | networks/tictactoe_gat.py:186-187 | the pairs followed by their reverses; `SingleGraphProperties` states the graph |
| Graph.SingleGraphProperties | networks/tictactoe_gat.py:186-187 | the edge list of one board is the complete directed graph on `n` nodes: `n(n-1)` distinct edges, no self-loop, each edge with its reverse |
| Graph.SingleGraphEdge | networks/tictactoe_gat.py:186-187 | every single-board edge joins two distinct nodes below `n` |
| Graph.Repeat | networks/tictactoe_gat.py:190 | `repeat(1, copies)` has `copies` times the edges |
| Graph.Offsets | networks/tictactoe_gat.py:191 | `arange(copies).repeat_interleave(width) * n` has `copies * width` entries |
| Graph.Shifted | networks/tictactoe_gat.py:192 | adding the offsets keeps the number of edges |
| Graph.BatchedEdges | networks/tictactoe_gat.py:190-192 | the single-board graph repeated per board with the node offsets added; `BatchedEdgesAt` states each copy |
| Graph.BatchedEdgesAt | networks/tictactoe_gat.py:190-192 | copy `b` of the edge list is the single-board graph shifted by `b * n` |
| Graph.BatchedEdgesWithinBoard | networks/tictactoe_gat.py:190-192 | every edge of copy `b` stays among the nodes of board `b` and is not a self-loop |
| Graph.BatchedEdgesLength | networks/tictactoe_gat.py:186-192 | a batch of `B` boards has `B * n(n-1)` edges |
| Graph.AssignColumns | networks/tictactoe_gat.py:180-183 | the column assignment into `zeros(nodes, 3)`, with broadcast; `AssignColumnsSpec` states when it works |
| Graph.AssignColumnsSpec | networks/tictactoe_gat.py:180-183 | assigning the columns into `zeros(nodes, 3)` works iff the columns have `nodes` entries or one (broadcast); then `x` has `nodes` rows |
| Graph.BoardToGraph | networks/tictactoe_gat.py:168-194 | `_board_to_graph` with its failures as values; `BoardToGraphSucceeds`, `BoardToGraphShape`, `BoardToGraphNodes` and `BoardToGraphBroadcast` state it |
| Graph.BoardToGraphSucceeds | networks/tictactoe_gat.py:168-194 | the encoding returns iff the input has 2-4 dimensions, a non-empty batch and channel dimension, and boards of `num_nodes` cells (or a single cell in all) |
| Graph.ColumnsFit | networks/tictactoe_gat.py:178-183 | the feature rows of a non-empty batch fill `x` iff each board has `num_nodes` cells or there is a single cell in all |
| Graph.BoardToGraphShape | networks/tictactoe_gat.py:168-194 | on success the edges are the batched complete graph and `x` has `batch * num_nodes` rows, assigned from the feature rows |
| Graph.BoardToGraphNodes | networks/tictactoe_gat.py:178-183 | with boards of `num_nodes` cells, `x` is the feature rows of the boards in order |
| Graph.BoardToGraphNodeAt | networks/tictactoe_gat.py:178-183 | with boards of `num_nodes` cells, row `b * num_nodes + i * width + j` of `x` holds cell `(i, j)` of board `b` |
| Graph.BoardToGraphBroadcast | networks/tictactoe_gat.py:180-183 | otherwise the input is a single cell, and its feature row is broadcast into every row of `x` |

## Left out

- Concurrency: `dist.all_gather_object`, `dist.broadcast` and `dist.barrier` are not modelled. The workers' self-play runs one worker after another, and the gather is their lists concatenated in rank order. The size-then-payload broadcast of the training set to other workers, and the state of workers other than rank 0, are not modelled.
- The game, MCTS, `get_canonical_form`, `get_symmetries`, `torch.multinomial` and the network's outputs: these are calls into code that is not part of this model. Each step of an episode is a supplied function of the temperature. The steps depend on the model the search uses (`MCTS(self.game, self.nnet, self.args)`, line 81), and a fresh search per episode is covered by indexing them by iteration, worker and episode. What a search does with the model inside an episode is not modelled.
- SelfPlay.IterationBatch: every worker is taken to search with the coordinator's active model. In the source the other ranks train their own copy at line 132 and never take on the gate's decision, so from the second iteration on their models can differ from rank 0's.
- SelfPlay.SelfPlay.ExecuteEpisode: the `while True` loop runs over the supplied steps only. If they run out before the game ends, the model returns `None`, where the source would keep playing. An episode modelled this way adds no examples.
- `random.shuffle` (line 106): randomness. It is folded into the supplied `train` function, which receives the unshuffled concatenation.
- Logging, `tqdm`, `os.makedirs` and the pickling of files: I/O. Saved files are maps, and `os.path.join` is a (folder, file) pair.
- `input()` and `sys.exit()` in `loadTrainExamples`: the user's answer is a parameter, and the exit is returned as a flag.
- Training, validation, prediction, checkpoint contents, and the GAT layers and `forward`: these are outside this core. A model is an uninterpreted value.
- Floating point: outcomes, policies and the gate ratio are exact reals. The count features, which are floats in the source, are natural numbers.
- Tensors are nested sequences with integer entries. The device argument is not modelled.
- Graph.BoardToGraph: PyTorch's own failure rules are assumed. `view` with `-1` fails on a tensor with no entries when batch or channels is 0. A column assignment fails unless the sizes match or the value has one entry. The error is a `GraphError` value, not an exception.
- Augmentation.AugmentExamples: it takes only examples with a rectangular board and a policy of at least ten entries (the subset type `Sample`). On a policy of fewer than nine entries the source raises at `pi[:9].reshape(3, 3)` (line 312); on one of exactly nine it raises at `rotated_pi[9] = pi[9]` (line 313). A NumPy board is always rectangular.
- Replay.Gather: the source raises at `self_play.py:90` when distributed (`sum` of deques; see "## Findings"). The model gives the evidently intended `sum(map(list, all_examples), [])`, bounded; `GatherAsWritten` is the line as written.
- Replay.GatherOfRankBatches: states the intended gather; as written the distributed path fails at line 90 (see "## Findings").
- Replay.GatherCount: counts the intended gather; as written the distributed path fails at line 90 (see "## Findings").
- SelfPlay.IterationBatch: its distributed branch is the intended gather; `IterationBatchAsWritten` is the source as written, which fails there.
- SelfPlay.IterationBatchIsSuffix: its distributed half is about the intended gather; as written the distributed path fails at line 90.
- SelfPlay.SelfPlay.SelfPlayBatch: its distributed branch returns the intended bounded gather, where the source raises a `TypeError` at line 90.
- The source's episode count `numEps // world_size` silently drops `numEps % world_size` episodes per iteration. The model keeps that behaviour: `EpisodesPerWorker` states the dropped count.

## Findings

| source | as written | input that shows it | evidently intended | confidence | as-written member | corrected member |
|---|---|---|---|---|---|---|
| self_play.py:90 | `deque(sum(all_examples, []), maxlen=...)`, where `all_examples` holds each worker's `deque` (line 77), so the first step is `[] + deque(...)`, a `TypeError` | any run with `distributed` set, on rank 0 at the first iteration that plays, whatever `world_size >= 1` | `sum(map(list, all_examples), [])`: the workers' examples in rank order, then bounded by `maxlenOfQueue` | not executed | Replay.GatherAsWritten, SelfPlay.IterationBatchAsWrittenFails | Replay.Gather, SelfPlay.IterationBatch |

## Notes on the code

- After the gather, the coordinator bounds the concatenation again by `maxlenOfQueue` (`self_play.py:90`). So `W` workers with `k` examples each leave `W*k` examples only when that fits in `maxlenOfQueue` (`Replay.GatherCount`); otherwise `maxlenOfQueue`.
- `loadTrainExamples` (`self_play.py:167-183`) sets `skipFirstSelfPlay` only on rank 0. With `distributed` set and examples loaded, the other ranks play at iteration 1 and call `all_gather_object` while rank 0 does not, so the gather cannot complete. This lies outside the rank-0 model, which does not state it.
- Only rank 0 loads or saves a model after the arena (`self_play.py:136-150`); the other ranks do not reload it. The model covers rank 0 only.
