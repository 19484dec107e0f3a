/** The orchestrator `SelfPlay` of `self_play.py`, seen from the coordinator
    (rank 0): episode generation, the per-iteration deque, the gather of the
    workers' deques, the sliding history window, training, and the gate that
    decides which model the `best` slot holds.

    The collaborators are parameters. `game(i, r, e, m)` gives the steps of
    episode `e` of worker `r` in iteration `i` when the search uses the model
    `m` (the game, the search and the sampled actions); `train(i, m, xs)` is
    the model `m` trained on `xs` (shuffle included); `arena(i, prev, new, n)` is the result of `n` games of
    the previous model against the new one. Saved model files are a map from
    file name to model inside the checkpoint folder; saved examples files a map
    from (folder, file name) to the history they hold. */
module SelfPlay {
  import opened Common
  import opened Episodes
  import opened Replay
  import opened Checkpoints

  /** The `args` the orchestrator reads, and the number of workers: `dist.get_world_size()`
      when distributed, 1 otherwise. */
  datatype Config = Config(
    numIters: nat,
    numEps: nat,
    tempThreshold: int,
    updateThreshold: real,
    maxlenOfQueue: nat,
    numItersForTrainExamplesHistory: nat,
    arenaCompare: nat,
    checkpoint: string,
    distributed: bool,
    worldSize: nat)

  predicate ValidConfig(cfg: Config)
  {
    cfg.worldSize >= 1 && (!cfg.distributed ==> cfg.worldSize == 1)
  }

  /** A configuration with at least one worker, and exactly one when not distributed. */
  type Settings = cfg: Config | ValidConfig(cfg)
    witness Config(0, 0, 0, 0.0, 0, 0, 0, "", false, 1)

  datatype Path = Path(folder: string, file: string)

  datatype Collaborators<!B, !P, !M> = Collaborators(
    game: (nat, nat, nat, M) -> seq<int -> StepResult<B, P>>,
    train: (nat, M, seq<Example<B, P>>) -> M,
    arena: (nat, M, M, nat) -> ArenaResult)

  /** The decision-relevant state of the orchestrator. */
  datatype LearnState<B, P, M> = LearnState(
    history: seq<seq<Example<B, P>>>,
    nnet: M,
    pnet: M,
    checkpoints: map<string, M>,
    examplesFiles: map<Path, seq<seq<Example<B, P>>>>)

  /** `numEps // world_size`: the episodes each worker plays. */
  function EpisodesPerWorker(numEps: nat, worldSize: nat): (k: nat)
    requires worldSize >= 1
    ensures k * worldSize <= numEps < (k + 1) * worldSize
    ensures numEps - k * worldSize == numEps % worldSize
  {
    numEps / worldSize
  }

  /** `not self.skipFirstSelfPlay or i > 1`. */
  function RunsSelfPlay(skipFirstSelfPlay: bool, i: int): (runs: bool)
    ensures !runs <==> skipFirstSelfPlay && i <= 1
  {
    !skipFirstSelfPlay || i > 1
  }

  /** How many of the iterations `1..n` skip self-play. */
  function CountSkipped(skipFirstSelfPlay: bool, n: nat): nat
  {
    if n == 0 then 0 else CountSkipped(skipFirstSelfPlay, n - 1) + (if RunsSelfPlay(skipFirstSelfPlay, n) then 0 else 1)
  }

  /** Self-play is skipped in iteration 1 exactly when the flag is set, and never later. */
  lemma {:induction false} SkippedAtMostOnce(skipFirstSelfPlay: bool, n: nat)
    ensures CountSkipped(skipFirstSelfPlay, n) == if skipFirstSelfPlay && n >= 1 then 1 else 0
    decreases n
  {
    if n > 0 {
      SkippedAtMostOnce(skipFirstSelfPlay, n - 1);
    }
  }

  /** The examples of episode `e` of worker `r` in iteration `i`, searched with the model
      `m`; an episode whose supplied steps run out before the game ends contributes none. */
  function Played<B, P, M>(cfg: Settings, col: Collaborators<B, P, M>, i: nat, m: M, r: nat, e: nat): seq<Example<B, P>>
  {
    match Episode(col.game(i, r, e, m), cfg.tempThreshold)
    case Some(xs) => xs
    case None => []
  }

  /** The first `count` episodes of worker `r` in iteration `i`, in the order played. */
  function RankEpisodes<B, P, M>(cfg: Settings, col: Collaborators<B, P, M>, i: nat, m: M, r: nat, count: nat): seq<seq<Example<B, P>>>
  {
    if count == 0 then [] else RankEpisodes(cfg, col, i, m, r, count - 1) + [Played(cfg, col, i, m, r, count - 1)]
  }

  /** The episodes of workers `0..ranks` in iteration `i`. */
  function AllRanks<B, P, M>(cfg: Settings, col: Collaborators<B, P, M>, i: nat, m: M, ranks: nat): (eps: seq<seq<seq<Example<B, P>>>>)
    ensures |eps| == ranks
  {
    if ranks == 0 then []
    else AllRanks(cfg, col, i, m, ranks - 1) + [RankEpisodes(cfg, col, i, m, ranks - 1, EpisodesPerWorker(cfg.numEps, cfg.worldSize))]
  }

  /** `iterationTrainExamples` at the coordinator after self-play with the model `m`, and
      the gather when distributed, with each gathered deque turned into a list before the
      concatenation (see `IterationBatchAsWritten` for the line as written). */
  function IterationBatch<B, P, M>(cfg: Settings, col: Collaborators<B, P, M>, i: nat, m: M): seq<Example<B, P>>
  {
    var ranks := RankBatches(AllRanks(cfg, col, i, m, cfg.worldSize), cfg.maxlenOfQueue);
    if cfg.distributed then Gather(ranks, cfg.maxlenOfQueue) else ranks[0]
  }

  /** The same with the gather as written, `sum(all_examples, [])` over the workers' deques. */
  function IterationBatchAsWritten<B, P, M>(cfg: Settings, col: Collaborators<B, P, M>, i: nat, m: M): Option<seq<Example<B, P>>>
  {
    var ranks := RankBatches(AllRanks(cfg, col, i, m, cfg.worldSize), cfg.maxlenOfQueue);
    if cfg.distributed then GatherAsWritten(ranks, cfg.maxlenOfQueue) else Some(ranks[0])
  }

  /** As written, self-play fails exactly when distributed; otherwise it yields the batch. */
  lemma IterationBatchAsWrittenFails<B, P, M>(cfg: Settings, col: Collaborators<B, P, M>, i: nat, m: M)
    ensures IterationBatchAsWritten(cfg, col, i, m).None? <==> cfg.distributed
    ensures !cfg.distributed ==> IterationBatchAsWritten(cfg, col, i, m) == Some(IterationBatch(cfg, col, i, m))
  {
    if cfg.distributed {
      GatherAsWrittenFails(RankBatches(AllRanks(cfg, col, i, m, cfg.worldSize), cfg.maxlenOfQueue), cfg.maxlenOfQueue);
    }
  }

  /** With or without a gather, the iteration's batch is the last `maxlenOfQueue` examples
      of all workers' episodes, workers in rank order and each worker's episodes in the
      order played. */
  lemma IterationBatchIsSuffix<B, P, M>(cfg: Settings, col: Collaborators<B, P, M>, i: nat, m: M)
    ensures IterationBatch(cfg, col, i, m) ==
      Suffix(Flatten(PerRank(AllRanks(cfg, col, i, m, cfg.worldSize))), cfg.maxlenOfQueue)
  {
    var eps := AllRanks(cfg, col, i, m, cfg.worldSize);
    GatherOfRankBatches(eps, cfg.maxlenOfQueue);
    if !cfg.distributed {
      assert eps[..0] == [];
      assert Flatten(PerRank(eps)) == Flatten([] + [Flatten(eps[0])]);
    }
  }

  /** An iteration's batch holds at most `maxlenOfQueue` examples. */
  lemma IterationBatchSize<B, P, M>(cfg: Settings, col: Collaborators<B, P, M>, i: nat, m: M)
    ensures |IterationBatch(cfg, col, i, m)| <= cfg.maxlenOfQueue
  {
    IterationBatchIsSuffix(cfg, col, i, m);
  }

  function ExamplesPath(cfg: Settings, iteration: nat): Path
  {
    Path(cfg.checkpoint, ExamplesFile(iteration))
  }

  /** Lines 76-99 of `learn`: self-play with the current model, the history window and the
      examples file. */
  function AfterSelfPlay<B, P, M>(s: LearnState<B, P, M>, cfg: Settings, col: Collaborators<B, P, M>, skipFirstSelfPlay: bool, i: nat): LearnState<B, P, M>
    requires i >= 1
  {
    if RunsSelfPlay(skipFirstSelfPlay, i) then
      var h := AddIteration(s.history, IterationBatch(cfg, col, i, s.nnet), cfg.numItersForTrainExamplesHistory);
      s.(history := h, examplesFiles := s.examplesFiles[ExamplesPath(cfg, i - 1) := h])
    else s
  }

  /** Lines 101-150 of `learn`: snapshot, training, arena and the accept/reject decision. */
  function AfterGate<B, P, M>(s: LearnState<B, P, M>, cfg: Settings, col: Collaborators<B, P, M>, i: nat): LearnState<B, P, M>
  {
    var saved := s.checkpoints[TempFile := s.nnet];
    var trained := col.train(i, s.nnet, Flatten(s.history));
    var res := col.arena(i, saved[TempFile], trained, cfg.arenaCompare);
    if Rejects(res.pwins, res.nwins, cfg.updateThreshold) then
      s.(checkpoints := saved, pnet := saved[TempFile], nnet := saved[TempFile])
    else
      s.(checkpoints := saved[CheckpointFile(i) := trained][BestFile := trained], pnet := saved[TempFile], nnet := trained)
  }

  /** One iteration `i` of `learn`. */
  function IterationStep<B, P, M>(s: LearnState<B, P, M>, cfg: Settings, col: Collaborators<B, P, M>, skipFirstSelfPlay: bool, i: nat): LearnState<B, P, M>
    requires i >= 1
  {
    AfterGate(AfterSelfPlay(s, cfg, col, skipFirstSelfPlay, i), cfg, col, i)
  }

  /** Iterations `1..n` of `learn`; no iteration changes `skipFirstSelfPlay`. */
  function RunIterations<B, P, M>(s: LearnState<B, P, M>, cfg: Settings, col: Collaborators<B, P, M>, skipFirstSelfPlay: bool, n: nat): LearnState<B, P, M>
  {
    if n == 0 then s else IterationStep(RunIterations(s, cfg, col, skipFirstSelfPlay, n - 1), cfg, col, skipFirstSelfPlay, n)
  }

  /** The self-play phase appends the batch played with the current model to the history
      window and saves the new window as `checkpoint_<i-1>.pth.tar.examples`; it touches
      nothing else, and when it is skipped nothing changes at all. */
  lemma SelfPlayPhase<B, P, M>(s: LearnState<B, P, M>, cfg: Settings, col: Collaborators<B, P, M>, skipFirstSelfPlay: bool, i: nat)
    requires i >= 1
    ensures var s' := AfterSelfPlay(s, cfg, col, skipFirstSelfPlay, i);
      s'.nnet == s.nnet && s'.pnet == s.pnet && s'.checkpoints == s.checkpoints &&
      (RunsSelfPlay(skipFirstSelfPlay, i) ==>
        s'.history == AddIteration(s.history, IterationBatch(cfg, col, i, s.nnet), cfg.numItersForTrainExamplesHistory) &&
        s'.examplesFiles == s.examplesFiles[ExamplesPath(cfg, i - 1) := s'.history]) &&
      (!RunsSelfPlay(skipFirstSelfPlay, i) ==> s' == s)
  {
  }

  /** The gate: the model before training is saved as `temp`; the new model is trained
      on the whole history window; on reject the active model is the `temp` snapshot and
      `best` is untouched; on accept `checkpoint_<i>` and `best` both hold the trained
      model, which becomes the active one. No other file changes. */
  lemma GateDecision<B, P, M>(s: LearnState<B, P, M>, cfg: Settings, col: Collaborators<B, P, M>, i: nat)
    ensures var s' := AfterGate(s, cfg, col, i);
      var trained := col.train(i, s.nnet, Flatten(s.history));
      var res := col.arena(i, s.nnet, trained, cfg.arenaCompare);
      var reject := Rejects(res.pwins, res.nwins, cfg.updateThreshold);
      s'.history == s.history &&
      s'.examplesFiles == s.examplesFiles &&
      TempFile in s'.checkpoints && s'.checkpoints[TempFile] == s.nnet && s'.pnet == s.nnet &&
      (reject ==>
        s'.nnet == s.nnet &&
        (BestFile in s'.checkpoints <==> BestFile in s.checkpoints) &&
        (BestFile in s.checkpoints ==> s'.checkpoints[BestFile] == s.checkpoints[BestFile])) &&
      (!reject ==>
        s'.nnet == trained &&
        CheckpointFile(i) in s'.checkpoints && s'.checkpoints[CheckpointFile(i)] == trained &&
        BestFile in s'.checkpoints && s'.checkpoints[BestFile] == trained) &&
      (forall f :: f in s.checkpoints && f != TempFile && f != BestFile && f != CheckpointFile(i) ==>
        f in s'.checkpoints && s'.checkpoints[f] == s.checkpoints[f]) &&
      (forall f :: f in s'.checkpoints ==> f in s.checkpoints || f == TempFile || f == BestFile || f == CheckpointFile(i))
  {
    CheckpointFileInjective(i, i);
  }

  /** The `best` slot changes in an iteration only when the gate accepts. */
  lemma BestChangesOnlyOnAccept<B, P, M>(s: LearnState<B, P, M>, cfg: Settings, col: Collaborators<B, P, M>, skipFirstSelfPlay: bool, i: nat)
    requires i >= 1
    ensures var s1 := AfterSelfPlay(s, cfg, col, skipFirstSelfPlay, i);
      var s' := IterationStep(s, cfg, col, skipFirstSelfPlay, i);
      var res := col.arena(i, s.nnet, col.train(i, s.nnet, Flatten(s1.history)), cfg.arenaCompare);
      Rejects(res.pwins, res.nwins, cfg.updateThreshold) ==>
        (BestFile in s'.checkpoints <==> BestFile in s.checkpoints) &&
        (BestFile in s.checkpoints ==> s'.checkpoints[BestFile] == s.checkpoints[BestFile])
  {
    SelfPlayPhase(s, cfg, col, skipFirstSelfPlay, i);
    GateDecision(AfterSelfPlay(s, cfg, col, skipFirstSelfPlay, i), cfg, col, i);
  }

  /** The feedback loop of `learn`: iteration `i + 1` plays its episodes with the model the
      gate of iteration `i` chose, the trained model on accept and the model from before
      training on reject. */
  lemma NextSelfPlayModel<B, P, M>(s: LearnState<B, P, M>, cfg: Settings, col: Collaborators<B, P, M>, skipFirstSelfPlay: bool, i: nat)
    requires i >= 1
    ensures var s1 := AfterSelfPlay(s, cfg, col, skipFirstSelfPlay, i);
      var trained := col.train(i, s.nnet, Flatten(s1.history));
      var res := col.arena(i, s.nnet, trained, cfg.arenaCompare);
      var chosen := if Rejects(res.pwins, res.nwins, cfg.updateThreshold) then s.nnet else trained;
      var s' := IterationStep(s, cfg, col, skipFirstSelfPlay, i);
      s'.nnet == chosen &&
      AfterSelfPlay(s', cfg, col, skipFirstSelfPlay, i + 1).history ==
        AddIteration(s'.history, IterationBatch(cfg, col, i + 1, chosen), cfg.numItersForTrainExamplesHistory)
  {
    SelfPlayPhase(s, cfg, col, skipFirstSelfPlay, i);
    GateDecision(AfterSelfPlay(s, cfg, col, skipFirstSelfPlay, i), cfg, col, i);
  }

  /** The batches the iterations `1..n` add to the history, iteration `k` playing with the
      model the run holds after iteration `k - 1`. */
  function Batches<B, P, M>(s: LearnState<B, P, M>, cfg: Settings, col: Collaborators<B, P, M>, skipFirstSelfPlay: bool, n: nat): seq<seq<Example<B, P>>>
  {
    if n == 0 then [] else Batches(s, cfg, col, skipFirstSelfPlay, n - 1) + Added(s, cfg, col, skipFirstSelfPlay, n)
  }


  /** One more iteration keeps every batch within `maxlenOfQueue`. */
  lemma BatchesSizeStep<B, P, M>(s: LearnState<B, P, M>, cfg: Settings, col: Collaborators<B, P, M>, skipFirstSelfPlay: bool, n: nat)
    requires n >= 1
    requires BatchesWithin(Batches(s, cfg, col, skipFirstSelfPlay, n - 1), cfg.maxlenOfQueue)
    ensures BatchesWithin(Batches(s, cfg, col, skipFirstSelfPlay, n), cfg.maxlenOfQueue)
  {
    AddedSize(s, cfg, col, skipFirstSelfPlay, n);
    ConcatWithin(Batches(s, cfg, col, skipFirstSelfPlay, n - 1), Added(s, cfg, col, skipFirstSelfPlay, n), Batches(s, cfg, col, skipFirstSelfPlay, n), cfg.maxlenOfQueue);
  }

  /** What iteration `n >= 1` adds: its batch, or nothing when it skips self-play. */
  function Added<B, P, M>(s: LearnState<B, P, M>, cfg: Settings, col: Collaborators<B, P, M>, skipFirstSelfPlay: bool, n: nat): seq<seq<Example<B, P>>>
    requires n >= 1
  {
    if RunsSelfPlay(skipFirstSelfPlay, n)
    then [IterationBatch(cfg, col, n, RunIterations(s, cfg, col, skipFirstSelfPlay, n - 1).nnet)]
    else []
  }

  /** One iteration changes the history only by adding its batch. */
  lemma StepHistory<B, P, M>(s: LearnState<B, P, M>, cfg: Settings, col: Collaborators<B, P, M>, skipFirstSelfPlay: bool, i: nat)
    requires i >= 1
    ensures IterationStep(s, cfg, col, skipFirstSelfPlay, i).history ==
      if RunsSelfPlay(skipFirstSelfPlay, i)
      then AddIteration(s.history, IterationBatch(cfg, col, i, s.nnet), cfg.numItersForTrainExamplesHistory)
      else s.history
  {
    SelfPlayPhase(s, cfg, col, skipFirstSelfPlay, i);
    GateDecision(AfterSelfPlay(s, cfg, col, skipFirstSelfPlay, i), cfg, col, i);
  }

  /** After `n` iterations the history is the start history with the batches of the
      iterations that ran self-play added one at a time. */
  lemma {:induction false} RunHistory<B, P, M>(s: LearnState<B, P, M>, cfg: Settings, col: Collaborators<B, P, M>, skipFirstSelfPlay: bool, n: nat)
    ensures RunIterations(s, cfg, col, skipFirstSelfPlay, n).history ==
      AddIterations(s.history, Batches(s, cfg, col, skipFirstSelfPlay, n), cfg.numItersForTrainExamplesHistory)
    decreases n
  {
    if n > 0 {
      var m: nat := n - 1;
      RunHistory(s, cfg, col, skipFirstSelfPlay, m);
      RunHistoryStep(s, cfg, col, skipFirstSelfPlay, m + 1);
    }
  }

  lemma RunHistoryStep<B, P, M>(s: LearnState<B, P, M>, cfg: Settings, col: Collaborators<B, P, M>, skipFirstSelfPlay: bool, n: nat)
    requires n >= 1
    requires RunIterations(s, cfg, col, skipFirstSelfPlay, n - 1).history ==
      AddIterations(s.history, Batches(s, cfg, col, skipFirstSelfPlay, n - 1), cfg.numItersForTrainExamplesHistory)
    ensures RunIterations(s, cfg, col, skipFirstSelfPlay, n).history ==
      AddIterations(s.history, Batches(s, cfg, col, skipFirstSelfPlay, n), cfg.numItersForTrainExamplesHistory)
  {
    StepHistory(RunIterations(s, cfg, col, skipFirstSelfPlay, n - 1), cfg, col, skipFirstSelfPlay, n);
    AddIterationsPush(s.history, Batches(s, cfg, col, skipFirstSelfPlay, n - 1), Added(s, cfg, col, skipFirstSelfPlay, n), cfg.numItersForTrainExamplesHistory);
  }

  /** Starting within the bound, the history after `n` iterations is the last
      `numItersForTrainExamplesHistory` of the start history and the batches played. */
  lemma RunWindow<B, P, M>(s: LearnState<B, P, M>, cfg: Settings, col: Collaborators<B, P, M>, skipFirstSelfPlay: bool, n: nat)
    requires |s.history| <= cfg.numItersForTrainExamplesHistory
    ensures RunIterations(s, cfg, col, skipFirstSelfPlay, n).history ==
      Suffix(s.history + Batches(s, cfg, col, skipFirstSelfPlay, n), cfg.numItersForTrainExamplesHistory)
  {
    RunHistory(s, cfg, col, skipFirstSelfPlay, n);
    HistoryIsWindow(s.history, Batches(s, cfg, col, skipFirstSelfPlay, n), cfg.numItersForTrainExamplesHistory);
  }

  /** Every batch played holds at most `maxlenOfQueue` examples. */
  lemma {:induction false} BatchesSize<B, P, M>(s: LearnState<B, P, M>, cfg: Settings, col: Collaborators<B, P, M>, skipFirstSelfPlay: bool, n: nat)
    ensures BatchesWithin(Batches(s, cfg, col, skipFirstSelfPlay, n), cfg.maxlenOfQueue)
    decreases n
  {
    if n > 0 {
      var m: nat := n - 1;
      BatchesSize(s, cfg, col, skipFirstSelfPlay, m);
      BatchesSizeStep(s, cfg, col, skipFirstSelfPlay, m + 1);
    }
  }

  lemma AddedSize<B, P, M>(s: LearnState<B, P, M>, cfg: Settings, col: Collaborators<B, P, M>, skipFirstSelfPlay: bool, n: nat)
    requires n >= 1
    ensures BatchesWithin(Added(s, cfg, col, skipFirstSelfPlay, n), cfg.maxlenOfQueue)
  {
    IterationBatchSize(cfg, col, n, RunIterations(s, cfg, col, skipFirstSelfPlay, n - 1).nnet);
  }

  /** The size of the replay history: starting within the bounds, after any number of
      iterations it holds at most `numItersForTrainExamplesHistory` batches of at most
      `maxlenOfQueue` examples each, so the training set has at most
      `numItersForTrainExamplesHistory * maxlenOfQueue` examples. */
  lemma RunHistorySize<B, P, M>(s: LearnState<B, P, M>, cfg: Settings, col: Collaborators<B, P, M>, skipFirstSelfPlay: bool, n: nat)
    requires |s.history| <= cfg.numItersForTrainExamplesHistory && BatchesWithin(s.history, cfg.maxlenOfQueue)
    ensures var h := RunIterations(s, cfg, col, skipFirstSelfPlay, n).history;
      |h| <= cfg.numItersForTrainExamplesHistory && BatchesWithin(h, cfg.maxlenOfQueue) &&
      |Flatten(h)| <= cfg.numItersForTrainExamplesHistory * cfg.maxlenOfQueue
  {
    RunHistory(s, cfg, col, skipFirstSelfPlay, n);
    BatchesSize(s, cfg, col, skipFirstSelfPlay, n);
    HistorySize(s.history, Batches(s, cfg, col, skipFirstSelfPlay, n), cfg.numItersForTrainExamplesHistory, cfg.maxlenOfQueue);
    FlattenLength(RunIterations(s, cfg, col, skipFirstSelfPlay, n).history);
  }

  /** Extending a worker's deque with the next episode's examples. */
  lemma RankEpisodesStep<B, P, M>(cfg: Settings, col: Collaborators<B, P, M>, i: nat, m: M, r: nat, e: nat,
                                  items: seq<Example<B, P>>, result: Option<seq<Example<B, P>>>)
    requires items == Suffix(Flatten(RankEpisodes(cfg, col, i, m, r, e)), cfg.maxlenOfQueue)
    requires result == Episode(col.game(i, r, e, m), cfg.tempThreshold)
    ensures var xs := if result.Some? then result.value else [];
      Suffix(items + xs, cfg.maxlenOfQueue) == Suffix(Flatten(RankEpisodes(cfg, col, i, m, r, e + 1)), cfg.maxlenOfQueue)
  {
    var xs := Played(cfg, col, i, m, r, e);
    SuffixOfSuffixLeft(Flatten(RankEpisodes(cfg, col, i, m, r, e)), xs, cfg.maxlenOfQueue);
    FlattenPush(RankEpisodes(cfg, col, i, m, r, e), xs);
  }

  class SelfPlay<B, P, M> {
    const cfg: Settings
    var curPlayer: int
    var trainExamplesHistory: seq<seq<Example<B, P>>>
    var skipFirstSelfPlay: bool
    var nnet: M
    var pnet: M
    var checkpoints: map<string, M>
    var examplesFiles: map<Path, seq<seq<Example<B, P>>>>

    function State(): LearnState<B, P, M>
      reads this
    {
      LearnState(trainExamplesHistory, nnet, pnet, checkpoints, examplesFiles)
    }

    /** `nnet` is the network handed in, `pnet` a fresh network of the same class;
        `checkpoints` and `examplesFiles` are what the folders already hold. */
    constructor (cfg: Settings, nnet: M, pnet: M, checkpoints: map<string, M>, examplesFiles: map<Path, seq<seq<Example<B, P>>>>)
      ensures this.cfg == cfg
      ensures State() == LearnState([], nnet, pnet, checkpoints, examplesFiles)
      ensures !skipFirstSelfPlay
    {
      this.cfg := cfg;
      this.curPlayer := 1;
      this.trainExamplesHistory := [];
      this.skipFirstSelfPlay := false;
      this.nnet := nnet;
      this.pnet := pnet;
      this.checkpoints := checkpoints;
      this.examplesFiles := examplesFiles;
    }

    /** The inner loop of `executeEpisode`: one pending record per symmetry variant of the
        board, in order, each with the player to move. */
    method RecordSymmetries(trainExamples: seq<Pending<B, P>>, sym: seq<(B, P)>, player: int) returns (out: seq<Pending<B, P>>)
      ensures out == trainExamples + Record(sym, player)
      ensures |out| == |trainExamples| + |sym|
      ensures forall j :: 0 <= j < |sym| ==> out[|trainExamples| + j] == Pending(sym[j].0, player, sym[j].1)
    {
      out := trainExamples;
      for j := 0 to |sym|
        invariant out == trainExamples + Record(sym[..j], player)
      {
        RecordPush(sym, player, j);
        out := out + [Pending(sym[j].0, player, sym[j].1)];
      }
      assert sym[..|sym|] == sym;
      RecordLength(sym, player);
      forall j | 0 <= j < |sym|
        ensures out[|trainExamples| + j] == Pending(sym[j].0, player, sym[j].1)
      {
        RecordAt(sym, player, j);
      }
    }

    /** `executeEpisode`: plays the supplied steps until one ends the game, collecting one
        pending record per symmetry variant, then resolves the outcomes. */
    method ExecuteEpisode(steps: seq<int -> StepResult<B, P>>) returns (result: Option<seq<Example<B, P>>>)
      modifies this`curPlayer
      ensures result == Episode(steps, cfg.tempThreshold)
      ensures curPlayer == PlayerAfter(Trace(steps, cfg.tempThreshold, 0, 1))
    {
      var trainExamples: seq<Pending<B, P>> := [];
      curPlayer := 1;
      var episodeStep := 0;
      ghost var done: seq<Turn<B, P>> := [];
      while episodeStep < |steps|
        invariant 0 <= episodeStep <= |steps|
        invariant Trace(steps, cfg.tempThreshold, 0, 1) == done + Trace(steps, cfg.tempThreshold, episodeStep, curPlayer)
        invariant trainExamples == Collect(done)
        invariant !Ended(done)
        invariant curPlayer == PlayerAfter(done)
      {
        TraceAdvance(steps, cfg.tempThreshold, episodeStep, curPlayer, done);
        episodeStep := episodeStep + 1;
        var temp := Temp(episodeStep, cfg.tempThreshold);
        var res := steps[episodeStep - 1](temp);
        trainExamples := RecordSymmetries(trainExamples, res.symmetries, curPlayer);
        ghost var turn := Turn(curPlayer, res);
        CollectPush(done, turn);
        done := done + [turn];
        curPlayer := res.nextPlayer;
        var r := res.ended;
        if r != 0.0 {
          EpisodeEnded(steps, cfg.tempThreshold, done);
          result := Some(Resolve(trainExamples, curPlayer, r));
          return;
        }
      }
      EpisodeUnended(steps, cfg.tempThreshold, curPlayer, done);
      result := None;
    }

    /** `iterationTrainExamples += self.executeEpisode()` for episode `e` of worker `r`. */
    method PlayEpisode(i: nat, r: nat, e: nat, col: Collaborators<B, P, M>, deque: BoundedDeque<Example<B, P>>)
      requires deque.maxlen == cfg.maxlenOfQueue && deque.Valid()
      requires deque.items == Suffix(Flatten(RankEpisodes(cfg, col, i, nnet, r, e)), cfg.maxlenOfQueue)
      modifies this`curPlayer, deque
      ensures deque.Valid()
      ensures deque.items == Suffix(Flatten(RankEpisodes(cfg, col, i, nnet, r, e + 1)), cfg.maxlenOfQueue)
    {
      var examples := ExecuteEpisode(col.game(i, r, e, nnet));
      RankEpisodesStep(cfg, col, i, nnet, r, e, deque.items, examples);
      var xs := if examples.Some? then examples.value else [];
      deque.Extend(xs);
    }

    /** One worker's self-play: `numEps // world_size` episodes into a bounded deque. */
    method PlayRank(i: nat, r: nat, col: Collaborators<B, P, M>) returns (batch: seq<Example<B, P>>)
      modifies this`curPlayer
      ensures batch == Suffix(Flatten(RankEpisodes(cfg, col, i, nnet, r, EpisodesPerWorker(cfg.numEps, cfg.worldSize))), cfg.maxlenOfQueue)
    {
      var iterationTrainExamples := new BoundedDeque<Example<B, P>>(cfg.maxlenOfQueue);
      var episodeNum := EpisodesPerWorker(cfg.numEps, cfg.worldSize);
      for e := 0 to episodeNum
        invariant iterationTrainExamples.maxlen == cfg.maxlenOfQueue
        invariant iterationTrainExamples.Valid()
        invariant iterationTrainExamples.items == Suffix(Flatten(RankEpisodes(cfg, col, i, nnet, r, e)), cfg.maxlenOfQueue)
      {
        PlayEpisode(i, r, e, col, iterationTrainExamples);
      }
      batch := iterationTrainExamples.items;
    }

    /** Self-play on every worker, then the gather at the coordinator when distributed. */
    method SelfPlayBatch(i: nat, col: Collaborators<B, P, M>) returns (batch: seq<Example<B, P>>)
      modifies this`curPlayer
      ensures batch == IterationBatch(cfg, col, i, nnet)
    {
      var allExamples: seq<seq<Example<B, P>>> := [];
      for r := 0 to cfg.worldSize
        invariant allExamples == RankBatches(AllRanks(cfg, col, i, nnet, r), cfg.maxlenOfQueue)
      {
        var own := PlayRank(i, r, col);
        ghost var eps := AllRanks(cfg, col, i, nnet, r + 1);
        assert eps[..r] == AllRanks(cfg, col, i, nnet, r);
        allExamples := allExamples + [own];
      }
      batch := allExamples[0];
      if cfg.distributed {
        var gathered := new BoundedDeque<Example<B, P>>(cfg.maxlenOfQueue);
        gathered.Extend(Flatten(allExamples));
        assert [] + Flatten(allExamples) == Flatten(allExamples);
        batch := gathered.items;
      }
    }

    /** `saveTrainExamples(iteration)`: the history goes to `checkpoint_<iteration>.pth.tar.examples`. */
    method SaveTrainExamples(iteration: nat)
      modifies this`examplesFiles
      ensures examplesFiles == old(examplesFiles)[ExamplesPath(cfg, iteration) := trainExamplesHistory]
    {
      examplesFiles := examplesFiles[Path(cfg.checkpoint, CheckpointFile(iteration) + ".examples") := trainExamplesHistory];
    }

    /** `loadTrainExamples`: restores the history from `<folder>/<file>.examples` and sets the
        skip flag; when the file is missing, the user's answer decides whether to go on
        (anything but "y" exits, reported as `exit`). */
    method LoadTrainExamples(folder: string, file: string, answer: string) returns (exit: bool)
      modifies this`trainExamplesHistory, this`skipFirstSelfPlay
      ensures var p := Path(folder, file + ".examples");
        if p in examplesFiles then
          trainExamplesHistory == examplesFiles[p] && skipFirstSelfPlay && !exit
        else
          trainExamplesHistory == old(trainExamplesHistory) && skipFirstSelfPlay == old(skipFirstSelfPlay) &&
          exit == (answer != "y")
    {
      var examplesFile := Path(folder, file + ".examples");
      exit := false;
      if examplesFile !in examplesFiles {
        if answer != "y" {
          exit := true;
        }
      } else {
        trainExamplesHistory := examplesFiles[examplesFile];
        skipFirstSelfPlay := true;
      }
    }

    /** The self-play half of an iteration: play, add the batch to the history window
        (dropping the oldest entry when over the bound), save the examples file. */
    method SelfPlayPhase(i: nat, col: Collaborators<B, P, M>)
      requires i >= 1
      modifies this`curPlayer, this`trainExamplesHistory, this`examplesFiles
      ensures State() == AfterSelfPlay(old(State()), cfg, col, skipFirstSelfPlay, i)
    {
      if !skipFirstSelfPlay || i > 1 {
        var iterationTrainExamples := SelfPlayBatch(i, col);
        trainExamplesHistory := trainExamplesHistory + [iterationTrainExamples];
        if |trainExamplesHistory| > cfg.numItersForTrainExamplesHistory {
          trainExamplesHistory := trainExamplesHistory[1..];
        }
        SaveTrainExamples(i - 1);
      }
    }

    /** The training set: the history's batches concatenated in order (before the shuffle). */
    method TrainingSet() returns (trainExamples: seq<Example<B, P>>)
      ensures trainExamples == Flatten(trainExamplesHistory)
      ensures |trainExamples| == TotalLength(trainExamplesHistory)
    {
      var history := trainExamplesHistory;
      trainExamples := [];
      for k := 0 to |history|
        invariant trainExamples == Flatten(history[..k])
      {
        assert history[..k + 1] == history[..k] + [history[k]];
        FlattenPush(history[..k], history[k]);
        trainExamples := trainExamples + history[k];
      }
      assert history[..|history|] == history;
      FlattenLength(history);
    }

    /** The training half of an iteration: snapshot to `temp`, train, pit the two models,
        then restore the snapshot or save the new model as `checkpoint_<i>` and `best`. */
    method TrainAndGate(i: nat, col: Collaborators<B, P, M>)
      modifies this`nnet, this`pnet, this`checkpoints
      ensures State() == AfterGate(old(State()), cfg, col, i)
    {
      var trainExamples := TrainingSet();
      checkpoints := checkpoints[TempFile := nnet];
      pnet := checkpoints[TempFile];
      nnet := col.train(i, nnet, trainExamples);
      var res := col.arena(i, pnet, nnet, cfg.arenaCompare);
      if Rejects(res.pwins, res.nwins, cfg.updateThreshold) {
        nnet := checkpoints[TempFile];
      } else {
        checkpoints := checkpoints[CheckpointFile(i) := nnet];
        checkpoints := checkpoints[BestFile := nnet];
      }
    }

    /** One iteration of the loop in `learn`. */
    method Iterate(i: nat, col: Collaborators<B, P, M>)
      requires i >= 1
      modifies this`curPlayer, this`trainExamplesHistory, this`examplesFiles, this`nnet, this`pnet, this`checkpoints
      ensures State() == IterationStep(old(State()), cfg, col, skipFirstSelfPlay, i)
    {
      SelfPlayPhase(i, col);
      TrainAndGate(i, col);
    }

    /** `learn`: iterations `1..numIters`. */
    method Learn(col: Collaborators<B, P, M>)
      modifies this`curPlayer, this`trainExamplesHistory, this`examplesFiles, this`nnet, this`pnet, this`checkpoints
      ensures State() == RunIterations(old(State()), cfg, col, skipFirstSelfPlay, cfg.numIters)
    {
      for i := 1 to cfg.numIters + 1
        invariant State() == RunIterations(old(State()), cfg, col, skipFirstSelfPlay, i - 1)
      {
        Iterate(i, col);
      }
    }
  }
}
