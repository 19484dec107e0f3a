/** One self-play episode (`SelfPlay.executeEpisode`), as pure functions.

    The game, the search and the sampling of an action are not modelled: step
    `k` of an episode is given as a function from the temperature the episode
    asks for to what that step produced, namely the symmetry variants of the
    canonical board with the search policy, the player to move after the
    sampled action, and `get_game_ended` for that player. The method that runs
    the loop is `SelfPlay.SelfPlay.ExecuteEpisode`; this module gives the
    functions it is proved against and the lemmas about them. */
module Episodes {
  import opened Common

  /** A record collected during the episode before its outcome is known. */
  datatype Pending<B, P> = Pending(board: B, player: int, pi: P)

  /** What one step of the episode produced. */
  datatype StepResult<B, P> = StepResult(symmetries: seq<(B, P)>, nextPlayer: int, ended: real)

  /** A step that was played, with the player who was to move in it. */
  datatype Turn<B, P> = Turn(player: int, result: StepResult<B, P>)

  /** Python's `int(b)` for a boolean. */
  function BoolToInt(b: bool): (n: nat)
    ensures n <= 1
    ensures n == 1 <==> b
  {
    if b then 1 else 0
  }

  /** `int(episodeStep < tempThreshold)`: exploratory before the threshold, greedy from it on. */
  function Temp(episodeStep: int, tempThreshold: int): (t: nat)
    ensures t == 1 <==> episodeStep < tempThreshold
    ensures t == 0 <==> episodeStep >= tempThreshold
  {
    BoolToInt(episodeStep < tempThreshold)
  }

  function Power(base: real, e: nat): real
  {
    if e == 0 then 1.0 else base * Power(base, e - 1)
  }

  /** `r * ((-1) ** (player != finalPlayer))`. */
  function Outcome(player: int, finalPlayer: int, r: real): (v: real)
    ensures v == if player == finalPlayer then r else -r
    ensures Abs(v) == Abs(r)
  {
    r * Power(-1.0, BoolToInt(player != finalPlayer))
  }

  /** The records appended for one step: one per symmetry variant, all with `player`. */
  function Record<B, P>(sym: seq<(B, P)>, player: int): seq<Pending<B, P>>
    decreases |sym|
  {
    if sym == [] then []
    else Record(sym[..|sym| - 1], player) + [Pending(sym[|sym| - 1].0, player, sym[|sym| - 1].1)]
  }

  /** The comprehension that turns the pending records into examples once the result is known. */
  function Resolve<B, P>(pending: seq<Pending<B, P>>, finalPlayer: int, r: real): (out: seq<Example<B, P>>)
    ensures |out| == |pending|
    ensures forall i :: 0 <= i < |pending| ==>
      out[i].board == pending[i].board && out[i].pi == pending[i].pi &&
      out[i].v == (if pending[i].player == finalPlayer then r else -r)
    ensures forall i :: 0 <= i < |pending| ==> Abs(out[i].v) == Abs(r)
  {
    seq(|pending|, i requires 0 <= i < |pending| =>
      Example(pending[i].board, pending[i].pi, Outcome(pending[i].player, finalPlayer, r)))
  }

  /** The steps played from step `k + 1` on, with `cur` to move, until one ends the game
      or the supplied steps run out. */
  function Trace<B, P>(steps: seq<int -> StepResult<B, P>>, tempThreshold: int, k: nat, cur: int): seq<Turn<B, P>>
    requires k <= |steps|
    decreases |steps| - k
  {
    if k == |steps| then []
    else
      var res := steps[k](Temp(k + 1, tempThreshold));
      [Turn(cur, res)] + (if res.ended != 0.0 then [] else Trace(steps, tempThreshold, k + 1, res.nextPlayer))
  }

  /** All pending records of the played steps, in the order they were appended. */
  function Collect<B, P>(t: seq<Turn<B, P>>): seq<Pending<B, P>>
    decreases |t|
  {
    if t == [] then []
    else Collect(t[..|t| - 1]) + Record(t[|t| - 1].result.symmetries, t[|t| - 1].player)
  }

  /** Where the records of turn `i` start in `Collect(t)`. */
  function Offset<B, P>(t: seq<Turn<B, P>>, i: nat): nat
    requires i <= |t|
  {
    if i == 0 then 0 else Offset(t, i - 1) + |t[i - 1].result.symmetries|
  }

  predicate Ended<B, P>(t: seq<Turn<B, P>>)
  {
    t != [] && t[|t| - 1].result.ended != 0.0
  }

  /** `self.curPlayer` after the played steps. */
  function PlayerAfter<B, P>(t: seq<Turn<B, P>>): int
  {
    if t == [] then 1 else t[|t| - 1].result.nextPlayer
  }

  /** The examples the episode returns, or `None` when no supplied step ends the game. */
  function Episode<B, P>(steps: seq<int -> StepResult<B, P>>, tempThreshold: int): Option<seq<Example<B, P>>>
  {
    var t := Trace(steps, tempThreshold, 0, 1);
    if Ended(t) then Some(Resolve(Collect(t), t[|t| - 1].result.nextPlayer, t[|t| - 1].result.ended))
    else None
  }

  /** One more step of the episode: the trace so far grows by the turn just played. */
  lemma TraceAdvance<B, P>(steps: seq<int -> StepResult<B, P>>, tempThreshold: int, k: nat, cur: int, done: seq<Turn<B, P>>)
    requires k < |steps|
    requires Trace(steps, tempThreshold, 0, 1) == done + Trace(steps, tempThreshold, k, cur)
    ensures var res := steps[k](Temp(k + 1, tempThreshold));
      (res.ended == 0.0 ==>
        Trace(steps, tempThreshold, 0, 1) == (done + [Turn(cur, res)]) + Trace(steps, tempThreshold, k + 1, res.nextPlayer)) &&
      (res.ended != 0.0 ==> Trace(steps, tempThreshold, 0, 1) == done + [Turn(cur, res)])
  {
    var res := steps[k](Temp(k + 1, tempThreshold));
    var turn := Turn(cur, res);
    if res.ended == 0.0 {
      var rest := Trace(steps, tempThreshold, k + 1, res.nextPlayer);
      assert Trace(steps, tempThreshold, k, cur) == [turn] + rest;
      assert done + ([turn] + rest) == (done + [turn]) + rest;
    } else {
      assert Trace(steps, tempThreshold, k, cur) == [turn];
    }
  }

  /** The episode a loop returns from once the trace so far is the whole trace and ended. */
  lemma EpisodeEnded<B, P>(steps: seq<int -> StepResult<B, P>>, tempThreshold: int, done: seq<Turn<B, P>>)
    requires Trace(steps, tempThreshold, 0, 1) == done && Ended(done)
    ensures Episode(steps, tempThreshold) ==
      Some(Resolve(Collect(done), done[|done| - 1].result.nextPlayer, done[|done| - 1].result.ended))
    ensures PlayerAfter(Trace(steps, tempThreshold, 0, 1)) == done[|done| - 1].result.nextPlayer
  {
  }

  /** The supplied steps ran out with the game still going. */
  lemma EpisodeUnended<B, P>(steps: seq<int -> StepResult<B, P>>, tempThreshold: int, cur: int, done: seq<Turn<B, P>>)
    requires Trace(steps, tempThreshold, 0, 1) == done + Trace(steps, tempThreshold, |steps|, cur)
    requires !Ended(done)
    ensures Episode(steps, tempThreshold).None?
    ensures PlayerAfter(Trace(steps, tempThreshold, 0, 1)) == PlayerAfter(done)
  {
    assert done + Trace(steps, tempThreshold, |steps|, cur) == done;
  }

  lemma CollectPush<B, P>(done: seq<Turn<B, P>>, turn: Turn<B, P>)
    ensures Collect(done + [turn]) == Collect(done) + Record(turn.result.symmetries, turn.player)
  {
    assert (done + [turn])[..|done|] == done;
  }

  lemma RecordPush<B, P>(sym: seq<(B, P)>, player: int, j: nat)
    requires j < |sym|
    ensures Record(sym[..j + 1], player) == Record(sym[..j], player) + [Pending(sym[j].0, player, sym[j].1)]
  {
    assert sym[..j + 1][..j] == sym[..j];
  }

  lemma {:induction false} RecordAt<B, P>(sym: seq<(B, P)>, player: int, j: nat)
    requires j < |sym|
    ensures |Record(sym, player)| == |sym|
    ensures Record(sym, player)[j] == Pending(sym[j].0, player, sym[j].1)
    decreases |sym|
  {
    RecordLength(sym[..|sym| - 1], player);
    if j < |sym| - 1 {
      RecordAt(sym[..|sym| - 1], player, j);
    }
  }

  lemma {:induction false} RecordLength<B, P>(sym: seq<(B, P)>, player: int)
    ensures |Record(sym, player)| == |sym|
    decreases |sym|
  {
    if sym != [] {
      RecordLength(sym[..|sym| - 1], player);
    }
  }

  /** The played steps: step `k + i + 1` was asked for `Temp(k + i + 1, ·)`, players follow
      the successor players the steps produced, every step but the last left the game
      running, and the trace stops early only at a step that ended the game. */
  lemma {:induction false} TraceShape<B, P>(steps: seq<int -> StepResult<B, P>>, tempThreshold: int, k: nat, cur: int)
    requires k <= |steps|
    ensures var t := Trace(steps, tempThreshold, k, cur);
      |t| <= |steps| - k &&
      (k < |steps| ==> t != [] && t[0].player == cur) &&
      (forall i :: 0 <= i < |t| ==> t[i].result == steps[k + i](Temp(k + i + 1, tempThreshold))) &&
      (forall i :: 0 <= i < |t| - 1 ==> t[i].result.ended == 0.0 && t[i + 1].player == t[i].result.nextPlayer) &&
      (|t| < |steps| - k ==> Ended(t))
    decreases |steps| - k
  {
    if k < |steps| {
      var res := steps[k](Temp(k + 1, tempThreshold));
      if res.ended == 0.0 {
        TraceShape(steps, tempThreshold, k + 1, res.nextPlayer);
        var rest := Trace(steps, tempThreshold, k + 1, res.nextPlayer);
        var t := Trace(steps, tempThreshold, k, cur);
        assert t == [Turn(cur, res)] + rest;
        forall i | 0 <= i < |t|
          ensures t[i].result == steps[k + i](Temp(k + i + 1, tempThreshold))
        {
          if i > 0 {
            assert t[i] == rest[i - 1];
          }
        }
        forall i | 0 <= i < |t| - 1
          ensures t[i].result.ended == 0.0 && t[i + 1].player == t[i].result.nextPlayer
        {
          if i > 0 {
            assert t[i] == rest[i - 1] && t[i + 1] == rest[i];
          }
        }
        if |t| < |steps| - k {
          assert rest != [] && t[|t| - 1] == rest[|rest| - 1];
        }
      }
    }
  }

  /** The records of turn `i` sit at `Offset(t, i)` onwards in `Collect(t)`, all with
      the player of that turn. */
  lemma {:induction false} CollectAt<B, P>(t: seq<Turn<B, P>>, i: nat, j: nat)
    requires i < |t| && j < |t[i].result.symmetries|
    ensures |Collect(t)| == Offset(t, |t|)
    ensures Offset(t, i) + j < |Collect(t)|
    ensures Collect(t)[Offset(t, i) + j] ==
      Pending(t[i].result.symmetries[j].0, t[i].player, t[i].result.symmetries[j].1)
    decreases |t|
  {
    var t' := t[..|t| - 1];
    var last := t[|t| - 1];
    CollectLength(t');
    RecordLength(last.result.symmetries, last.player);
    OffsetPrefix(t, t', |t'|);
    if i == |t| - 1 {
      RecordAt(last.result.symmetries, last.player, j);
    } else {
      OffsetPrefix(t, t', i);
      CollectAt(t', i, j);
    }
  }

  lemma {:induction false} CollectLength<B, P>(t: seq<Turn<B, P>>)
    ensures |Collect(t)| == Offset(t, |t|)
    decreases |t|
  {
    if t != [] {
      var t' := t[..|t| - 1];
      CollectLength(t');
      RecordLength(t[|t| - 1].result.symmetries, t[|t| - 1].player);
      OffsetPrefix(t, t', |t'|);
    }
  }

  lemma {:induction false} OffsetPrefix<B, P>(t: seq<Turn<B, P>>, t': seq<Turn<B, P>>, i: nat)
    requires t' <= t && i <= |t'|
    ensures Offset(t, i) == Offset(t', i)
    decreases i
  {
    if i > 0 {
      OffsetPrefix(t, t', i - 1);
    }
  }

  /** The examples of a finished episode: example `Offset(t, i) + j` is symmetry variant `j`
      of step `i` with the outcome `r` when the player of that step is the player to move
      after the final move and `-r` otherwise; so all variants of one step share one
      outcome, and every outcome has the magnitude of the non-zero result `r`. */
  lemma EpisodeOutcomes<B, P>(steps: seq<int -> StepResult<B, P>>, tempThreshold: int, i: nat, j: nat)
    requires Episode(steps, tempThreshold).Some?
    requires var t := Trace(steps, tempThreshold, 0, 1); i < |t| && j < |t[i].result.symmetries|
    ensures var t := Trace(steps, tempThreshold, 0, 1);
      var ex := Episode(steps, tempThreshold).value;
      var fin := t[|t| - 1].result.nextPlayer;
      var r := t[|t| - 1].result.ended;
      |ex| == Offset(t, |t|) &&
      Offset(t, i) + j < |ex| &&
      ex[Offset(t, i) + j] == Example(t[i].result.symmetries[j].0, t[i].result.symmetries[j].1,
                                      if t[i].player == fin then r else -r) &&
      r != 0.0 && Abs(ex[Offset(t, i) + j].v) == Abs(r)
  {
    var t := Trace(steps, tempThreshold, 0, 1);
    var fin := t[|t| - 1].result.nextPlayer;
    var r := t[|t| - 1].result.ended;
    EpisodeValue(steps, tempThreshold);
    var ex := Resolve(Collect(t), fin, r);
    CollectAt(t, i, j);
    assert ex[Offset(t, i) + j].v == if t[i].player == fin then r else -r;
  }

  /** A finished episode resolves the records of its whole trace against its last step. */
  lemma EpisodeValue<B, P>(steps: seq<int -> StepResult<B, P>>, tempThreshold: int)
    requires Episode(steps, tempThreshold).Some?
    ensures var t := Trace(steps, tempThreshold, 0, 1);
      Ended(t) &&
      Episode(steps, tempThreshold).value == Resolve(Collect(t), t[|t| - 1].result.nextPlayer, t[|t| - 1].result.ended)
  {
  }

  /** Two symmetry variants recorded at the same step get the same outcome. */
  lemma SymmetriesShareOutcome<B, P>(steps: seq<int -> StepResult<B, P>>, tempThreshold: int, i: nat, j1: nat, j2: nat)
    requires Episode(steps, tempThreshold).Some?
    requires var t := Trace(steps, tempThreshold, 0, 1);
      i < |t| && j1 < |t[i].result.symmetries| && j2 < |t[i].result.symmetries|
    ensures var t := Trace(steps, tempThreshold, 0, 1);
      var ex := Episode(steps, tempThreshold).value;
      Offset(t, i) + j1 < |ex| && Offset(t, i) + j2 < |ex| &&
      ex[Offset(t, i) + j1].v == ex[Offset(t, i) + j2].v
  {
    EpisodeOutcomes(steps, tempThreshold, i, j1);
    EpisodeOutcomes(steps, tempThreshold, i, j2);
  }
}
