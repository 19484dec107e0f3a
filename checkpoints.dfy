/** The model-version gate of `SelfPlay.learn` and the names of the files the
    orchestrator writes: `checkpoint_<i>.pth.tar`, `best.pth.tar`,
    `temp.pth.tar`, and the `.examples` file saved next to a checkpoint. */
module Checkpoints {

  const TempFile: string := "temp.pth.tar"
  const BestFile: string := "best.pth.tar"

  function Digit(d: nat): char
    requires d < 10
  {
    "0123456789"[d]
  }

  function DigitValue(c: char): nat
  {
    if '0' <= c <= '9' then (c as int - '0' as int) as nat else 0
  }

  /** Python's `str(n)` for a non-negative integer: decimal digits, no leading zero. */
  function NatToString(n: nat): (s: string)
    ensures |s| >= 1
    ensures forall k :: 0 <= k < |s| ==> '0' <= s[k] <= '9'
    decreases n
  {
    if n < 10 then [Digit(n)] else NatToString(n / 10) + [Digit(n % 10)]
  }

  /** The value of a string of decimal digits. */
  function ParseDecimal(s: string): nat
    decreases |s|
  {
    if s == [] then 0 else 10 * ParseDecimal(s[..|s| - 1]) + DigitValue(s[|s| - 1])
  }

  /** Reading back the decimal digits of `n` gives `n`. */
  lemma {:induction false} ParseNatToString(n: nat)
    ensures ParseDecimal(NatToString(n)) == n
    decreases n
  {
    var s := NatToString(n);
    if n < 10 {
      assert s[..0] == [];
    } else {
      ParseNatToString(n / 10);
      assert s[..|s| - 1] == NatToString(n / 10);
    }
  }

  /** `getCheckpointFile(iteration)`. */
  function CheckpointFile(iteration: nat): string
  {
    "checkpoint_" + NatToString(iteration) + ".pth.tar"
  }

  /** The examples file `saveTrainExamples(iteration)` writes. */
  function ExamplesFile(iteration: nat): string
  {
    CheckpointFile(iteration) + ".examples"
  }

  /** Different iterations get different checkpoint files, and no checkpoint file is the
      `best` or the `temp` slot: accepting in iteration `i` never overwrites another
      iteration's archive. */
  lemma CheckpointFileInjective(i: nat, j: nat)
    ensures CheckpointFile(i) == CheckpointFile(j) <==> i == j
    ensures CheckpointFile(i) != BestFile && CheckpointFile(i) != TempFile
  {
    var s, t := NatToString(i), NatToString(j);
    var a, b := CheckpointFile(i), CheckpointFile(j);
    assert a[0] == 'c' && BestFile[0] == 'b' && TempFile[0] == 't';
    if a == b {
      assert |s| == |t|;
      assert s == a[11..11 + |s|];
      assert t == b[11..11 + |t|];
      ParseNatToString(i);
      ParseNatToString(j);
    }
  }

  /** Different iterations get different examples files. */
  lemma ExamplesFileInjective(i: nat, j: nat)
    ensures ExamplesFile(i) == ExamplesFile(j) <==> i == j
  {
    if ExamplesFile(i) == ExamplesFile(j) {
      assert CheckpointFile(i) == ExamplesFile(i)[..|CheckpointFile(i)|];
      assert CheckpointFile(j) == ExamplesFile(j)[..|CheckpointFile(j)|];
      CheckpointFileInjective(i, j);
    }
  }

  /** What `Arena.playGames` reports: wins of the previous model, of the new model, draws. */
  datatype ArenaResult = ArenaResult(pwins: nat, nwins: nat, draws: nat)

  /** The gate's reject condition,
      `pwins + nwins == 0 or float(nwins) / (pwins + nwins) < updateThreshold`. */
  function Rejects(pwins: nat, nwins: nat, updateThreshold: real): (reject: bool)
    ensures reject <==> pwins + nwins == 0 || (nwins as real) < updateThreshold * ((pwins + nwins) as real)
    ensures !reject <==> pwins + nwins > 0 && (nwins as real) >= updateThreshold * ((pwins + nwins) as real)
  {
    var total := pwins + nwins;
    if total == 0 then true
    else
      var rate := (nwins as real) / (total as real);
      assert rate * (total as real) == nwins as real;
      rate < updateThreshold
  }

  /** The decision boundary: 55 of 100 decisive games meets a threshold of 0.55, 54 does
      not, and a match of draws only is rejected. */
  lemma GateBoundary()
    ensures !Rejects(45, 55, 0.55)
    ensures Rejects(46, 54, 0.55)
    ensures Rejects(0, 0, 0.55)
  {
  }
}
