/** The experience buffers of `SelfPlay.learn`: the per-iteration
    `deque(maxlen=maxlenOfQueue)`, the gather of the workers' deques at the
    coordinator, and the sliding window of iteration batches kept in
    `trainExamplesHistory`. */
module Replay {
  import opened Common

  /** What a `deque(xs, maxlen=n)` holds: the last `min(|xs|, n)` elements of `xs`. */
  function Suffix<T>(xs: seq<T>, n: nat): (r: seq<T>)
    ensures |r| == if |xs| <= n then |xs| else n
  {
    if |xs| <= n then xs else xs[|xs| - n..]
  }

  /** A bounded deque keeps the newest elements, in the order they were appended. */
  lemma SuffixIsTail<T>(xs: seq<T>, n: nat)
    ensures Suffix(xs, n) == xs[|xs| - |Suffix(xs, n)|..]
    ensures forall i :: 0 <= i < |Suffix(xs, n)| ==> Suffix(xs, n)[i] == xs[|xs| - |Suffix(xs, n)| + i]
  {
  }

  lemma DropConcat<T>(a: seq<T>, b: seq<T>, d: nat)
    requires d <= |a| + |b|
    ensures d <= |a| ==> (a + b)[d..] == a[d..] + b
    ensures d >= |a| ==> (a + b)[d..] == b[d - |a|..]
  {
  }

  /** Bounding, then extending, then bounding again keeps the same elements as bounding once. */
  lemma SuffixOfSuffixLeft<T>(a: seq<T>, b: seq<T>, n: nat)
    ensures Suffix(Suffix(a, n) + b, n) == Suffix(a + b, n)
  {
    if |a| > n {
      if |b| >= n {
        SuffixLeftLong(a, b, n);
      } else {
        SuffixLeftShort(a, b, n);
      }
    }
  }

  lemma SuffixLeftLong<T>(a: seq<T>, b: seq<T>, n: nat)
    requires |a| > n && |b| >= n
    ensures Suffix(Suffix(a, n) + b, n) == Suffix(a + b, n)
  {
    var a' := a[|a| - n..];
    var m := |b|;
    calc {
      Suffix(Suffix(a, n) + b, n);
      (a' + b)[m..];
      { DropConcat(a', b, m); }
      b[m - n..];
      { DropConcat(a, b, |a| + m - n); }
      (a + b)[|a| + m - n..];
      Suffix(a + b, n);
    }
  }

  lemma SuffixLeftShort<T>(a: seq<T>, b: seq<T>, n: nat)
    requires |a| > n && |b| < n
    ensures Suffix(Suffix(a, n) + b, n) == Suffix(a + b, n)
  {
    var a' := a[|a| - n..];
    var m := |b|;
    calc {
      Suffix(Suffix(a, n) + b, n);
      (a' + b)[m..];
      { DropConcat(a', b, m); }
      a'[m..] + b;
      { assert a'[m..] == a[|a| - n + m..]; }
      a[|a| + m - n..] + b;
      { DropConcat(a, b, |a| + m - n); }
      (a + b)[|a| + m - n..];
      Suffix(a + b, n);
    }
  }

  /** Bounding the last part first keeps the same elements as bounding once. */
  lemma SuffixOfSuffixRight<T>(a: seq<T>, b: seq<T>, n: nat)
    ensures Suffix(a + Suffix(b, n), n) == Suffix(a + b, n)
  {
    if |b| > n {
      var b' := b[|b| - n..];
      calc {
        Suffix(a + Suffix(b, n), n);
        Suffix(a + b', n);
        { DropConcat(a, b', |a|); }
        b';
        { DropConcat(a, b, |a| + |b| - n); }
        (a + b)[|a| + |b| - n..];
        Suffix(a + b, n);
      }
    }
  }

  /** A `deque` with a `maxlen`; `Extend` is its `+=`. */
  class BoundedDeque<T> {
    const maxlen: nat
    var items: seq<T>

    /** The deque never holds more than `maxlen` elements. */
    predicate Valid()
      reads this
    {
      |items| <= maxlen
    }

    constructor (maxlen: nat)
      ensures Valid()
      ensures this.maxlen == maxlen && items == []
    {
      this.maxlen := maxlen;
      items := [];
    }

    /** Appends `xs` one element at a time, evicting from the left when over `maxlen`. */
    method Extend(xs: seq<T>)
      requires Valid()
      modifies this
      ensures Valid()
      ensures items == Suffix(old(items) + xs, maxlen)
    {
      var j := 0;
      while j < |xs|
        invariant 0 <= j <= |xs|
        invariant Valid()
        invariant items == Suffix(old(items) + xs[..j], maxlen)
      {
        ghost var before := old(items) + xs[..j];
        SuffixOfSuffixLeft(before, [xs[j]], maxlen);
        assert before + [xs[j]] == old(items) + xs[..j + 1];
        items := items + [xs[j]];
        if |items| > maxlen {
          items := items[1..];
        }
        j := j + 1;
      }
      assert xs[..|xs|] == xs;
    }
  }

  /** The gather at the coordinator in its intended form,
      `deque(sum(map(list, all_examples), []), maxlen=maxlen)`: the workers' examples
      concatenated in rank order and bounded again (`GatherAsWritten` is line 90 as written). */
  function Gather<T>(rankLists: seq<seq<T>>, maxlen: nat): seq<T>
  {
    Suffix(Flatten(rankLists), maxlen)
  }

  /** A value handed to Python's `sum`: a list, or a `deque`, which is what
      `dist.all_gather_object` gives back for each worker's `iterationTrainExamples`. */
  datatype PyValue<T> = List(items: seq<T>) | Deque(items: seq<T>)

  /** `sum(values, start)` with a list `start`: `start + v` for each value in order.
      `list + deque` raises a `TypeError` (`None`): a list concatenates only with a list. */
  function PySum<T>(values: seq<PyValue<T>>, start: seq<T>): Option<seq<T>>
    decreases |values|
  {
    if values == [] then Some(start)
    else
      match values[0]
      case List(xs) => PySum(values[1..], start + xs)
      case Deque(_) => None
  }

  /** The gathered values, each worker's examples as a list. */
  function AsLists<T>(xss: seq<seq<T>>): (vs: seq<PyValue<T>>)
    ensures |vs| == |xss|
  {
    seq(|xss|, r requires 0 <= r < |xss| => List(xss[r]))
  }

  /** The gathered values as `dist.all_gather_object` returns them, one deque per worker. */
  function AsDeques<T>(xss: seq<seq<T>>): (vs: seq<PyValue<T>>)
    ensures |vs| == |xss|
  {
    seq(|xss|, r requires 0 <= r < |xss| => Deque(xss[r]))
  }

  /** Summing a list of lists onto `start` appends their concatenation to `start`. */
  lemma {:induction false} PySumLists<T>(xss: seq<seq<T>>, start: seq<T>)
    ensures PySum(AsLists(xss), start) == Some(start + Flatten(xss))
    decreases |xss|
  {
    if xss == [] {
      assert start + Flatten(xss) == start;
    } else {
      var rest := xss[1..];
      assert AsLists(xss)[1..] == AsLists(rest);
      assert xss == [xss[0]] + rest;
      FlattenFront(xss[0], rest);
      PySumLists(rest, start + xss[0]);
      assert start + xss[0] + Flatten(rest) == start + Flatten(xss);
    }
  }

  /** `deque(sum(all_examples, []), maxlen=maxlen)` as written: the gathered values are
      deques, so the `sum` raises as soon as there is one worker. */
  function GatherAsWritten<T>(rankLists: seq<seq<T>>, maxlen: nat): Option<seq<T>>
  {
    match PySum(AsDeques(rankLists), [])
    case None => None
    case Some(xs) => Some(Suffix(xs, maxlen))
  }

  /** With at least one worker the gather as written fails. */
  lemma GatherAsWrittenFails<T>(rankLists: seq<seq<T>>, maxlen: nat)
    requires |rankLists| >= 1
    ensures GatherAsWritten(rankLists, maxlen).None?
  {
    assert AsDeques(rankLists)[0] == Deque(rankLists[0]);
  }

  /** Converting each deque to a list first, `sum(map(list, all_examples), [])`, gives the
      concatenation that `Gather` bounds: the evident intent of the line. */
  lemma GatherIntended<T>(rankLists: seq<seq<T>>, maxlen: nat)
    ensures PySum(AsLists(rankLists), []).Some?
    ensures Gather(rankLists, maxlen) == Suffix(PySum(AsLists(rankLists), []).value, maxlen)
  {
    PySumLists(rankLists, []);
    assert [] + Flatten(rankLists) == Flatten(rankLists);
  }

  /** Every list in `h` has at most `maxlen` elements. */
  predicate BatchesWithin<T>(h: seq<seq<T>>, maxlen: nat)
  {
    forall k :: 0 <= k < |h| ==> |h[k]| <= maxlen
  }

  /** Lists of at most `maxlen` elements each hold at most `|h| * maxlen` together. */
  lemma {:induction false} TotalLengthWithin<T>(h: seq<seq<T>>, maxlen: nat)
    requires BatchesWithin(h, maxlen)
    ensures TotalLength(h) <= |h| * maxlen
    decreases |h|
  {
    if h != [] {
      var front := h[..|h| - 1];
      TotalLengthWithin(front, maxlen);
      assert |h| * maxlen == |front| * maxlen + maxlen;
    }
  }

  /** The size invariant of the history: starting within it, the history holds at most
      `bound` batches of at most `maxlen` examples each, so at most `bound * maxlen`
      examples in all. */
  lemma HistorySize<T>(history: seq<seq<T>>, batches: seq<seq<T>>, bound: nat, maxlen: nat)
    requires |history| <= bound && BatchesWithin(history, maxlen) && BatchesWithin(batches, maxlen)
    ensures var h := AddIterations(history, batches, bound);
      |h| <= bound && BatchesWithin(h, maxlen) && TotalLength(h) <= bound * maxlen
  {
    HistoryIsWindow(history, batches, bound);
    ConcatWithin(history, batches, history + batches, maxlen);
    SuffixWithin(history + batches, bound, maxlen);
    var h := AddIterations(history, batches, bound);
    TotalLengthWithin(h, maxlen);
    MulMonotone(|h|, bound, maxlen);
  }

  /** Concatenating lists of lists within `maxlen` gives lists within `maxlen`. */
  lemma ConcatWithin<T>(a: seq<seq<T>>, b: seq<seq<T>>, c: seq<seq<T>>, maxlen: nat)
    requires c == a + b
    requires BatchesWithin(a, maxlen) && BatchesWithin(b, maxlen)
    ensures BatchesWithin(c, maxlen)
  {
    forall k | 0 <= k < |c|
      ensures |c[k]| <= maxlen
    {
      if k >= |a| {
        assert c[k] == b[k - |a|];
      }
    }
  }

  /** A bounded deque of lists within `maxlen` holds lists within `maxlen`. */
  lemma SuffixWithin<T>(xs: seq<seq<T>>, n: nat, maxlen: nat)
    requires BatchesWithin(xs, maxlen)
    ensures BatchesWithin(Suffix(xs, n), maxlen)
  {
    SuffixIsTail(xs, n);
  }

  lemma MulMonotone(a: nat, b: nat, m: nat)
    requires a <= b
    ensures a * m <= b * m
  {
    assert b * m == a * m + (b - a) * m;
  }

  /** Each worker's own bounded deque of the examples of its episodes. */
  function RankBatches<T>(episodes: seq<seq<seq<T>>>, maxlen: nat): (rs: seq<seq<T>>)
    ensures |rs| == |episodes|
    decreases |episodes|
  {
    if episodes == [] then []
    else RankBatches(episodes[..|episodes| - 1], maxlen) + [Suffix(Flatten(episodes[|episodes| - 1]), maxlen)]
  }

  /** The examples of each worker's episodes, concatenated per worker. */
  function PerRank<T>(episodes: seq<seq<seq<T>>>): (rs: seq<seq<T>>)
    ensures |rs| == |episodes|
    decreases |episodes|
  {
    if episodes == [] then []
    else PerRank(episodes[..|episodes| - 1]) + [Flatten(episodes[|episodes| - 1])]
  }

  /** The gathered batch is the last `maxlen` examples of every worker's episodes
      concatenated in rank order: bounding each worker's deque first loses nothing the
      final bound would keep. */
  lemma {:induction false} GatherOfRankBatches<T>(episodes: seq<seq<seq<T>>>, maxlen: nat)
    ensures Gather(RankBatches(episodes, maxlen), maxlen) == Suffix(Flatten(PerRank(episodes)), maxlen)
    decreases |episodes|
  {
    if episodes != [] {
      var e' := episodes[..|episodes| - 1];
      var last := Flatten(episodes[|episodes| - 1]);
      var front := Flatten(RankBatches(e', maxlen));
      GatherOfRankBatches(e', maxlen);
      FlattenPush(RankBatches(e', maxlen), Suffix(last, maxlen));
      FlattenPush(PerRank(e'), last);
      SuffixOfSuffixRight(front, last, maxlen);
      SuffixOfSuffixLeft(front, last, maxlen);
      SuffixOfSuffixLeft(Flatten(PerRank(e')), last, maxlen);
    }
  }

  /** With `w` workers contributing `k` examples each, the coordinator holds `w * k`
      examples when that fits in `maxlen`, and `maxlen` otherwise. */
  lemma {:induction false} GatherCount<T>(rankLists: seq<seq<T>>, k: nat, maxlen: nat)
    requires forall r :: 0 <= r < |rankLists| ==> |rankLists[r]| == k
    ensures |Gather(rankLists, maxlen)| == if |rankLists| * k <= maxlen then |rankLists| * k else maxlen
    decreases |rankLists|
  {
    TotalLengthUniform(rankLists, k);
    FlattenLength(rankLists);
  }

  /** `trainExamplesHistory.append(batch)`, then `pop(0)` if the history is longer than `bound`. */
  function AddIteration<T>(history: seq<T>, batch: T, bound: nat): seq<T>
  {
    var h := history + [batch];
    if |h| > bound then h[1..] else h
  }

  /** At most the single oldest entry is removed, the rest keep their order and the new
      batch comes last; a history within the bound stays within it. */
  lemma AddIterationWindow<T>(history: seq<T>, batch: T, bound: nat)
    ensures var h := AddIteration(history, batch, bound);
      (h == history + [batch] && |history| < bound) ||
      (h == (history + [batch])[1..] && |history| >= bound)
    ensures |history| <= bound ==> |AddIteration(history, batch, bound)| <= bound
    ensures |history| <= bound ==> AddIteration(history, batch, bound) == Suffix(history + [batch], bound)
  {
  }

  /** The history after appending `batches` one iteration at a time. */
  function AddIterations<T>(history: seq<T>, batches: seq<T>, bound: nat): seq<T>
    decreases |batches|
  {
    if batches == [] then history
    else AddIteration(AddIterations(history, batches[..|batches| - 1], bound), batches[|batches| - 1], bound)
  }

  /** Adding no batch or one batch after `batches`. */
  lemma AddIterationsPush<T>(history: seq<T>, batches: seq<T>, added: seq<T>, bound: nat)
    requires |added| <= 1
    ensures AddIterations(history, batches + added, bound) ==
      if added == [] then AddIterations(history, batches, bound)
      else AddIteration(AddIterations(history, batches, bound), added[0], bound)
  {
    if added == [] {
      assert batches + added == batches;
    } else {
      assert (batches + added)[..|batches|] == batches;
    }
  }

  /** Starting within the bound, the history is always the last `bound` batches added, in
      order: FIFO eviction at iteration granularity. */
  lemma {:induction false} HistoryIsWindow<T>(history: seq<T>, batches: seq<T>, bound: nat)
    requires |history| <= bound
    ensures AddIterations(history, batches, bound) == Suffix(history + batches, bound)
    decreases |batches|
  {
    if batches != [] {
      var b' := batches[..|batches| - 1];
      var x := batches[|batches| - 1];
      var h' := AddIterations(history, b', bound);
      assert |h'| <= bound by {
        HistoryIsWindow(history, b', bound);
      }
      calc {
        AddIterations(history, batches, bound);
        AddIteration(h', x, bound);
        { AddIterationWindow(h', x, bound); }
        Suffix(h' + [x], bound);
        { HistoryIsWindow(history, b', bound); }
        Suffix(Suffix(history + b', bound) + [x], bound);
        { SuffixOfSuffixLeft(history + b', [x], bound); }
        Suffix(history + b' + [x], bound);
        { assert history + b' + [x] == history + batches; }
        Suffix(history + batches, bound);
      }
    }
  }

  /** After `bound + 1` insertions into an empty history the first batch is gone and the
      others remain in their original order. */
  lemma OldestEvicted<T>(batches: seq<T>, bound: nat)
    requires |batches| == bound + 1
    ensures AddIterations([], batches, bound) == batches[1..]
  {
    HistoryIsWindow([], batches, bound);
    assert [] + batches == batches;
  }
}
