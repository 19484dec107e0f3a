/** Definitions shared by the self-play orchestrator and the network wrapper:
    the failure-compatible wrappers, the training example record, and the
    concatenation of a list of lists (`sum(lists, [])`, or a loop of `extend`). */
module Common {

  datatype Option<T> = None | Some(value: T)

  datatype Result<T, E> = Ok(value: T) | Err(error: E)

  /** A resolved training example: a board, the policy target `pi`, and the
      outcome `v` from the point of view of the player to move on `board`. */
  datatype Example<B, P> = Example(board: B, pi: P, v: real)

  /** Concatenation of `xss` in order, built from the end as a loop of `extend` does. */
  function Flatten<T>(xss: seq<seq<T>>): seq<T>
    decreases |xss|
  {
    if xss == [] then [] else Flatten(xss[..|xss| - 1]) + xss[|xss| - 1]
  }

  /** Total length of the lists in `xss`. */
  function TotalLength<T>(xss: seq<seq<T>>): nat
    decreases |xss|
  {
    if xss == [] then 0 else TotalLength(xss[..|xss| - 1]) + |xss[|xss| - 1]|
  }

  lemma {:induction false} FlattenLength<T>(xss: seq<seq<T>>)
    ensures |Flatten(xss)| == TotalLength(xss)
    decreases |xss|
  {
    if xss != [] {
      FlattenLength(xss[..|xss| - 1]);
    }
  }

  lemma {:induction false} FlattenAppend<T>(a: seq<seq<T>>, b: seq<seq<T>>)
    ensures Flatten(a + b) == Flatten(a) + Flatten(b)
    decreases |b|
  {
    if b == [] {
      assert a + b == a;
    } else {
      var b' := b[..|b| - 1];
      var x := b[|b| - 1];
      calc {
        Flatten(a + b);
        { assert a + b == (a + b') + [x]; FlattenPush(a + b', x); }
        Flatten(a + b') + x;
        { FlattenAppend(a, b'); }
        Flatten(a) + Flatten(b') + x;
        { assert b == b' + [x]; FlattenPush(b', x); }
        Flatten(a) + Flatten(b);
      }
    }
  }

  lemma FlattenPush<T>(a: seq<seq<T>>, x: seq<T>)
    ensures Flatten(a + [x]) == Flatten(a) + x
  {
    assert (a + [x])[..|a|] == a;
  }

  /** Concatenation from the front, as `sum(lists, [])` builds it. */
  lemma FlattenFront<T>(x: seq<T>, rest: seq<seq<T>>)
    ensures Flatten([x] + rest) == x + Flatten(rest)
  {
    FlattenAppend([x], rest);
    assert [x][..0] == [];
  }

  /** Lists of equal length `k` have `|xss| * k` elements together. */
  lemma {:induction false} TotalLengthUniform<T>(xss: seq<seq<T>>, k: nat)
    requires forall r :: 0 <= r < |xss| ==> |xss[r]| == k
    ensures TotalLength(xss) == |xss| * k
    decreases |xss|
  {
    if xss != [] {
      TotalLengthUniform(xss[..|xss| - 1], k);
    }
  }

  /** `a * n + r < m * n` when `a < m` and `r < n`: the position `r` of block `a` lies
      inside `m` blocks of `n`. */
  lemma MulBound(a: nat, m: nat, r: nat, n: nat)
    requires a < m && r < n
    ensures a * n + r < m * n
  {
    calc {
      a * n + r;
    <  a * n + n;
    == (a + 1) * n;
    <= { assert a + 1 <= m; } m * n;
    }
  }

  /** In a concatenation of lists of length `k`, entry `p` of list `b` is at `b * k + p`. */
  lemma {:induction false} FlattenUniformAt<T>(xss: seq<seq<T>>, k: nat, b: nat, p: nat)
    requires forall i :: 0 <= i < |xss| ==> |xss[i]| == k
    requires b < |xss| && p < k
    ensures b * k + p < |Flatten(xss)| && Flatten(xss)[b * k + p] == xss[b][p]
    decreases |xss|
  {
    var n := |xss|;
    var front := xss[..n - 1];
    FlattenLength(xss);
    FlattenLength(front);
    TotalLengthUniform(xss, k);
    TotalLengthUniform(front, k);
    MulBound(b, n, p, k);
    if b < n - 1 {
      FlattenUniformAt(front, k, b, p);
      MulBound(b, n - 1, p, k);
    } else {
      assert b * k == (n - 1) * k;
    }
  }

  /** Absolute value on reals. */
  function Abs(x: real): real
  {
    if x < 0.0 then -x else x
  }
}
