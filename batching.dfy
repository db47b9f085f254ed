/**
 * Stage 1 batch splitting (`ClassifierNode.llmclassifier`): the list of file
 * names is cut into consecutive slices of `batch_size` names.
 */
module Batching {
  import opened Wrappers

  /** Concatenation of a list of lists, appending one list at a time (`list.extend`). */
  function Concat<T>(ss: seq<seq<T>>): seq<T> {
    if |ss| == 0 then [] else Concat(ss[..|ss| - 1]) + ss[|ss| - 1]
  }

  lemma {:induction false} ConcatCons<T>(x: seq<T>, ss: seq<seq<T>>)
    ensures Concat([x] + ss) == x + Concat(ss)
    decreases |ss|
  {
    if |ss| == 0 {
      assert ([x] + ss)[..0] == [];
    } else {
      assert ([x] + ss)[..|ss|] == [x] + ss[..|ss| - 1];
      ConcatCons(x, ss[..|ss| - 1]);
    }
  }

  /** Element `j` of list `b` sits in the concatenation right after the lists before `b`. */
  lemma {:induction false} ConcatIndex<T>(ss: seq<seq<T>>, b: nat, j: nat)
    requires b < |ss| && j < |ss[b]|
    ensures |Concat(ss[..b])| + j < |Concat(ss)|
    ensures Concat(ss)[|Concat(ss[..b])| + j] == ss[b][j]
    decreases |ss|
  {
    var n := |ss| - 1;
    assert ss[..n + 1] == ss;
    if b < n {
      assert ss[..n][..b] == ss[..b];
      ConcatIndex(ss[..n], b, j);
    }
  }

  /** `[s[i:i + size] for i in range(start, len(s), size)]`; Python slices stop at the end of `s`. */
  function BatchesFrom<T>(s: seq<T>, size: nat, start: nat): seq<seq<T>>
    requires size > 0
    decreases |s| - start
  {
    if start >= |s| then [] else [s[start..Min(|s|, start + size)]] + BatchesFrom(s, size, start + size)
  }

  function Batches<T>(s: seq<T>, size: nat): seq<seq<T>>
    requires size > 0
  {
    BatchesFrom(s, size, 0)
  }

  /**
   * The batches of a `range(0, len(s), batch_size)` comprehension: a zero step makes
   * `range` raise, a negative step gives an empty range.
   */
  function MakeBatches<T>(s: seq<T>, batchSize: int): (r: Option<seq<seq<T>>>)
    ensures r.None? <==> batchSize == 0
    ensures batchSize < 0 ==> r == Some([])
    ensures batchSize > 0 ==> r == Some(Batches(s, batchSize)) && Concat(r.value) == s
  {
    if batchSize == 0 then None
    else if batchSize < 0 then Some([])
    else
      BatchesRoundTrip(s, batchSize);
      Some(Batches(s, batchSize))
  }

  lemma {:induction false} BatchesFromRoundTrip<T>(s: seq<T>, size: nat, start: nat)
    requires size > 0 && start <= |s|
    ensures Concat(BatchesFrom(s, size, start)) == s[start..]
    decreases |s| - start
  {
    if start < |s| {
      var next := Min(|s|, start + size);
      if start + size < |s| {
        BatchesFromRoundTrip(s, size, start + size);
      } else {
        assert BatchesFrom(s, size, start + size) == [];
      }
      ConcatCons(s[start..next], BatchesFrom(s, size, start + size));
      assert s[start..] == s[start..next] + s[next..];
    }
  }

  /** Concatenating the batches gives back the list of names, in order. */
  lemma BatchesRoundTrip<T>(s: seq<T>, size: nat)
    requires size > 0
    ensures Concat(Batches(s, size)) == s
  {
    BatchesFromRoundTrip(s, size, 0);
  }

  lemma {:induction false} BatchesFromShape<T>(s: seq<T>, size: nat, start: nat)
    requires size > 0 && start <= |s|
    ensures forall b :: 0 <= b < |BatchesFrom(s, size, start)| ==> 0 < |BatchesFrom(s, size, start)[b]| <= size
    ensures forall b :: 0 <= b < |BatchesFrom(s, size, start)| - 1 ==> |BatchesFrom(s, size, start)[b]| == size
    decreases |s| - start
  {
    if start < |s| {
      var rest := BatchesFrom(s, size, start + size);
      var bs := BatchesFrom(s, size, start);
      assert bs == [s[start..Min(|s|, start + size)]] + rest;
      if start + size < |s| {
        BatchesFromShape(s, size, start + size);
        forall b | 1 <= b < |bs| ensures bs[b] == rest[b - 1] { }
      } else {
        assert rest == [];
      }
    }
  }

  /** Every batch is non-empty and holds at most `size` names; only the last one may be shorter. */
  lemma BatchesShape<T>(s: seq<T>, size: nat)
    requires size > 0
    ensures forall b :: 0 <= b < |Batches(s, size)| ==> 0 < |Batches(s, size)[b]| <= size
    ensures forall b :: 0 <= b < |Batches(s, size)| - 1 ==> |Batches(s, size)[b]| == size
  {
    BatchesFromShape(s, size, 0);
  }

  /** `c` is the ceiling of `n / size`: the fewest lists of `size` elements that can hold `n`. */
  ghost predicate IsCeilDiv(c: nat, n: nat, size: nat) {
    n <= c * size && (c == 0 || (c - 1) * size < n)
  }

  lemma {:induction false} BatchesFromCount<T>(s: seq<T>, size: nat, start: nat)
    requires size > 0 && start <= |s|
    ensures IsCeilDiv(|BatchesFrom(s, size, start)|, |s| - start, size)
    decreases |s| - start
  {
    if start < |s| {
      var c := |BatchesFrom(s, size, start)|;
      if start + size < |s| {
        BatchesFromCount(s, size, start + size);
        assert c * size == (c - 1) * size + size;
        assert (c - 1) * size == (c - 2) * size + size;
      } else {
        assert BatchesFrom(s, size, start + size) == [];
      }
    }
  }

  /** There are `ceil(len(s) / size)` batches. */
  lemma BatchesCount<T>(s: seq<T>, size: nat)
    requires size > 0
    ensures IsCeilDiv(|Batches(s, size)|, |s|, size)
  {
    BatchesFromCount(s, size, 0);
  }
}
