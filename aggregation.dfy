/**
 * Stage 2 result filtering and aggregation (`summerizer` after the gather):
 * valid outcomes are kept per category, keyed by file path, then copied into
 * the output lists with fresh, dense `file_id` values.
 */
module Aggregation {
  import opened Wrappers
  import opened Records
  import opened OrderedDicts

  /**
   * An outcome is kept when it is not an exception, its payload is present and truthy,
   * and its identifier is the item's own path.
   */
  predicate ValidFor(res: TaskResult, path: string) {
    res.Returned? && res.ret.result.Some? && Truthy(res.ret.result.value) && res.ret.identifier == Some(path)
  }

  /** Item `i` is the item `[p, c]` and its outcome is kept. */
  ghost predicate ValidAt(items: seq<WorkItem>, results: seq<TaskResult>, c: Category, p: string, i: int) {
    0 <= i < |items| && i < |results| && items[i] == WorkItem(p, c) && ValidFor(results[i], p)
  }

  /**
   * What `results_<c>` holds after the loop over the gathered outcomes: distinct paths,
   * exactly the paths with a kept outcome of category `c`, each holding the payload of
   * the last such outcome.
   */
  ghost predicate CollectedSpec(items: seq<WorkItem>, results: seq<TaskResult>, c: Category, d: Dict<Payload>) {
    && DistinctKeys(d)
    && (forall p :: HasKey(d, p) <==> exists i :: ValidAt(items, results, c, p, i))
    && (forall e :: 0 <= e < |d| ==> LastKept(items, results, c, d[e].0, d[e].1))
  }

  /** `v` is the payload of the last kept outcome of path `p` and category `c`. */
  ghost predicate LastKept(items: seq<WorkItem>, results: seq<TaskResult>, c: Category, p: string, v: Payload) {
    exists i ::
      && ValidAt(items, results, c, p, i)
      && results[i].ret.result.value == v
      && (forall j :: i < j < |items| ==> !ValidAt(items, results, c, p, j))
  }

  /** An outcome that is not kept leaves the dictionary as it was. */
  lemma CollectedSkipStep(items: seq<WorkItem>, results: seq<TaskResult>, c: Category, prev: Dict<Payload>)
    requires |items| == |results| > 0
    requires CollectedSpec(items[..|items| - 1], results[..|items| - 1], c, prev)
    requires !(items[|items| - 1].category == c && ValidFor(results[|items| - 1], items[|items| - 1].path))
    ensures CollectedSpec(items, results, c, prev)
  {
    var n := |items| - 1;
    assert forall p, i :: ValidAt(items[..n], results[..n], c, p, i) <==> i < n && ValidAt(items, results, c, p, i);
    assert forall p :: !ValidAt(items, results, c, p, n);
    forall p ensures HasKey(prev, p) <==> exists i :: ValidAt(items, results, c, p, i) {
      if i :| ValidAt(items, results, c, p, i) {
        assert ValidAt(items[..n], results[..n], c, p, i);
      }
    }
    forall e | 0 <= e < |prev|
      ensures LastKept(items, results, c, prev[e].0, prev[e].1)
    {
      assert LastKept(items[..n], results[..n], c, prev[e].0, prev[e].1);
      var i :| && ValidAt(items[..n], results[..n], c, prev[e].0, i)
               && results[..n][i].ret.result.value == prev[e].1
               && (forall j :: i < j < n ==> !ValidAt(items[..n], results[..n], c, prev[e].0, j));
      assert results[i] == results[..n][i];
      assert ValidAt(items, results, c, prev[e].0, i);
      assert forall j :: i < j < |items| ==> !ValidAt(items, results, c, prev[e].0, j);
    }
  }

  /** A kept outcome is stored under its path, replacing any earlier payload. */
  lemma CollectedPutStep(items: seq<WorkItem>, results: seq<TaskResult>, c: Category, prev: Dict<Payload>)
    requires |items| == |results| > 0
    requires CollectedSpec(items[..|items| - 1], results[..|items| - 1], c, prev)
    requires items[|items| - 1].category == c && ValidFor(results[|items| - 1], items[|items| - 1].path)
    ensures CollectedSpec(items, results, c, Put(prev, items[|items| - 1].path, results[|items| - 1].ret.result.value))
  {
    var n := |items| - 1;
    var p, v := items[n].path, results[n].ret.result.value;
    var d := Put(prev, p, v);
    assert forall q, i :: ValidAt(items[..n], results[..n], c, q, i) <==> i < n && ValidAt(items, results, c, q, i);
    assert ValidAt(items, results, c, p, n);
    forall e | 0 <= e < |d|
      ensures LastKept(items, results, c, d[e].0, d[e].1)
    {
      if d[e].0 == p {
        assert ValidAt(items, results, c, p, n) && results[n].ret.result.value == d[e].1;
      } else {
        assert e < |prev| && d[e] == prev[e];
      }
    }
  }

  /** `results_<c>` after the loop over the gathered outcomes. */
  function Collected(items: seq<WorkItem>, results: seq<TaskResult>, c: Category): (d: Dict<Payload>)
    requires |items| == |results|
    ensures CollectedSpec(items, results, c, d)
    decreases |items|
  {
    if |items| == 0 then []
    else
      var n := |items| - 1;
      var prev := Collected(items[..n], results[..n], c);
      assert items[..n] == items[..|items| - 1] && results[..n] == results[..|items| - 1];
      if items[n].category == c && ValidFor(results[n], items[n].path) then
        CollectedPutStep(items, results, c, prev);
        Put(prev, items[n].path, results[n].ret.result.value)
      else
        CollectedSkipStep(items, results, c, prev);
        prev
  }

  /** An outcome of the first `n` items is kept in the prefix exactly when it is kept in the whole. */
  lemma ValidAtPrefix(items: seq<WorkItem>, results: seq<TaskResult>, c: Category, p: string, i: int, n: nat)
    requires n <= |items| && n <= |results|
    ensures ValidAt(items[..n], results[..n], c, p, i) <==> i < n && ValidAt(items, results, c, p, i)
  {
  }

  /** `p` has a kept outcome before every kept outcome of `q`. */
  ghost predicate KeptBefore(items: seq<WorkItem>, results: seq<TaskResult>, c: Category, p: string, q: string) {
    exists i1 :: ValidAt(items, results, c, p, i1) && forall i2 :: ValidAt(items, results, c, q, i2) ==> i1 < i2
  }

  /** Order between two paths kept in the first `n` items survives one more item. */
  lemma KeptBeforeExtends(items: seq<WorkItem>, results: seq<TaskResult>, c: Category, p: string, q: string, n: nat)
    requires n + 1 == |items| == |results|
    requires KeptBefore(items[..n], results[..n], c, p, q)
    ensures KeptBefore(items, results, c, p, q)
  {
    var i1 :| ValidAt(items[..n], results[..n], c, p, i1)
      && forall i2 :: ValidAt(items[..n], results[..n], c, q, i2) ==> i1 < i2;
    ValidAtPrefix(items, results, c, p, i1, n);
    forall i2 | ValidAt(items, results, c, q, i2) ensures i1 < i2 {
      ValidAtPrefix(items, results, c, q, i2, n);
    }
  }

  /** A path kept in the first `n` items comes before a path first kept at item `n`. */
  lemma KeptBeforeNew(items: seq<WorkItem>, results: seq<TaskResult>, c: Category, p: string, q: string, n: nat)
    requires n + 1 == |items| == |results|
    requires exists i :: ValidAt(items[..n], results[..n], c, p, i)
    requires forall i :: !ValidAt(items[..n], results[..n], c, q, i)
    ensures KeptBefore(items, results, c, p, q)
  {
    var i1 :| ValidAt(items[..n], results[..n], c, p, i1);
    ValidAtPrefix(items, results, c, p, i1, n);
    forall i2 | ValidAt(items, results, c, q, i2) ensures i1 < i2 {
      ValidAtPrefix(items, results, c, q, i2, n);
    }
  }

  /**
   * The keys of `results_<c>` are in order of first kept outcome: the path at position `e1`
   * has a kept outcome before every kept outcome of the path at a later position `e2`.
   */
  lemma {:induction false} CollectedOrder(items: seq<WorkItem>, results: seq<TaskResult>, c: Category, e1: nat, e2: nat)
    requires |items| == |results|
    requires e1 < e2 < |Collected(items, results, c)|
    ensures KeptBefore(items, results, c, Collected(items, results, c)[e1].0, Collected(items, results, c)[e2].0)
    decreases |items|
  {
    if |items| == 0 {
      assert false;
    } else {
      var n := |items| - 1;
      var d := Collected(items, results, c);
      var prev := Collected(items[..n], results[..n], c);
      CollectedSnoc(items, results, c, n);
      assert items[..n + 1] == items && results[..n + 1] == results;
      var p := items[n].path;
      if e2 < |prev| {
        assert d[e1].0 == prev[e1].0 && d[e2].0 == prev[e2].0;
        CollectedOrder(items[..n], results[..n], c, e1, e2);
        KeptBeforeExtends(items, results, c, prev[e1].0, prev[e2].0, n);
      } else {
        // Only a new key can sit past the keys of `prev`: it is `p`, first kept at `n`.
        assert d == prev + [(p, results[n].ret.result.value)] && !HasKey(prev, p);
        assert d[e1] == prev[e1] && d[e2].0 == p;
        assert HasKey(prev, prev[e1].0);
        KeptBeforeNew(items, results, c, prev[e1].0, p, n);
      }
    }
  }

  /**
   * One output list: for each kept path in insertion order whose record index is known,
   * a copy of that record with the payload attached and `file_id` set to the list's
   * current length.
   */
  function Bucket(entries: Dict<Payload>, classified: seq<Record>, idx: map<string, nat>, c: Category): (out: seq<Record>)
    requires forall p :: p in idx ==> idx[p] < |classified|
    ensures |out| <= |entries|
    ensures forall k :: 0 <= k < |out| ==> out[k].fileId == k
    decreases |entries|
  {
    if |entries| == 0 then []
    else
      var prev := Bucket(entries[..|entries| - 1], classified, idx, c);
      var (p, v) := entries[|entries| - 1];
      if p in idx then prev + [Enrich(classified[idx[p]], v, |prev|, c)] else prev
  }

  /** When every kept path has a record, the output list holds one copy per kept path, in order. */
  lemma {:induction false} BucketResolved(entries: Dict<Payload>, classified: seq<Record>, idx: map<string, nat>, c: Category)
    requires forall p :: p in idx ==> idx[p] < |classified|
    requires forall e :: 0 <= e < |entries| ==> entries[e].0 in idx
    ensures |Bucket(entries, classified, idx, c)| == |entries|
    ensures forall k :: 0 <= k < |entries| ==>
      Bucket(entries, classified, idx, c)[k] == Enrich(classified[idx[entries[k].0]], entries[k].1, k, c)
    decreases |entries|
  {
    if |entries| > 0 {
      BucketResolved(entries[..|entries| - 1], classified, idx, c);
    }
  }

  /** Every kept path has a record index when every item's path has one. */
  lemma {:induction false} CollectedResolved(items: seq<WorkItem>, results: seq<TaskResult>, idx: map<string, nat>, c: Category)
    requires |items| == |results|
    requires forall i :: 0 <= i < |items| ==> items[i].path in idx
    ensures forall e :: 0 <= e < |Collected(items, results, c)| ==> Collected(items, results, c)[e].0 in idx
  {
    var entries := Collected(items, results, c);
    forall e | 0 <= e < |entries| ensures entries[e].0 in idx {
      var i :| ValidAt(items, results, c, entries[e].0, i);
    }
  }

  /**
   * An output list built from the kept outcomes, when every item's path has a record:
   * entry `k` copies the record of its path with the payload of the last kept outcome of
   * that path.
   */
  lemma {:induction false} BucketOfCollected(items: seq<WorkItem>, results: seq<TaskResult>, classified: seq<Record>,
                                             idx: map<string, nat>, c: Category, out: seq<Record>)
    requires |items| == |results|
    requires forall p :: p in idx ==> idx[p] < |classified| && classified[idx[p]].filePath == p
    requires forall i :: 0 <= i < |items| ==> items[i].path in idx
    requires out == Bucket(Collected(items, results, c), classified, idx, c)
    ensures forall k :: 0 <= k < |out| ==>
        && out[k].filePath in idx
        && exists v :: LastKept(items, results, c, out[k].filePath, v)
                       && out[k] == Enrich(classified[idx[out[k].filePath]], v, k, c)
  {
    var entries := Collected(items, results, c);
    CollectedResolved(items, results, idx, c);
    BucketResolved(entries, classified, idx, c);
    forall k | 0 <= k < |out|
      ensures out[k].filePath in idx
      ensures exists v :: LastKept(items, results, c, out[k].filePath, v)
                          && out[k] == Enrich(classified[idx[out[k].filePath]], v, k, c)
    {
      assert LastKept(items, results, c, entries[k].0, entries[k].1);
      assert out[k] == Enrich(classified[idx[entries[k].0]], entries[k].1, k, c);
    }
  }

  /**
   * An output list follows the order of first kept outcomes, when every item's path has a
   * record: the path of entry `k1` was kept before any outcome of the path of a later entry.
   */
  lemma BucketOrder(items: seq<WorkItem>, results: seq<TaskResult>, classified: seq<Record>,
                    idx: map<string, nat>, c: Category, out: seq<Record>)
    requires |items| == |results|
    requires forall p :: p in idx ==> idx[p] < |classified| && classified[idx[p]].filePath == p
    requires forall i :: 0 <= i < |items| ==> items[i].path in idx
    requires out == Bucket(Collected(items, results, c), classified, idx, c)
    ensures forall k1, k2 :: 0 <= k1 < k2 < |out| ==> KeptBefore(items, results, c, out[k1].filePath, out[k2].filePath)
  {
    var entries := Collected(items, results, c);
    CollectedResolved(items, results, idx, c);
    BucketResolved(entries, classified, idx, c);
    forall k1, k2 | 0 <= k1 < k2 < |out|
      ensures KeptBefore(items, results, c, out[k1].filePath, out[k2].filePath)
    {
      assert out[k1].filePath == entries[k1].0 && out[k2].filePath == entries[k2].0;
      CollectedOrder(items, results, c, k1, k2);
    }
  }

  /** Every kept outcome has an entry with its path in the output list, when every item's path has a record. */
  lemma {:induction false} BucketCoversCollected(items: seq<WorkItem>, results: seq<TaskResult>, classified: seq<Record>,
                                                 idx: map<string, nat>, c: Category, out: seq<Record>)
    requires |items| == |results|
    requires forall p :: p in idx ==> idx[p] < |classified| && classified[idx[p]].filePath == p
    requires forall i :: 0 <= i < |items| ==> items[i].path in idx
    requires out == Bucket(Collected(items, results, c), classified, idx, c)
    ensures forall i :: 0 <= i < |items| && ValidAt(items, results, c, items[i].path, i) ==>
      exists k :: 0 <= k < |out| && out[k].filePath == items[i].path
  {
    var entries := Collected(items, results, c);
    CollectedResolved(items, results, idx, c);
    BucketResolved(entries, classified, idx, c);
    forall i | 0 <= i < |items| && ValidAt(items, results, c, items[i].path, i)
      ensures exists k :: 0 <= k < |out| && out[k].filePath == items[i].path
    {
      assert HasKey(entries, items[i].path);
      var e :| 0 <= e < |entries| && entries[e].0 == items[i].path;
      assert out[e] == Enrich(classified[idx[entries[e].0]], entries[e].1, e, c);
    }
  }

  /** One more outcome: `results_<c>` either takes it under its path or stays as it was. */
  lemma CollectedSnoc(items: seq<WorkItem>, results: seq<TaskResult>, c: Category, i: nat)
    requires |items| == |results| && i < |items|
    ensures Collected(items[..i + 1], results[..i + 1], c) ==
      if items[i].category == c && ValidFor(results[i], items[i].path)
      then Put(Collected(items[..i], results[..i], c), items[i].path, results[i].ret.result.value)
      else Collected(items[..i], results[..i], c)
  {
    assert items[..i + 1][..i] == items[..i] && results[..i + 1][..i] == results[..i];
  }

  /** The loop over the gathered outcomes, filling the three result dictionaries. */
  method CollectResults(items: seq<WorkItem>, results: seq<TaskResult>)
    returns (docstring: Dict<Payload>, documentation: Dict<Payload>, config: Dict<Payload>)
    requires |items| == |results|
    ensures docstring == Collected(items, results, Docstring)
    ensures documentation == Collected(items, results, Documentation)
    ensures config == Collected(items, results, Config)
  {
    docstring, documentation, config := [], [], [];
    var i := 0;
    while i < |results|
      invariant 0 <= i <= |results|
      invariant docstring == Collected(items[..i], results[..i], Docstring)
      invariant documentation == Collected(items[..i], results[..i], Documentation)
      invariant config == Collected(items[..i], results[..i], Config)
    {
      CollectedSnoc(items, results, Docstring, i);
      CollectedSnoc(items, results, Documentation, i);
      CollectedSnoc(items, results, Config, i);
      var WorkItem(filePath, category) := items[i];
      var result := results[i];
      if result.Returned? {
        var BatchReturn(processed, identifier) := result.ret;
        if processed.Some? && processed.value != map[] && identifier == Some(filePath) {
          match category {
            case Docstring => docstring := Put(docstring, filePath, processed.value);
            case Documentation => documentation := Put(documentation, filePath, processed.value);
            case Config => config := Put(config, filePath, processed.value);
          }
        }
      }
      i := i + 1;
    }
    assert items[..|items|] == items && results[..|results|] == results;
  }

  /**
   * One of the three output loops: copy the record of each kept path, attach the payload,
   * give it the next `file_id` and append it. The ids are `0 .. k-1` in append order.
   */
  method BuildBucket(entries: Dict<Payload>, classified: seq<Record>, originalIndices: map<string, nat>, c: Category)
    returns (out: seq<Record>)
    requires forall p :: p in originalIndices ==> originalIndices[p] < |classified|
    ensures out == Bucket(entries, classified, originalIndices, c)
    ensures forall k :: 0 <= k < |out| ==> out[k].fileId == k
  {
    out := [];
    var e := 0;
    while e < |entries|
      invariant 0 <= e <= |entries|
      invariant out == Bucket(entries[..e], classified, originalIndices, c)
    {
      assert entries[..e + 1][..e] == entries[..e];
      var (filePath, result) := entries[e];
      if filePath in originalIndices {
        var fileData := Enrich(classified[originalIndices[filePath]], result, |out|, c);
        out := out + [fileData];
      }
      e := e + 1;
    }
    assert entries[..|entries|] == entries;
  }
}
