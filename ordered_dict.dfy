/**
 * Python dictionaries with string keys, as far as `summerizer` uses them: item
 * assignment and iteration over `.items()` in insertion order.
 */
module OrderedDicts {

  /** The items of a dictionary in insertion order. */
  type Dict<V> = seq<(string, V)>

  ghost predicate HasKey<V>(d: Dict<V>, k: string) {
    exists i :: 0 <= i < |d| && d[i].0 == k
  }

  ghost predicate DistinctKeys<V>(d: Dict<V>) {
    forall i, j :: 0 <= i < j < |d| ==> d[i].0 != d[j].0
  }

  function IndexOf<V>(d: Dict<V>, k: string): (r: int)
    ensures -1 <= r < |d|
    ensures r >= 0 ==> d[r].0 == k
    ensures r < 0 <==> !HasKey(d, k)
  {
    if |d| == 0 then -1
    else if d[|d| - 1].0 == k then |d| - 1
    else IndexOf(d[..|d| - 1], k)
  }

  /**
   * `d[k] = v`: a key already present keeps its position and takes the new value;
   * a new key goes to the end.
   */
  function Put<V>(d: Dict<V>, k: string, v: V): (r: Dict<V>)
    ensures DistinctKeys(d) ==> DistinctKeys(r)
    ensures forall key :: HasKey(r, key) <==> HasKey(d, key) || key == k
    ensures |d| <= |r| <= |d| + 1
    ensures HasKey(d, k) ==> |r| == |d|
    ensures forall i :: 0 <= i < |d| ==> r[i] == if d[i].0 == k then (k, v) else d[i]
    ensures !HasKey(d, k) ==> r == d + [(k, v)]
    ensures forall i :: 0 <= i < |r| && r[i].0 == k ==> r[i].1 == v
  {
    if IndexOf(d, k) >= 0 then
      var r := seq(|d|, i requires 0 <= i < |d| => if d[i].0 == k then (k, v) else d[i]);
      assert forall i :: 0 <= i < |d| ==> r[i].0 == d[i].0;
      r
    else
      var r := d + [(k, v)];
      assert forall i :: 0 <= i < |d| ==> r[i] == d[i];
      assert r[|d|].0 == k;
      r
  }
}
