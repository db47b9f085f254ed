/**
 * The endpoint pool: which (client, model) pairs serve a work item and in
 * which order. Stage 1 spreads batches over a pool of three, Stage 2 over a
 * pool of four with the other three slots as fallbacks.
 */
module EndpointPool {
  import opened Wrappers
  import opened Records

  const Stage1PoolSize: nat := 3
  const Stage2PoolSize: nat := 4
  /** `max_attempts` of the Stage 2 retry loop: one primary and three fallbacks. */
  const MaxAttempts: nat := 4

  /** Stage 1: the pool slot of batch `i`, round-robin over the three slots. */
  function Stage1Slot(i: nat): (k: nat)
    ensures k < Stage1PoolSize
  {
    i % Stage1PoolSize
  }

  /** Stage 1: batch `i` is sent to `clients[i % 3]` with `model_names[i % 3]`. */
  function Stage1Endpoint(i: nat, clients: seq<ClientHandle>, modelNames: seq<string>): (c: Candidate)
    requires |clients| == Stage1PoolSize && |modelNames| == Stage1PoolSize
    ensures c.client == clients[Stage1Slot(i)] && c.model == modelNames[Stage1Slot(i)]
  {
    Candidate(clients[Stage1Slot(i)], modelNames[Stage1Slot(i)])
  }

  /** Number of batches among the first `n` that Stage 1 sends to slot `k`. */
  function SlotLoad(n: nat, k: nat): nat {
    if n == 0 then 0 else SlotLoad(n - 1, k) + (if Stage1Slot(n - 1) == k then 1 else 0)
  }

  lemma {:induction false} SlotLoadExact(n: nat, k: nat)
    requires k < Stage1PoolSize
    ensures SlotLoad(n, k) == n / Stage1PoolSize + (if k < n % Stage1PoolSize then 1 else 0)
  {
    if n > 0 {
      SlotLoadExact(n - 1, k);
    }
  }

  /** Round-robin spreads the batches evenly: two slots' loads never differ by more than one. */
  lemma Stage1Balanced(n: nat, k1: nat, k2: nat)
    requires k1 < Stage1PoolSize && k2 < Stage1PoolSize
    ensures SlotLoad(n, k1) <= SlotLoad(n, k2) + 1
  {
    SlotLoadExact(n, k1);
    SlotLoadExact(n, k2);
  }

  /** `[j for j in range(lo, n) if j != primary]`. */
  function RangeExcept(lo: nat, n: nat, primary: nat): (r: seq<nat>)
    ensures |r| == (if lo < n then n - lo else 0) - (if lo <= primary < n then 1 else 0)
    decreases n - lo
  {
    if lo >= n then []
    else if lo == primary then RangeExcept(lo + 1, n, primary)
    else [lo] + RangeExcept(lo + 1, n, primary)
  }

  /** The filtered range holds every number of `lo .. n-1` but `primary`, once each, ascending. */
  lemma {:induction false} RangeExceptSpec(lo: nat, n: nat, primary: nat)
    ensures forall j :: 0 <= j < |RangeExcept(lo, n, primary)| ==>
      lo <= RangeExcept(lo, n, primary)[j] < n && RangeExcept(lo, n, primary)[j] != primary
    ensures forall j, k :: 0 <= j < k < |RangeExcept(lo, n, primary)| ==>
      RangeExcept(lo, n, primary)[j] < RangeExcept(lo, n, primary)[k]
    ensures forall s :: lo <= s < n && s != primary ==> s in RangeExcept(lo, n, primary)
    decreases n - lo
  {
    if lo < n {
      RangeExceptSpec(lo + 1, n, primary);
      var rest := RangeExcept(lo + 1, n, primary);
      if lo == primary {
        assert RangeExcept(lo, n, primary) == rest;
      } else {
        var r := [lo] + rest;
        assert RangeExcept(lo, n, primary) == r;
        assert forall j :: 1 <= j < |r| ==> r[j] == rest[j - 1];
        assert forall s :: lo < s < n && s != primary ==> s in rest;
      }
    }
  }

  /** The fallback slots of `primary` in a pool of `n`: every other slot, in pool order. */
  function FallbackSlots(primary: nat, n: nat): (r: seq<nat>)
    ensures |r| == if primary < n then n - 1 else n
  {
    RangeExcept(0, n, primary)
  }

  /** The fallbacks of `primary` are every other slot of the pool, each once, ascending. */
  lemma FallbackSlotsSpec(primary: nat, n: nat)
    ensures var r := FallbackSlots(primary, n);
      && (forall j :: 0 <= j < |r| ==> r[j] < n && r[j] != primary)
      && (forall j, k :: 0 <= j < k < |r| ==> r[j] < r[k])
      && (forall s :: 0 <= s < n && s != primary ==> s in r)
  {
    RangeExceptSpec(0, n, primary);
    assert FallbackSlots(primary, n) == RangeExcept(0, n, primary);
  }

  /** `list(zip(clients, model_names))`: pairs up to the shorter list. */
  function Zip(clients: seq<ClientHandle>, modelNames: seq<string>): (r: seq<Candidate>)
    ensures |r| == Min(|clients|, |modelNames|)
  {
    seq(Min(|clients|, |modelNames|), j requires 0 <= j < Min(|clients|, |modelNames|) => Candidate(clients[j], modelNames[j]))
  }

  /**
   * `clients_to_try`: the primary followed by the zipped fallbacks, cut to `max_attempts`.
   * A missing fallback list is the empty list.
   */
  function ClientsToTry(primary: Candidate, fallbackClients: seq<ClientHandle>, fallbackModels: seq<string>): (r: seq<Candidate>)
    ensures |r| == Min(MaxAttempts, 1 + Min(|fallbackClients|, |fallbackModels|))
  {
    var all := [primary] + Zip(fallbackClients, fallbackModels);
    all[..Min(MaxAttempts, |all|)]
  }

  /** The candidate list starts with the primary and goes on with the fallback pairs, position by position. */
  lemma ClientsToTrySpec(primary: Candidate, fallbackClients: seq<ClientHandle>, fallbackModels: seq<string>)
    ensures var r := ClientsToTry(primary, fallbackClients, fallbackModels);
      && r[0] == primary
      && forall j :: 1 <= j < |r| ==> r[j] == Candidate(fallbackClients[j - 1], fallbackModels[j - 1])
  {
    var zipped := Zip(fallbackClients, fallbackModels);
    var all := [primary] + zipped;
    assert forall j :: 1 <= j < |all| ==> all[j] == zipped[j - 1];
  }

  /** The order in which Stage 2 tries the pool for item `i`: `i % 4` first, then the others ascending. */
  function SlotOrder(i: nat): seq<nat> {
    [i % Stage2PoolSize] + FallbackSlots(i % Stage2PoolSize, Stage2PoolSize)
  }

  /** `[xs[j] for j in slots]`. */
  function Pick<T>(xs: seq<T>, slots: seq<nat>): (r: seq<T>)
    requires forall j :: 0 <= j < |slots| ==> slots[j] < |xs|
    ensures |r| == |slots| && forall j :: 0 <= j < |slots| ==> r[j] == xs[slots[j]]
  {
    seq(|slots|, j requires 0 <= j < |slots| => xs[slots[j]])
  }

  /** Stage 2: the candidates of item `i`, built as `summerizer` builds them and cut as `process_batch` cuts them. */
  function Stage2Candidates(i: nat, clients: seq<ClientHandle>, modelNames: seq<string>): seq<Candidate>
    requires |clients| == Stage2PoolSize && |modelNames| == Stage2PoolSize
  {
    var p := i % Stage2PoolSize;
    var fallback := FallbackSlots(p, Stage2PoolSize);
    FallbackSlotsSpec(p, Stage2PoolSize);
    ClientsToTry(Candidate(clients[p], modelNames[p]), Pick(clients, fallback), Pick(modelNames, fallback))
  }

  /**
   * The slot order of item `i` is a permutation of the four pool slots with the
   * primary `i % 4` first and the fallbacks ascending.
   */
  lemma SlotOrderIsPermutation(i: nat)
    ensures |SlotOrder(i)| == Stage2PoolSize
    ensures SlotOrder(i)[0] == i % Stage2PoolSize
    ensures forall s :: 0 <= s < Stage2PoolSize <==> s in SlotOrder(i)
    ensures forall j, k :: 0 <= j < k < Stage2PoolSize ==> SlotOrder(i)[j] != SlotOrder(i)[k]
    ensures forall j, k :: 1 <= j < k < Stage2PoolSize ==> SlotOrder(i)[j] < SlotOrder(i)[k]
  {
    var order := SlotOrder(i);
    var fallback := FallbackSlots(i % Stage2PoolSize, Stage2PoolSize);
    FallbackSlotsSpec(i % Stage2PoolSize, Stage2PoolSize);
    assert forall j :: 1 <= j < |order| ==> order[j] == fallback[j - 1];
  }

  /**
   * Item `i` is offered every pool slot exactly once, in slot order: truncation to
   * `max_attempts` drops none of them and each client is paired with its own model name.
   */
  lemma Stage2CandidatesFollowSlotOrder(i: nat, clients: seq<ClientHandle>, modelNames: seq<string>)
    requires |clients| == Stage2PoolSize && |modelNames| == Stage2PoolSize
    ensures |Stage2Candidates(i, clients, modelNames)| == Stage2PoolSize
    ensures forall k :: 0 <= k < Stage2PoolSize ==>
      Stage2Candidates(i, clients, modelNames)[k] == Candidate(clients[SlotOrder(i)[k]], modelNames[SlotOrder(i)[k]])
  {
    var cands := Stage2Candidates(i, clients, modelNames);
    var order := SlotOrder(i);
    SlotOrderIsPermutation(i);
    FallbackSlotsSpec(i % Stage2PoolSize, Stage2PoolSize);
    var p := i % Stage2PoolSize;
    ClientsToTrySpec(Candidate(clients[p], modelNames[p]), Pick(clients, FallbackSlots(p, Stage2PoolSize)),
                     Pick(modelNames, FallbackSlots(p, Stage2PoolSize)));
    assert forall k :: 1 <= k < Stage2PoolSize ==> order[k] == FallbackSlots(i % Stage2PoolSize, Stage2PoolSize)[k - 1];
  }
}
