/**
 * `gather_provider_responses` (src/main.py): every registered provider is
 * asked in turn and its answer, or `None` when it raised, is stored under the
 * provider's `name`. The outcome of each provider's call is an input.
 */
module Collector {
  import opened Wrappers
  import opened Errors
  import opened Responses
  import opened ProviderBase
  import opened OrderedMaps

  /** The registry: `(key, provider)` pairs in dictionary order. */
  type Registry = seq<(string, Provider)>

  /** The collected responses: provider name to the response, or `None` on failure. */
  type Collected = Entries<Option<Response>>

  /** The trace the collector prints for each provider, in calling order. */
  datatype CollectEvent = Answered(name: string, answer: string) | ProviderFailed(name: string, error: Error)

  function Report(name: string, outcome: Result<Response, Error>): CollectEvent
  {
    match outcome
    case Success(resp) => Answered(name, resp.answer)
    case Failure(e) => ProviderFailed(name, e)
  }

  /** The mapping after the first `|registry|` providers have been called. */
  function Collect(registry: Registry, outcomes: seq<Result<Response, Error>>): Collected
    requires |outcomes| == |registry|
    decreases |registry|
  {
    if registry == [] then []
    else
      var n := |registry| - 1;
      Put(Collect(registry[..n], outcomes[..n]), registry[n].1.name, outcomes[n].ToOption())
  }

  /**
   * The loop: provider `i` is called once, in registry order, with
   * `outcomes[i]` the result of its call; a failure never stops the loop.
   */
  method Gather(registry: Registry, outcomes: seq<Result<Response, Error>>)
    returns (responses: Collected, trace: seq<CollectEvent>)
    requires |outcomes| == |registry|
    ensures responses == Collect(registry, outcomes)
    ensures |trace| == |registry|
    ensures forall i :: 0 <= i < |registry| ==> trace[i] == Report(registry[i].1.name, outcomes[i])
  {
    responses, trace := [], [];
    var i := 0;
    while i < |registry|
      invariant 0 <= i <= |registry|
      invariant responses == Collect(registry[..i], outcomes[..i])
      invariant |trace| == i
      invariant forall j :: 0 <= j < i ==> trace[j] == Report(registry[j].1.name, outcomes[j])
    {
      var provider := registry[i].1;
      match outcomes[i] {
        case Success(resp) =>
          responses := Put(responses, provider.name, Some(resp));
        case Failure(_) =>
          responses := Put(responses, provider.name, None);
      }
      trace := trace + [Report(provider.name, outcomes[i])];
      assert registry[..i + 1][..i] == registry[..i];
      assert outcomes[..i + 1][..i] == outcomes[..i];
      i := i + 1;
    }
    assert registry[..i] == registry;
    assert outcomes[..i] == outcomes;
  }

  /** Some registered provider carries the name `k`. */
  predicate HasName(registry: Registry, k: string)
  {
    exists i :: 0 <= i < |registry| && registry[i].1.name == k
  }

  lemma HasNameLast(registry: Registry, k: string)
    requires registry != []
    ensures var n := |registry| - 1;
      HasName(registry, k) <==> HasName(registry[..n], k) || registry[n].1.name == k
  {
    var n := |registry| - 1;
    if HasName(registry, k) && registry[n].1.name != k {
      var i :| 0 <= i < |registry| && registry[i].1.name == k;
      assert registry[..n][i] == registry[i];
    }
    if HasName(registry[..n], k) {
      var i :| 0 <= i < n && registry[..n][i].1.name == k;
      assert registry[i] == registry[..n][i];
    }
  }

  /** One entry per distinct provider name: the keys are exactly the names, each once. */
  lemma {:induction false} CollectKeys(registry: Registry, outcomes: seq<Result<Response, Error>>)
    requires |outcomes| == |registry|
    ensures DistinctKeys(Collect(registry, outcomes))
    ensures forall k :: k in Keys(Collect(registry, outcomes)) <==> HasName(registry, k)
    decreases |registry|
  {
    if registry != [] {
      var n := |registry| - 1;
      var name, value := registry[n].1.name, outcomes[n].ToOption();
      var before := Collect(registry[..n], outcomes[..n]);
      assert Collect(registry, outcomes) == Put(before, name, value);
      CollectKeys(registry[..n], outcomes[..n]);
      PutKeys(before, name, value);
      PutDistinct(before, name, value);
      forall k ensures k in Keys(Collect(registry, outcomes)) <==> HasName(registry, k) {
        HasNameLast(registry, k);
      }
    }
  }

  /**
   * The value stored under a name is the outcome of the last provider with
   * that name: its `Response` when it answered, `None` when it raised.
   */
  lemma {:induction false} CollectLastWins(registry: Registry, outcomes: seq<Result<Response, Error>>, i: nat)
    requires |outcomes| == |registry| && i < |registry|
    requires forall j :: i < j < |registry| ==> registry[j].1.name != registry[i].1.name
    ensures Get(Collect(registry, outcomes), registry[i].1.name) == Some(outcomes[i].ToOption())
    decreases |registry|
  {
    var n := |registry| - 1;
    var name, value := registry[n].1.name, outcomes[n].ToOption();
    var before := Collect(registry[..n], outcomes[..n]);
    assert Collect(registry, outcomes) == Put(before, name, value);
    PutGet(before, name, value, registry[i].1.name);
    if i < n {
      assert registry[..n][i] == registry[i] && outcomes[..n][i] == outcomes[i];
      forall j | i < j < n ensures registry[..n][j].1.name != registry[..n][i].1.name {
        assert registry[..n][j] == registry[j];
      }
      CollectLastWins(registry[..n], outcomes[..n], i);
    }
  }

  /** A name no provider carries has no entry. */
  lemma {:induction false} CollectUnknownName(registry: Registry, outcomes: seq<Result<Response, Error>>, k: string)
    requires |outcomes| == |registry|
    requires forall j :: 0 <= j < |registry| ==> registry[j].1.name != k
    ensures Get(Collect(registry, outcomes), k) == None
  {
    CollectKeys(registry, outcomes);
  }

  /**
   * With distinct provider names, as in the program's registry, entry `i` is
   * provider `i`'s name with its outcome, in registry order.
   */
  lemma {:induction false} CollectDistinctNames(registry: Registry, outcomes: seq<Result<Response, Error>>)
    requires |outcomes| == |registry|
    requires forall i, j :: 0 <= i < j < |registry| ==> registry[i].1.name != registry[j].1.name
    ensures var c := Collect(registry, outcomes);
      |c| == |registry| && forall i :: 0 <= i < |registry| ==> c[i] == (registry[i].1.name, outcomes[i].ToOption())
    decreases |registry|
  {
    if registry != [] {
      var n := |registry| - 1;
      var before := Collect(registry[..n], outcomes[..n]);
      CollectDistinctNames(registry[..n], outcomes[..n]);
      CollectKeys(registry[..n], outcomes[..n]);
      PutNew(before, registry[n].1.name, outcomes[n].ToOption());
    }
  }
}
