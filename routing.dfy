/** Choosing which engine answers a channel autocompletion (AutocompleteInTeam). */
module AutocompleteRouting {
  import opened ChannelModel
  import opened ResultResolution

  /** An engine serves a query when its autocompletion is enabled and its answer,
      resolved into channels, is not an error (an empty list is a success). */
  predicate Serves(engine: Engine, store: PrimaryStore, q: AutocompleteQuery) {
    engine.autocompletionEnabled && EsAutocomplete(engine, store, q).Ok?
  }

  /** The position, at or after `from`, of the first engine that serves the query. */
  function FirstServing(engines: seq<Engine>, store: PrimaryStore, q: AutocompleteQuery, from: nat): (w: Option<nat>)
    requires from <= |engines|
    ensures w.Some? ==>
              from <= w.value < |engines| && Serves(engines[w.value], store, q) &&
              forall j :: from <= j < w.value ==> !Serves(engines[j], store, q)
    ensures w.None? <==> forall j :: from <= j < |engines| ==> !Serves(engines[j], store, q)
    decreases |engines| - from
  {
    if from == |engines| then None
    else if Serves(engines[from], store, q) then Some(from)
    else FirstServing(engines, store, q, from + 1)
  }

  /** The engine at `k` serves and no engine before it does: it is the first. */
  lemma FirstServingAt(engines: seq<Engine>, store: PrimaryStore, q: AutocompleteQuery, k: nat)
    requires k < |engines| && Serves(engines[k], store, q)
    requires forall j :: 0 <= j < k ==> !Serves(engines[j], store, q)
    ensures FirstServing(engines, store, q, 0) == Some(k)
  {
  }

  /** What AutocompleteInTeam answers: the first serving engine's channels, or the
      store's native autocompletion when no engine serves. */
  function RouteAutocomplete(engines: seq<Engine>, store: PrimaryStore, q: AutocompleteQuery): (r: Result<seq<Channel>>)
    ensures r.Err? ==>
              (forall j :: 0 <= j < |engines| ==> !Serves(engines[j], store, q)) &&
              r == store.autocompleteInTeam(q.teamId, q.term, q.includeDeleted)
  {
    match FirstServing(engines, store, q, 0)
    case Some(k) => EsAutocomplete(engines[k], store, q)
    case None => store.autocompleteInTeam(q.teamId, q.term, q.includeDeleted)
  }

  /** Engines without autocompletion are skipped: with none enabled, the store's
      native autocompletion answers. */
  lemma NoEligibleEngineFallsBack(engines: seq<Engine>, store: PrimaryStore, q: AutocompleteQuery)
    requires forall j :: 0 <= j < |engines| ==> !engines[j].autocompletionEnabled
    ensures RouteAutocomplete(engines, store, q) == store.autocompleteInTeam(q.teamId, q.term, q.includeDeleted)
  {
  }

  /** When every enabled engine errors, the store's native autocompletion answers. */
  lemma AllEnginesFailFallsBack(engines: seq<Engine>, store: PrimaryStore, q: AutocompleteQuery)
    requires forall j :: 0 <= j < |engines| && engines[j].autocompletionEnabled ==>
               EsAutocomplete(engines[j], store, q).Err?
    ensures RouteAutocomplete(engines, store, q) == store.autocompleteInTeam(q.teamId, q.term, q.includeDeleted)
  {
  }

  /** Once an engine serves, no later engine is consulted: replacing every engine
      after the winner changes nothing, and the answer is the winner's alone. */
  lemma {:induction false} LaterEnginesNotQueried(engines: seq<Engine>, rest: seq<Engine>, store: PrimaryStore, q: AutocompleteQuery, k: nat)
    requires FirstServing(engines, store, q, 0) == Some(k)
    ensures RouteAutocomplete(engines[..k + 1] + rest, store, q) == RouteAutocomplete(engines, store, q)
    ensures RouteAutocomplete(engines, store, q) == EsAutocomplete(engines[k], store, q)
  {
    var changed := engines[..k + 1] + rest;
    assert forall j :: 0 <= j <= k ==> changed[j] == engines[j];
    FirstServingAt(changed, store, q, k);
  }

  /** An erroring first engine is passed over, and the second engine's answer is
      used even when a third enabled engine follows. */
  lemma FailedEngineSkipped(e1: Engine, e2: Engine, e3: Engine, store: PrimaryStore, q: AutocompleteQuery)
    requires e1.autocompletionEnabled && EsAutocomplete(e1, store, q).Err?
    requires Serves(e2, store, q)
    ensures RouteAutocomplete([e1, e2, e3], store, q) == EsAutocomplete(e2, store, q)
  {
    FirstServingAt([e1, e2, e3], store, q, 1);
  }
}
