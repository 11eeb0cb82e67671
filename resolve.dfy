/** Turning the channel ids an engine finds into channels (esAutocompleteChannels). */
module ResultResolution {
  import opened ChannelModel

  /** Whether a fetched channel is kept: a soft-deleted channel (positive
      `deleteAt`) is dropped unless deleted channels are requested. */
  predicate Listed(ch: Channel, includeDeleted: bool) {
    !(ch.deleteAt > 0 && !includeDeleted)
  }

  /** The fetched channels that are kept, in the order they were fetched. */
  function Listable(chs: seq<Channel>, includeDeleted: bool): (r: seq<Channel>)
    ensures |r| <= |chs|
    ensures forall c :: c in r ==> c in chs && Listed(c, includeDeleted)
  {
    if chs == [] then []
    else
      var last := chs[|chs| - 1];
      Listable(chs[..|chs| - 1], includeDeleted) + (if Listed(last, includeDeleted) then [last] else [])
  }

  /** Every fetched channel that is not excluded is in the result. */
  lemma {:induction false} ListableComplete(chs: seq<Channel>, includeDeleted: bool)
    ensures forall c :: c in chs && Listed(c, includeDeleted) ==> c in Listable(chs, includeDeleted)
  {
    if chs != [] {
      var init := chs[..|chs| - 1];
      ListableComplete(init, includeDeleted);
      assert chs == init + [chs[|chs| - 1]];
    }
  }

  /** Filtering distributes over concatenation, so the result keeps the fetched order. */
  lemma {:induction false} ListableAppend(a: seq<Channel>, b: seq<Channel>, includeDeleted: bool)
    ensures Listable(a + b, includeDeleted) == Listable(a, includeDeleted) + Listable(b, includeDeleted)
    decreases |b|
  {
    if b == [] {
      assert a + b == a;
    } else {
      var b' := b[..|b| - 1];
      assert (a + b)[..|a + b| - 1] == a + b';
      ListableAppend(a, b', includeDeleted);
    }
  }

  /** When deleted channels are requested, every fetched channel is kept. */
  lemma {:induction false} ListableIncludeDeleted(chs: seq<Channel>)
    ensures Listable(chs, true) == chs
  {
    if chs != [] {
      ListableIncludeDeleted(chs[..|chs| - 1]);
      assert chs == chs[..|chs| - 1] + [chs[|chs| - 1]];
    }
  }

  /** Given channels A and B where B is soft-deleted, only A is returned. */
  lemma SoftDeletedDropped(a: Channel, b: Channel)
    requires a.deleteAt == 0 && b.deleteAt > 0
    ensures Listable([a, b], false) == [a]
  {
    assert [a, b][..1] == [a];
    assert [a][..0] == [];
  }

  /** What esAutocompleteChannels answers for one engine: the engine's error, an
      empty list for an empty id list, the store's error when fetching the channels
      fails, and otherwise the kept fetched channels. */
  function EsAutocomplete(engine: Engine, store: PrimaryStore, q: AutocompleteQuery): (r: Result<seq<Channel>>)
    ensures r.Err? ==>
              engine.searchChannels(q.teamId, q.term) == Err(r.error) ||
              (engine.searchChannels(q.teamId, q.term).Ok? &&
               |engine.searchChannels(q.teamId, q.term).value| > 0 &&
               store.getChannelsByIds(engine.searchChannels(q.teamId, q.term).value) == Err(r.error))
    ensures r.Ok? ==> forall c :: c in r.value ==> Listed(c, q.includeDeleted)
    // the engine's error is returned as it is
    ensures engine.searchChannels(q.teamId, q.term).Err? ==>
              r == Err(engine.searchChannels(q.teamId, q.term).error)
    // an empty id list gives an empty list
    ensures engine.searchChannels(q.teamId, q.term) == Ok([]) ==> r == Ok([])
    // for a non-empty id list, the fetch's error as it is, or the kept fetched channels in order
    ensures var found := engine.searchChannels(q.teamId, q.term);
            found.Ok? && |found.value| > 0 ==>
              (store.getChannelsByIds(found.value).Err? ==>
                 r == Err(store.getChannelsByIds(found.value).error)) &&
              (store.getChannelsByIds(found.value).Ok? ==>
                 r == Ok(Listable(store.getChannelsByIds(found.value).value, q.includeDeleted)))
  {
    match engine.searchChannels(q.teamId, q.term)
    case Err(e) => Err(e)
    case Ok(ids) =>
      if |ids| == 0 then Ok([])
      else
        match store.getChannelsByIds(ids)
        case Err(e) => Err(e)
        case Ok(chs) => Ok(Listable(chs, q.includeDeleted))
  }

  /** An empty id list is answered without the store: the result is the same
      whatever the store's batch fetch would answer. */
  lemma EmptyIdsSkipFetch(engine: Engine, s1: PrimaryStore, s2: PrimaryStore, q: AutocompleteQuery)
    requires engine.searchChannels(q.teamId, q.term) == Ok([])
    ensures EsAutocomplete(engine, s1, q) == EsAutocomplete(engine, s2, q) == Ok([])
  {
  }

  /** A successful answer holds exactly the fetched channels that are kept. */
  lemma EsAutocompleteContents(engine: Engine, store: PrimaryStore, q: AutocompleteQuery, c: Channel)
    requires EsAutocomplete(engine, store, q).Ok?
    ensures var found := engine.searchChannels(q.teamId, q.term);
            c in EsAutocomplete(engine, store, q).value <==>
              found.Ok? && |found.value| > 0 &&
              store.getChannelsByIds(found.value).Ok? &&
              c in store.getChannelsByIds(found.value).value &&
              Listed(c, q.includeDeleted)
  {
    var found := engine.searchChannels(q.teamId, q.term);
    if found.Ok? && |found.value| > 0 && store.getChannelsByIds(found.value).Ok? {
      ListableComplete(store.getChannelsByIds(found.value).value, q.includeDeleted);
    }
  }
}
