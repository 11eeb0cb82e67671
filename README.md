# Channel search layer

A Dafny model of the channel search layer of a Mattermost server
(`store/searchlayer/channel_layer.go`). This layer wraps the primary channel
store. Each mutation is delegated to the store first. When the store reports
success, the layer hands background index or delete jobs to every active search
engine whose indexing is enabled, or asks the root store to re-index affected
users. Channel autocompletion goes to the first engine with autocompletion
enabled that answers without an error. If no engine does, the store's own
autocompletion answers.

Modules:

- `ChannelModel` (model.dfy) holds the values: channels, members, users, engines and
  the primary store. Engines and the store are oracles: datatypes whose fields are
  functions giving the answer of each foreign call. As a modelling choice, a store
  reply is either a value or an error, never both (Go returns a nil value with an
  error). Side effects
  are `Effect` values. `EngineJob(i, kind, channel)` is one background job for the
  engine at position `i` of the active engines. `ReindexUser(id)` is one request to
  re-index a user.
- `IndexDispatch` (dispatch.dfy) decides which engines receive a job (`ChannelJobs`).
  It also proves that each indexing-enabled engine receives exactly one job, that
  other engines receive none, and that non-open channels produce no job at all.
- `ResultResolution` (resolve.dfy) turns an engine's channel ids into channels
  (`EsAutocomplete`, `Listable`).
- `AutocompleteRouting` (routing.dfy) picks the engine that answers an
  autocompletion (`FirstServing`, `RouteAutocomplete`).
- `SearchLayer` (channel_layer.dfy) is the class `SearchChannelStore`. Its fields
  are the store, the active engines reported by the registry, and the
  append-only `effects` log. Its methods follow the source's functions one by one,
  and their loops are proved against the functions above. `SaveMember` and
  `PermanentDelete` are the corrected forms described under Findings.
- `AsWritten` (as_written.dfy) models `SaveMember` and `PermanentDelete` as the
  source writes them, including the nil dereference Go panics on (see Findings).

Two details of the code matter here:

- A fetched channel is dropped when `DeleteAt > 0` and deleted channels were not
  requested. A channel with a negative `DeleteAt` is therefore kept.
- The resolver keeps the order in which the store returns the fetched channels.
  That order need not be the order of the engine's ids.

## Model

| member | source | states |
|---|---|---|
| `IndexDispatch.JobsUpTo` | store/searchlayer/channel_layer.go:35-44 | every job emitted is of the requested kind, carries the channel, and targets an indexing-enabled engine; engine targets strictly increase, so no engine is targeted twice |
| `IndexDispatch.ChannelJobs` | store/searchlayer/channel_layer.go:18-46 | a channel that is not open yields no job; every job goes to an active engine whose indexing is enabled |
| `IndexDispatch.JobsPerEngine` | store/searchlayer/channel_layer.go:18-46 | for an open channel, each indexing-enabled engine receives exactly one job and every other engine none; otherwise no engine receives a job |
| `IndexDispatch.RepeatedDispatchNotDeduplicated` | store/searchlayer/channel_layer.go:33-46 | dispatching the same channel twice gives each eligible engine two jobs: nothing is deduplicated |
| `ResultResolution.Listable` | store/searchlayer/channel_layer.go:132-137 | the result is no longer than the fetched list, and each kept channel was fetched and is not excluded as soft-deleted |
| `ResultResolution.ListableComplete` | store/searchlayer/channel_layer.go:132-137 | every fetched channel that is not excluded appears in the result |
| `ResultResolution.ListableAppend` | store/searchlayer/channel_layer.go:132-137 | filtering distributes over concatenation, so the result is the order-preserving subsequence of kept channels |
| `ResultResolution.ListableIncludeDeleted` | store/searchlayer/channel_layer.go:133-136 | when deleted channels are requested, every fetched channel is returned |
| `ResultResolution.SoftDeletedDropped` | store/searchlayer/channel_layer.go:133-136 | of channels A and B where B is soft-deleted, only A is returned |
| `ResultResolution.EsAutocomplete` | store/searchlayer/channel_layer.go:120-141 | an engine error is returned as it is; an empty id list gives an empty list; on a non-empty id list a fetch error is returned as it is, and a successful fetch gives exactly `Listable` of the fetched channels (kept channels in fetched order, duplicates kept) |
| `ResultResolution.EmptyIdsSkipFetch` | store/searchlayer/channel_layer.go:126-140 | an empty id list yields an empty list whatever the store's batch fetch would answer, i.e. the store is not consulted |
| `ResultResolution.EsAutocompleteContents` | store/searchlayer/channel_layer.go:126-140 | a success holds a channel exactly when the engine found a non-empty id list, the batch fetch of those ids succeeded and returned it, and it is not excluded as soft-deleted |
| `AutocompleteRouting.FirstServing` | store/searchlayer/channel_layer.go:99-109 | the chosen engine has autocompletion enabled and answers without error, and every earlier engine is either disabled or errors; no choice exactly when no engine serves |
| `AutocompleteRouting.FirstServingAt` | store/searchlayer/channel_layer.go:99-109 | an engine that serves, with no serving engine before it, is the one chosen |
| `AutocompleteRouting.RouteAutocomplete` | store/searchlayer/channel_layer.go:94-118 | an error result arises only when no engine serves, and it is then exactly the store's native autocompletion error |
| `AutocompleteRouting.NoEligibleEngineFallsBack` | store/searchlayer/channel_layer.go:99-116 | with no engine that has autocompletion enabled, the result is the store's native autocompletion |
| `AutocompleteRouting.AllEnginesFailFallsBack` | store/searchlayer/channel_layer.go:100-116 | when every enabled engine errors, the result is the store's native autocompletion |
| `AutocompleteRouting.LaterEnginesNotQueried` | store/searchlayer/channel_layer.go:101-107 | the result is the first serving engine's answer alone, and replacing every engine after it changes nothing |
| `AutocompleteRouting.FailedEngineSkipped` | store/searchlayer/channel_layer.go:100-107 | given an erroring engine, a serving engine and any third engine, the second engine's answer is returned |
| `SearchLayer.SearchChannelStore.constructor` | store/searchlayer/channel_layer.go:13-16 | the layer wraps the given store and engines, with nothing emitted yet |
| `SearchLayer.SearchChannelStore.DeleteChannelIndex` | store/searchlayer/channel_layer.go:18-31 | appends exactly the delete jobs of `ChannelJobs` to the log |
| `SearchLayer.SearchChannelStore.IndexChannel` | store/searchlayer/channel_layer.go:33-46 | appends exactly the index jobs of `ChannelJobs` to the log |
| `SearchLayer.SearchChannelStore.Save` | store/searchlayer/channel_layer.go:48-54 | returns the store's reply unchanged; emits nothing on error, and on success the index jobs for the saved channel |
| `SearchLayer.SearchChannelStore.Update` | store/searchlayer/channel_layer.go:56-62 | returns the store's reply unchanged; emits nothing on error, and on success the index jobs for the updated channel |
| `SearchLayer.SearchChannelStore.SaveMember` | store/searchlayer/channel_layer.go:64-75 | corrected form: returns the store's reply unchanged; on success re-indexes exactly the channel's creator when the channel can be looked up and nothing when the lookup fails; emits nothing on error (the minimal flip of the inverted condition; see Findings) |
| `SearchLayer.SearchChannelStore.RemoveMember` | store/searchlayer/channel_layer.go:77-83 | returns the store's error unchanged; on success re-indexes exactly the removed user and emits no channel job |
| `SearchLayer.SearchChannelStore.CreateDirectChannel` | store/searchlayer/channel_layer.go:85-92 | returns the store's reply unchanged; on success re-indexes exactly the two participants, in order, and emits no channel job |
| `SearchLayer.SearchChannelStore.AutocompleteInTeam` | store/searchlayer/channel_layer.go:94-118 | the loop's result is `RouteAutocomplete`: first serving engine, else the store's native autocompletion, with its error passed on |
| `SearchLayer.SearchChannelStore.EsAutocompleteChannels` | store/searchlayer/channel_layer.go:120-141 | the loop building the list computes `EsAutocomplete` |
| `SearchLayer.SearchChannelStore.PermanentDeleteMembersByChannel` | store/searchlayer/channel_layer.go:143-158 | returns the store's error unchanged; on success, and if the profiles can be listed, re-indexes every profile exactly once in some order; otherwise emits nothing |
| `SearchLayer.SearchChannelStore.PermanentDelete` | store/searchlayer/channel_layer.go:160-170 | corrected form: returns the store's error unchanged; emits the delete jobs for the pre-delete snapshot only when the delete succeeds and the snapshot was found |
| `AsWritten.SaveMemberAsWritten` | store/searchlayer/channel_layer.go:64-75 | as written: panics exactly when the save fails, otherwise returns the reply; never re-indexes anyone |
| `AsWritten.SaveMemberAsWrittenMissesCreator` | store/searchlayer/channel_layer.go:64-75 | after a successful save with a channel that can be looked up, the as-written form returns without re-indexing the creator, which the corrected form does |
| `AsWritten.PermanentDeleteAsWritten` | store/searchlayer/channel_layer.go:160-170 | as written: panics exactly when the snapshot lookup fails and the delete succeeds; otherwise returns the store's error and emits what the corrected form emits |
| `AsWritten.PermanentDeleteOfMissingChannelPanics` | store/searchlayer/channel_layer.go:160-170 | deleting a channel the store cannot look up, with a delete that succeeds, panics |

## Left out

- Goroutines and timing. Each background job is an entry appended to `effects`. Whether a job completes, how long it takes, the order of completion and the errors it logs are not modelled.
- Logging (`mlog`), which has no effect on behaviour.
- Engine internals (`IndexChannel`, `DeleteChannel`, `SearchChannels`) and the store's persistence. They are oracle answers, not implementations.
- `indexUser` and `indexUserFromID` of the root store are not part of this model. Both appear only as a `ReindexUser(id)` request. `indexUser(user)` is recorded with `user.Id`.
- The primary store is stateless here: a call's answer depends only on its arguments. `PermanentDelete` still looks the channel up before deleting it, so the snapshot stands for the channel's state before the delete. A later lookup observing the deletion is not modelled.
- For the same reason, `SearchChannelStore.PermanentDeleteMembersByChannel` does not capture that the profile listing (line 147) runs after the memberships were deleted (line 144). A store that lists profiles from the membership table would list nobody, and nobody would be re-indexed; the oracle's listing is independent of the delete.
- A store reply carrying both a value and an error is not represented: every reply is a value or an error. Go's `(value, *AppError)` pair is passed back whole at lines 53, 74 and 91. Both Findings rest on the store returning a nil value together with an error.
- The engine registry's list can change between operations, because `activeEngines` is a mutable field. A change during an operation is not modelled. The list is read once per operation, when the jobs are sent out or the query is routed.
- `SearchChannelStore.PermanentDeleteMembersByChannel`: Go's map iteration order is arbitrary. The method picks keys nondeterministically and reports the order it used through a ghost out-parameter.
- Channel fields other than `Id`, `Type`, `DeleteAt` and `CreatorId` are left out. `AppError` details other than its presence are left out.
- `maxChannels` is passed to the store unchanged; its 64-bit width plays no role here.
- Under the modelling choice above (a reply is a value or an error, never both), a failed save carries no member. The as-written creator re-index on the failure path (line 71) is therefore never reached, and the model shows the panic at line 67 instead.

## Findings

| source | as written | input that shows it | evidently intended | confidence | as-written member | corrected member |
|---|---|---|---|---|---|---|
| store/searchlayer/channel_layer.go:64-75 | the creator is re-indexed only when `SaveMember` fails, and that branch reads `member.ChannelId` of the nil member a failed save returns | any failing save (such as a duplicate membership) makes line 67 dereference nil; any successful save re-indexes no one | the condition is inverted: after a successful save, look up the member's channel and re-index its creator. This is the minimal flip the model proves; RemoveMember (line 80) and PermanentDeleteMembersByChannel (lines 146-155) re-index the members' own users, which suggests re-indexing `cm.UserId` instead | medium (not executed; relies on the store returning a nil member with an error) | `AsWritten.SaveMemberAsWritten` | `SearchLayer.SearchChannelStore.SaveMember` |
| store/searchlayer/channel_layer.go:160-170 | a failed snapshot lookup leaves `channel` nil; a successful delete then passes it to `deleteChannelIndex`, whose line 19 reads `channel.Type` | deleting an id the store cannot look up, where the delete itself succeeds because it removes no row | a failed snapshot lookup is logged and the index delete is skipped; the delete's own result is returned | medium (not executed; relies on the store returning a nil channel with an error) | `AsWritten.PermanentDeleteAsWritten` | `SearchLayer.SearchChannelStore.PermanentDelete` |
