/** The search layer over the channel store: it delegates every operation to the
    primary store and keeps the search engines in sync with it. */
module SearchLayer {
  import opened ChannelModel
  import opened IndexDispatch
  import opened ResultResolution
  import opened AutocompleteRouting

  /** The re-index requests for the profiles in `order`, one per profile, in that order. */
  function ProfileReindexes(profiles: map<UserId, User>, order: seq<UserId>): (r: seq<Effect>)
    requires forall k :: k in order ==> k in profiles
    ensures |r| == |order|
    ensures forall j :: 0 <= j < |order| ==> r[j] == ReindexUser(profiles[order[j]].id)
  {
    if order == [] then []
    else ProfileReindexes(profiles, order[..|order| - 1]) + [ReindexUser(profiles[order[|order| - 1]].id)]
  }

  predicate NoDuplicates<T(==)>(s: seq<T>) {
    forall a, b :: 0 <= a < b < |s| ==> s[a] != s[b]
  }

  /** The channel store seen through the search layer. `store` answers the
      delegated calls; `activeEngines` is what the engine registry reports as
      active when an operation starts; `effects` logs, in order, every background
      engine job dispatched and every user re-index requested. */
  class SearchChannelStore {
    const store: PrimaryStore
    var activeEngines: seq<Engine>
    var effects: seq<Effect>

    constructor (store: PrimaryStore, engines: seq<Engine>)
      ensures this.store == store && activeEngines == engines && effects == []
    {
      this.store := store;
      activeEngines := engines;
      effects := [];
    }

    /** Dispatches one delete job per indexing-enabled engine, for open channels only. */
    method DeleteChannelIndex(channel: Channel)
      modifies this`effects
      ensures effects == old(effects) + ChannelJobs(activeEngines, channel, DeleteJob)
    {
      if channel.kind == Open {
        var engines := activeEngines;
        for i := 0 to |engines|
          invariant effects == old(effects) + JobsUpTo(engines, i, channel, DeleteJob)
        {
          if engines[i].indexingEnabled {
            effects := effects + [EngineJob(i, DeleteJob, channel)];
          }
        }
      }
    }

    /** Dispatches one index job per indexing-enabled engine, for open channels only. */
    method IndexChannel(channel: Channel)
      modifies this`effects
      ensures effects == old(effects) + ChannelJobs(activeEngines, channel, IndexJob)
    {
      if channel.kind == Open {
        var engines := activeEngines;
        for i := 0 to |engines|
          invariant effects == old(effects) + JobsUpTo(engines, i, channel, IndexJob)
        {
          if engines[i].indexingEnabled {
            effects := effects + [EngineJob(i, IndexJob, channel)];
          }
        }
      }
    }

    /** Saves a channel; the saved channel is indexed only if the save succeeded. */
    method Save(channel: Channel, maxChannels: int) returns (r: Result<Channel>)
      modifies this`effects
      ensures r == store.save(channel, maxChannels)
      ensures r.Err? ==> effects == old(effects)
      ensures r.Ok? ==> effects == old(effects) + ChannelJobs(activeEngines, r.value, IndexJob)
    {
      r := store.save(channel, maxChannels);
      if r.Ok? {
        IndexChannel(r.value);
      }
    }

    /** Updates a channel; the updated channel is indexed only if the update succeeded. */
    method Update(channel: Channel) returns (r: Result<Channel>)
      modifies this`effects
      ensures r == store.update(channel)
      ensures r.Err? ==> effects == old(effects)
      ensures r.Ok? ==> effects == old(effects) + ChannelJobs(activeEngines, r.value, IndexJob)
    {
      r := store.update(channel);
      if r.Ok? {
        IndexChannel(r.value);
      }
    }

    /** Saves a membership; once it is saved, the creator of its channel is
        re-indexed, provided the channel can be looked up. The source runs the
        lookup and the re-index on the failure branch instead; this is the minimal
        flip of that condition, and the target stays the channel's creator. The
        layer's other membership operations, RemoveMember and
        PermanentDeleteMembersByChannel, re-index the members' own users, which
        suggests that re-indexing `cm.userId` was meant; the model keeps the
        creator, as the code names it. */
    method SaveMember(cm: ChannelMember) returns (r: Result<ChannelMember>)
      modifies this`effects
      ensures r == store.saveMember(cm)
      ensures r.Err? ==> effects == old(effects)
      ensures r.Ok? && store.get(r.value.channelId, true).Ok? ==>
                effects == old(effects) + [ReindexUser(store.get(r.value.channelId, true).value.creatorId)]
      ensures r.Ok? && store.get(r.value.channelId, true).Err? ==> effects == old(effects)
    {
      r := store.saveMember(cm);
      if r.Ok? {
        var channel := store.get(r.value.channelId, true);
        if channel.Ok? {
          effects := effects + [ReindexUser(channel.value.creatorId)];
        }
      }
    }

    /** Removes a member; on success exactly the removed user is re-indexed. */
    method RemoveMember(channelId: ChannelId, userIdToRemove: UserId) returns (err: Option<AppError>)
      modifies this`effects
      ensures err == store.removeMember(channelId, userIdToRemove)
      ensures err.Some? ==> effects == old(effects)
      ensures err.None? ==> effects == old(effects) + [ReindexUser(userIdToRemove)]
    {
      err := store.removeMember(channelId, userIdToRemove);
      if err.None? {
        effects := effects + [ReindexUser(userIdToRemove)];
      }
    }

    /** Creates a direct channel; on success exactly its two participants are re-indexed. */
    method CreateDirectChannel(user: User, otherUser: User) returns (r: Result<Channel>)
      modifies this`effects
      ensures r == store.createDirectChannel(user, otherUser)
      ensures r.Err? ==> effects == old(effects)
      ensures r.Ok? ==> effects == old(effects) + [ReindexUser(user.id), ReindexUser(otherUser.id)]
    {
      r := store.createDirectChannel(user, otherUser);
      if r.Ok? {
        effects := effects + [ReindexUser(user.id)];
        effects := effects + [ReindexUser(otherUser.id)];
      }
    }

    /** Autocompletes channel names: the first engine with autocompletion enabled
        that answers without error decides the result; otherwise the store does. */
    method AutocompleteInTeam(teamId: TeamId, term: string, includeDeleted: bool) returns (r: Result<seq<Channel>>)
      ensures r == RouteAutocomplete(activeEngines, store, AutocompleteQuery(teamId, term, includeDeleted))
    {
      ghost var q := AutocompleteQuery(teamId, term, includeDeleted);
      var engines := activeEngines;
      var channelList: seq<Channel> := [];
      var allFailed := true;
      ghost var winner := 0;
      for i := 0 to |engines|
        invariant allFailed
        invariant forall j :: 0 <= j < i ==> !Serves(engines[j], store, q)
      {
        if engines[i].autocompletionEnabled {
          var found := EsAutocompleteChannels(engines[i], teamId, term, includeDeleted);
          if found.Err? {
            continue;
          }
          channelList := found.value;
          allFailed := false;
          winner := i;
          break;
        }
      }
      if allFailed {
        var native := store.autocompleteInTeam(teamId, term, includeDeleted);
        if native.Err? {
          return Err(native.error);
        }
        channelList := native.value;
      } else {
        FirstServingAt(engines, store, q, winner);
      }
      r := Ok(channelList);
    }

    /** Asks one engine for matching channel ids and resolves them into channels. */
    method EsAutocompleteChannels(engine: Engine, teamId: TeamId, term: string, includeDeleted: bool)
      returns (r: Result<seq<Channel>>)
      ensures r == EsAutocomplete(engine, store, AutocompleteQuery(teamId, term, includeDeleted))
    {
      var found := engine.searchChannels(teamId, term);
      if found.Err? {
        return Err(found.error);
      }
      var channelIds := found.value;
      var channelList: seq<Channel> := [];
      if |channelIds| > 0 {
        var fetched := store.getChannelsByIds(channelIds);
        if fetched.Err? {
          return Err(fetched.error);
        }
        var channels := fetched.value;
        for i := 0 to |channels|
          invariant channelList == Listable(channels[..i], includeDeleted)
        {
          assert channels[..i + 1][..i] == channels[..i];
          if channels[i].deleteAt > 0 && !includeDeleted {
            continue;
          }
          channelList := channelList + [channels[i]];
        }
        assert channels[..|channels|] == channels;
      }
      return Ok(channelList);
    }

    /** Deletes every membership of a channel; on success each profile the user
        store lists for the channel is re-indexed once, in the map's iteration
        `order`. A failed profile lookup is swallowed. */
    method PermanentDeleteMembersByChannel(channelId: ChannelId) returns (err: Option<AppError>, ghost order: seq<UserId>)
      modifies this`effects
      ensures err == store.permanentDeleteMembersByChannel(channelId)
      ensures err.Some? || store.getAllProfilesInChannel(channelId, false).Err? ==>
                effects == old(effects) && order == []
      ensures err.None? && store.getAllProfilesInChannel(channelId, false).Ok? ==>
                var profiles := store.getAllProfilesInChannel(channelId, false).value;
                NoDuplicates(order) && (forall k :: k in order <==> k in profiles) &&
                effects == old(effects) + ProfileReindexes(profiles, order)
    {
      order := [];
      err := store.permanentDeleteMembersByChannel(channelId);
      if err.None? {
        var profiles := store.getAllProfilesInChannel(channelId, false);
        if profiles.Ok? {
          var remaining := profiles.value.Keys;
          while remaining != {}
            invariant remaining <= profiles.value.Keys
            invariant NoDuplicates(order)
            invariant forall k :: k in order <==> k in profiles.value && k !in remaining
            invariant effects == old(effects) + ProfileReindexes(profiles.value, order)
            decreases remaining
          {
            var userId :| userId in remaining;
            effects := effects + [ReindexUser(profiles.value[userId].id)];
            order := order + [userId];
            remaining := remaining - {userId};
          }
        }
      }
    }

    /** Deletes a channel for good; the channel as it was before the delete is
        removed from the engines only if the delete succeeded and the snapshot
        could be fetched. The result is the store's, whatever the snapshot lookup did. */
    method PermanentDelete(channelId: ChannelId) returns (err: Option<AppError>)
      modifies this`effects
      ensures err == store.permanentDelete(channelId)
      ensures err.Some? ==> effects == old(effects)
      ensures err.None? && store.get(channelId, true).Err? ==> effects == old(effects)
      ensures err.None? && store.get(channelId, true).Ok? ==>
                effects == old(effects) + ChannelJobs(activeEngines, store.get(channelId, true).value, DeleteJob)
    {
      var channel := store.get(channelId, true);
      err := store.permanentDelete(channelId);
      if err.None? && channel.Ok? {
        DeleteChannelIndex(channel.value);
      }
    }
  }
}
