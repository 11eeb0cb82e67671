/** SaveMember and PermanentDelete as the channel search layer writes them. Both
    read a value that the primary store leaves nil when it reports an error, which
    in Go is a nil-pointer panic. The search layer in module SearchLayer uses the
    corrected forms. */
module AsWritten {
  import opened ChannelModel
  import opened IndexDispatch

  /** How a call ends: it returns a result after emitting `effects`, or it panics
      after emitting `effects`. */
  datatype Run<T> = Completed(result: T, effects: seq<Effect>) | Panicked(effects: seq<Effect>)

  /** SaveMember as written: the creator re-index sits on the error branch, which
      reads the channel id of the member the failed save returned (nil). */
  function SaveMemberAsWritten(store: PrimaryStore, cm: ChannelMember): (run: Run<Result<ChannelMember>>)
    ensures run.Panicked? <==> store.saveMember(cm).Err?
    ensures run.Completed? ==> run.result == store.saveMember(cm)
    ensures run.effects == []
  {
    match store.saveMember(cm)
    case Err(_) => Panicked([])
    case Ok(member) => Completed(Ok(member), [])
  }

  /** After a successful save whose channel can be looked up, the as-written form
      does not re-index the channel's creator, which the corrected
      SearchChannelStore.SaveMember does. */
  lemma SaveMemberAsWrittenMissesCreator(store: PrimaryStore, cm: ChannelMember)
    requires store.saveMember(cm).Ok?
    requires store.get(store.saveMember(cm).value.channelId, true).Ok?
    ensures SaveMemberAsWritten(store, cm).Completed?
    ensures ReindexUser(store.get(store.saveMember(cm).value.channelId, true).value.creatorId)
              !in SaveMemberAsWritten(store, cm).effects
  {
  }

  /** PermanentDelete as written: when the snapshot lookup fails the snapshot is
      nil, and a successful delete then reads its type. */
  function PermanentDeleteAsWritten(store: PrimaryStore, engines: seq<Engine>, channelId: ChannelId): (run: Run<Option<AppError>>)
    ensures run.Panicked? <==> store.get(channelId, true).Err? && store.permanentDelete(channelId).None?
    ensures run.Completed? ==> run.result == store.permanentDelete(channelId)
    ensures run.Completed? && run.result.Some? ==> run.effects == []
    // where it returns, it emits what the corrected SearchChannelStore.PermanentDelete emits
    ensures run.Completed? && run.result.None? ==>
              store.get(channelId, true).Ok? &&
              run.effects == ChannelJobs(engines, store.get(channelId, true).value, DeleteJob)
  {
    var channel := store.get(channelId, true);
    var err := store.permanentDelete(channelId);
    if err.None? then
      match channel
      case Err(_) => Panicked([])
      case Ok(ch) => Completed(err, ChannelJobs(engines, ch, DeleteJob))
    else Completed(err, [])
  }

  /** Deleting a channel id the store cannot look up, with a delete that succeeds
      (one that removes no row), panics as written. */
  lemma PermanentDeleteOfMissingChannelPanics(store: PrimaryStore, engines: seq<Engine>, channelId: ChannelId)
    requires store.get(channelId, true).Err?
    requires store.permanentDelete(channelId) == None
    ensures PermanentDeleteAsWritten(store, engines, channelId).Panicked?
  {
  }
}
