/** Which engines receive an index or delete job for a channel
    (indexChannel and deleteChannelIndex). */
module IndexDispatch {
  import opened ChannelModel

  /** The jobs the first `n` active engines receive for `ch`: one job of the given
      kind for each of them whose indexing is enabled, in engine order. */
  function JobsUpTo(engines: seq<Engine>, n: nat, ch: Channel, kind: JobKind): (jobs: seq<Effect>)
    requires n <= |engines|
    ensures |jobs| <= n
    ensures forall j :: 0 <= j < |jobs| ==>
              jobs[j].EngineJob? && jobs[j].kind == kind && jobs[j].channel == ch &&
              jobs[j].engine < n && engines[jobs[j].engine].indexingEnabled
    ensures forall a, b :: 0 <= a < b < |jobs| ==>
              jobs[a].EngineJob? && jobs[b].EngineJob? && jobs[a].engine < jobs[b].engine
  {
    if n == 0 then []
    else
      JobsUpTo(engines, n - 1, ch, kind) +
      (if engines[n - 1].indexingEnabled then [EngineJob(n - 1, kind, ch)] else [])
  }

  /** The jobs dispatched for `ch`: none unless the channel is open, otherwise one
      per active engine whose indexing is enabled. */
  function ChannelJobs(engines: seq<Engine>, ch: Channel, kind: JobKind): (jobs: seq<Effect>)
    ensures ch.kind != Open ==> jobs == []
    ensures forall j :: 0 <= j < |jobs| ==>
              jobs[j].EngineJob? && jobs[j].kind == kind && jobs[j].channel == ch &&
              jobs[j].engine < |engines| && engines[jobs[j].engine].indexingEnabled
  {
    if ch.kind == Open then JobsUpTo(engines, |engines|, ch, kind) else []
  }

  /** How many of `effects` are engine jobs for the engine at position `e`. */
  function JobsFor(effects: seq<Effect>, e: nat): nat {
    if effects == [] then 0
    else
      var last := effects[|effects| - 1];
      JobsFor(effects[..|effects| - 1], e) + (if last.EngineJob? && last.engine == e then 1 else 0)
  }

  lemma {:induction false} JobsForAppend(a: seq<Effect>, b: seq<Effect>, e: nat)
    ensures JobsFor(a + b, e) == JobsFor(a, e) + JobsFor(b, e)
    decreases |b|
  {
    if b != [] {
      var b' := b[..|b| - 1];
      assert (a + b)[..|a + b| - 1] == a + b';
      JobsForAppend(a, b', e);
    } else {
      assert a + b == a;
    }
  }

  lemma {:induction false} JobsForUpTo(engines: seq<Engine>, n: nat, ch: Channel, kind: JobKind, e: nat)
    requires n <= |engines|
    ensures JobsFor(JobsUpTo(engines, n, ch, kind), e) ==
            if e < n && engines[e].indexingEnabled then 1 else 0
  {
    if n > 0 {
      var prefix := JobsUpTo(engines, n - 1, ch, kind);
      JobsForUpTo(engines, n - 1, ch, kind, e);
      if engines[n - 1].indexingEnabled {
        var job := EngineJob(n - 1, kind, ch);
        assert JobsUpTo(engines, n, ch, kind) == prefix + [job];
        assert (prefix + [job])[..|prefix|] == prefix;
      } else {
        assert JobsUpTo(engines, n, ch, kind) == prefix;
      }
    }
  }

  /** Exactly one job goes to each active engine with indexing enabled, and none to
      any other engine, provided the channel is open; otherwise no job at all. */
  lemma JobsPerEngine(engines: seq<Engine>, ch: Channel, kind: JobKind, e: nat)
    ensures JobsFor(ChannelJobs(engines, ch, kind), e) ==
            if ch.kind == Open && e < |engines| && engines[e].indexingEnabled then 1 else 0
  {
    if ch.kind == Open {
      JobsForUpTo(engines, |engines|, ch, kind, e);
    }
  }

  /** Dispatching the same channel twice gives every eligible engine two jobs:
      nothing is deduplicated. */
  lemma RepeatedDispatchNotDeduplicated(engines: seq<Engine>, ch: Channel, kind: JobKind, e: nat)
    ensures JobsFor(ChannelJobs(engines, ch, kind) + ChannelJobs(engines, ch, kind), e) ==
            if ch.kind == Open && e < |engines| && engines[e].indexingEnabled then 2 else 0
  {
    JobsForAppend(ChannelJobs(engines, ch, kind), ChannelJobs(engines, ch, kind), e);
    JobsPerEngine(engines, ch, kind, e);
  }
}
