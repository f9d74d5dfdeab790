/** The runtime around the watcher (`runtime.rs`): warming the identity cache and stepping. */
module Runtime {
  import opened Basics
  import opened PackageIndex
  import opened Pipeline
  import opened ChangeFilter
  import opened EngineWatch
  import opened PollLoop

  datatype Provider = Disabled | CmdPackageList

  datatype Warmup = Warmup(warm: bool, coherent: bool, count: nat, lastError: Option<string>)

  datatype RuntimeError = AlreadyStarted | NotStarted | InvalidConfig | WatchFailed(cause: WatchError)

  const ColdStart := Warmup(false, false, 0, None)

  /** The cache and its description after one load attempt; the flag says whether the load
      counts as done, which is what clears the dirty mark. */
  function Loaded(provider: Provider, load: Result<Snapshot, string>): (Index, Warmup, bool) {
    match provider
    case Disabled => (EmptyIndex, ColdStart, true)
    case CmdPackageList =>
      match load
      case Ok(snapshot) => (IndexFor(snapshot), Warmup(true, snapshot.coherent, |snapshot.entries|, None), true)
      case Err(e) => (EmptyIndex, Warmup(false, false, 0, Some(e)), false)
  }

  /** What is announced about the cache: nothing when no provider is configured. */
  function Announcement(warmup: Warmup): seq<Event> {
    if warmup.warm then [CacheWarmed(warmup.coherent, warmup.count)]
    else if warmup.lastError.Some? then [CacheWarmupFailed(warmup.lastError.value)]
    else []
  }

  function ServicesOf(cache: Index, warmup: Warmup): Option<Index> {
    if warmup.warm then Some(cache) else None
  }

  class EngineRuntime {
    const provider: Provider
    const invalidator: IdentityCacheInvalidator
    var started: bool
    var identityCache: Index
    var warmup: Warmup

    constructor (provider: Provider, invalidator: IdentityCacheInvalidator)
      ensures this.provider == provider && this.invalidator == invalidator
      ensures !started && identityCache == EmptyIndex && warmup == ColdStart
    {
      this.provider, this.invalidator := provider, invalidator;
      started, identityCache, warmup := false, EmptyIndex, ColdStart;
    }

    /** Services look identities up only in a cache that was loaded. */
    function Services(): Option<Index>
      reads this
    {
      ServicesOf(identityCache, warmup)
    }

    method Start(configOk: bool, load: Result<Snapshot, string>) returns (r: Result<(), RuntimeError>)
      modifies this, invalidator
      ensures r == (if old(started) then Err(AlreadyStarted) else if !configOk then Err(InvalidConfig) else Ok(()))
      ensures r.Ok? ==> started && (identityCache, warmup) == (Loaded(provider, load).0, Loaded(provider, load).1)
      ensures r.Err? ==> unchanged(this) && unchanged(invalidator)
    {
      if started {
        return Err(AlreadyStarted);
      }
      if !configOk {
        return Err(InvalidConfig);
      }
      RefreshIdentityCache(load);
      started := true;
      return Ok(());
    }

    /** A failed load empties the cache but keeps the dirty mark. */
    method RefreshIdentityCache(load: Result<Snapshot, string>)
      modifies this`identityCache, this`warmup, invalidator
      ensures var (cache, state, done) := Loaded(provider, load);
              && identityCache == cache && warmup == state
              && invalidator.View() ==
                 if done then old(invalidator.View()).(dirty := false) else old(invalidator.View())
    {
      var (cache, state, done) := Loaded(provider, load);
      if done {
        var _ := invalidator.ConsumeDirty();
      }
      identityCache := cache;
      warmup := state;
    }

    /** The announcement goes to the log and to the state alike. */
    method ApplyIdentityCacheState(state: EngineState, emitted: seq<Event>) returns (log: seq<Event>)
      modifies state
      ensures log == emitted + Announcement(warmup)
      ensures state.View() == Replay(old(state.View()), Announcement(warmup))
    {
      log := state.EmitAll(Announcement(warmup), emitted);
    }

    /** One step of a started runtime does and publishes what one poll does. The watcher holds
        no watch that asks for a refresh, so the cache stays as it is, even when marked dirty. */
    method Step(watcher: EngineWatch, state: EngineState, ready: seq<Ready>)
      returns (r: Result<seq<Event>, RuntimeError>)
      requires watcher.InStep()
      modifies watcher.Footprint(invalidator, state)
      ensures watcher.Valid() && unchanged(this)
      ensures !started ==>
                && r == Err(NotStarted) && state.View() == old(state.View()) && watcher.InStep()
                && watcher.Begun(invalidator) == old(watcher.Begun(invalidator))
      ensures started ==>
                && !(r.Err? && !r.error.WatchFailed?)
                && watcher.Ended(watcher.Polled(old(watcher.Begun(invalidator)), ready), Cause(r), invalidator, state,
                                 Services(), old(state.View()))
      ensures r.Ok? ==>
                && started && watcher.InStep()
                && state.View() == Replay(old(state.View()), r.value)
                && Paired(Services(), r.value)
    {
      hide Runs.EngineOk, Paired, Replay, PublishedBy, WorkAll, ItemsOf, EngineWatch.Ended;
      if !started {
        return Err(NotStarted);
      }
      var polled, _ := watcher.PollOnce(ready, invalidator, state, Services());
      r := match polled case Ok(log) => Ok(log) case Err(cause) => Err(WatchFailed(cause));
    }

    /** Any number of steps: the watcher is where working off all batches leads, each log is what
        its batch publishes, and the state they leave is the left fold of the reducer over the
        logs, one after the other, and equally over all of it at once. */
    method Steps(watcher: EngineWatch, state: EngineState, batches: seq<seq<Ready>>)
      returns (r: Result<seq<seq<Event>>, RuntimeError>)
      requires watcher.InStep()
      modifies watcher.Footprint(invalidator, state)
      ensures watcher.Valid() && unchanged(this)
      ensures r.Ok? ==>
                var start := old(watcher.Begun(invalidator));
                && watcher.InStep() && |r.value| == |batches|
                && (watcher.Begun(invalidator), r.value) == watcher.Rounds(start, batches, Services())
                && state.View() == ReplayAll(old(state.View()), r.value)
                && state.View() == Replay(old(state.View()), Flatten(r.value))
                && Paired(Services(), Flatten(r.value))
    {
      hide Runs.EngineOk, Paired, ReplayAll, Flatten, Replay, PublishedBy, WorkAll, ItemsOf;
      var logs: seq<seq<Event>> := [];
      ghost var start, first := state.View(), watcher.Begun(invalidator);
      NothingIsPaired(Services());
      NoLogs(start);
      for i := 0 to |batches|
        invariant watcher.InStep() && unchanged(this) && |logs| == i
        invariant (watcher.Begun(invalidator), logs) == watcher.Rounds(first, batches[..i], Services())
        invariant state.View() == ReplayAll(start, logs) && Paired(Services(), Flatten(logs))
      {
        assert batches[..i + 1][..i] == batches[..i];
        var log := Step(watcher, state, batches[i]);
        if log.Err? {
          return Err(log.error);
        }
        ReplayOneMore(start, logs, log.value);
        PairedConcat(Services(), Flatten(logs), log.value);
        logs := logs + [log.value];
      }
      assert batches[..|batches|] == batches;
      StepsReplay(start, logs);
      r := Ok(logs);
    }
  }

  /** A step's result as the poll's. */
  function Cause(r: Result<seq<Event>, RuntimeError>): Result<seq<Event>, WatchError>
    requires r.Err? ==> r.error.WatchFailed?
  {
    match r
    case Ok(log) => Ok(log)
    case Err(e) => Err(e.cause)
  }

  /** What a load announces: its snapshot's coherence and number of entries, or its error;
      nothing if no provider is configured. */
  lemma AnnouncedIsLoaded(provider: Provider, load: Result<Snapshot, string>)
    ensures Announcement(Loaded(provider, load).1) ==
            if provider.Disabled? then []
            else if load.Ok? then [CacheWarmed(load.value.coherent, |load.value.entries|)]
            else [CacheWarmupFailed(load.error)]
  {
  }

  /** After an announcement the engine state describes the cache as the runtime does. */
  lemma AnnouncedStateMatches(warmup: Warmup, state: State)
    requires warmup.warm ==> warmup.lastError.None?
    requires !warmup.warm ==> !warmup.coherent && warmup.count == 0
    requires Announcement(warmup) != []
    ensures Replay(state, Announcement(warmup)).cache ==
            CacheState(warmup.warm, warmup.coherent, warmup.count, warmup.lastError)
  {
    var event := Announcement(warmup)[0];
    assert Announcement(warmup)[1..] == [];
    assert Replay(Reduce(state, event), []) == Reduce(state, event);
  }

  /** Services resolve from an index exactly when a provider was configured and its load
      succeeded, and then from the index of what it loaded. */
  lemma WarmIffLoaded(provider: Provider, load: Result<Snapshot, string>)
    ensures var (cache, warmup, done) := Loaded(provider, load);
            && ServicesOf(cache, warmup) ==
               (if provider.CmdPackageList? && load.Ok? then Some(IndexFor(load.value)) else None)
            && (done <==> warmup.lastError.None?)
  {
  }

  /** Whatever a step emits after a cache load, an identity with a uid says about the loaded
      package list exactly what the list says: the one package of the uid, that it has none,
      or that it has several; without a loaded list it says nothing. */
  lemma IdentitiesFollowLoad(provider: Provider, load: Result<Snapshot, string>, log: seq<Event>, i: nat)
    requires Paired(ServicesOf(Loaded(provider, load).0, Loaded(provider, load).1), log)
    requires i < |log| && log[i].IdentityResolved? && log[i].identity.uid.Some?
    ensures var identity := log[i].identity;
            if provider.CmdPackageList? && load.Ok? then
              var packages := PackagesOf(load.value.entries, identity.uid.value);
              match identity.state
              case ExactIdentity => identity.package.Some? && packages == {identity.package.value}
              case MissingIdentity => identity.package.None? && packages == {}
              case AmbiguousIdentity => identity.package.None? && |packages| > 1
              case Unresolved => false
            else identity.state.Unresolved? && identity.package.None?
  {
    WarmIffLoaded(provider, load);
    var cache := ServicesOf(Loaded(provider, load).0, Loaded(provider, load).1);
    assert Answers(cache, log[i - 1], log[i]);
    if cache.Some? {
      UidStateCountsPackages(load.value, log[i].identity.uid.value);
      PackagesDecideUidState(load.value, log[i].identity.uid.value);
    }
  }

  function ReplayAll(state: State, logs: seq<seq<Event>>): State
    decreases |logs|
  {
    if logs == [] then state else Replay(ReplayAll(state, logs[..|logs| - 1]), logs[|logs| - 1])
  }

  function Flatten(logs: seq<seq<Event>>): seq<Event> {
    if logs == [] then [] else Flatten(logs[..|logs| - 1]) + logs[|logs| - 1]
  }

  lemma NoLogs(state: State)
    ensures ReplayAll(state, []) == state
  {
  }

  lemma NothingIsPaired(cache: Option<Index>)
    ensures Paired(cache, Flatten([]))
  {
  }

  lemma ReplayOneMore(state: State, logs: seq<seq<Event>>, log: seq<Event>)
    ensures ReplayAll(state, logs + [log]) == Replay(ReplayAll(state, logs), log)
    ensures Flatten(logs + [log]) == Flatten(logs) + log
  {
    assert (logs + [log])[..|logs|] == logs;
  }

  /** Replaying logs one after the other is replaying all of them at once. */
  lemma {:induction false} StepsReplay(state: State, logs: seq<seq<Event>>)
    ensures ReplayAll(state, logs) == Replay(state, Flatten(logs))
    decreases |logs|
  {
    if logs == [] {
    } else {
      StepsReplay(state, logs[..|logs| - 1]);
      ReplayConcat(state, Flatten(logs[..|logs| - 1]), logs[|logs| - 1]);
    }
  }
}
