/** From observed candidates to the emitted event log and the engine state: change filtering
    (`foreground/manager.rs`), cache invalidation (`identity_cache.rs`), identity lookup
    (`identity.rs`, `services/mod.rs`), dispatch and the reducer (`dispatch.rs`, `state.rs`). */
module Pipeline {
  import opened Basics
  import opened Candidates
  import opened PackageIndex

  // ----- Events and the state they are reduced to -----

  datatype IdentityState = ExactIdentity | MissingIdentity | AmbiguousIdentity | Unresolved

  datatype Identity = Identity(pid: Option<int>, uid: Option<nat>, package: Option<string>, state: IdentityState)

  datatype Event =
    | RuntimeStarted
    | RuntimeStopped
    | ExecCompleted
    | CandidateChanged(candidate: Candidate)
    | ForegroundUnknown(source: SourceKind)
    | IdentityResolved(identity: Identity)
    | CacheWarmed(coherent: bool, count: nat)
    | CacheWarmupFailed(error: string)
    | ServiceFailed(error: string)

  datatype CacheState = CacheState(warm: bool, coherent: bool, count: nat, lastError: Option<string>)

  datatype State = State(
    started: bool,
    completedJobs: nat,
    lastIdentity: Option<Identity>,
    cache: CacheState,
    lastError: Option<string>)

  /** `Reducer::apply` as a function. */
  function Reduce(state: State, event: Event): State {
    match event
    case RuntimeStarted => state.(started := true, lastError := None)
    case RuntimeStopped => state.(started := false)
    case ExecCompleted => state.(completedJobs := SaturatingAdd(state.completedJobs, 1))
    case CandidateChanged(_) => state
    case ForegroundUnknown(_) => state.(lastIdentity := None)
    case IdentityResolved(identity) => state.(lastIdentity := Some(identity))
    case CacheWarmed(coherent, count) => state.(cache := CacheState(true, coherent, count, None))
    case CacheWarmupFailed(error) => state.(cache := CacheState(false, false, 0, Some(error)))
    case ServiceFailed(error) => state.(lastError := Some(error))
  }

  /** Which events touch which part of the state, and how; everything else is left alone. */
  lemma ReduceByField(state: State, event: Event)
    requires state.completedJobs <= U64_MAX
    ensures var r := Reduce(state, event);
            && r.started == (event.RuntimeStarted? || (state.started && !event.RuntimeStopped?))
            && r.completedJobs == (if event.ExecCompleted? then Min(U64_MAX, state.completedJobs + 1)
                                   else state.completedJobs)
            && r.lastIdentity == (if event.IdentityResolved? then Some(event.identity)
                                  else if event.ForegroundUnknown? then None else state.lastIdentity)
            && r.cache == (if event.CacheWarmed? then CacheState(true, event.coherent, event.count, None)
                           else if event.CacheWarmupFailed? then CacheState(false, false, 0, Some(event.error))
                           else state.cache)
            && r.lastError == (if event.RuntimeStarted? then None
                               else if event.ServiceFailed? then Some(event.error) else state.lastError)
  {
  }

  /** How many events of a log complete a job. */
  function Completions(log: seq<Event>): nat {
    if log == [] then 0 else (if log[0].ExecCompleted? then 1 else 0) + Completions(log[1..])
  }

  /** Over any log the job count is the number of completions, cut off at the largest 64-bit
      number. */
  lemma {:induction false} ReplayCountsJobs(state: State, log: seq<Event>)
    requires state.completedJobs <= U64_MAX
    ensures Replay(state, log).completedJobs == Min(U64_MAX, state.completedJobs + Completions(log))
    decreases |log|
  {
    if log == [] {
    } else {
      ReplayCountsJobs(Reduce(state, log[0]), log[1..]);
    }
  }

  /** Replaying a log. */
  function Replay(state: State, log: seq<Event>): State
    decreases |log|
  {
    if log == [] then state else Replay(Reduce(state, log[0]), log[1..])
  }

  lemma {:induction false} ReplayConcat(state: State, a: seq<Event>, b: seq<Event>)
    ensures Replay(state, a + b) == Replay(Replay(state, a), b)
    decreases |a|
  {
    if a == [] {
      assert a + b == b;
    } else {
      assert (a + b)[1..] == a[1..] + b;
      ReplayConcat(Reduce(state, a[0]), a[1..], b);
    }
  }

  // ----- Dispatch and services -----

  datatype EngineAction =
    | RunExec(argv: seq<string>, captureStdout: bool)
    | ResolveIdentity(pid: Option<int>, uid: Option<nat>)
    | Shutdown

  function Dispatch(event: Event): seq<EngineAction> {
    if event.CandidateChanged? && (event.candidate.pid.Some? || event.candidate.uid.Some?)
    then [ResolveIdentity(event.candidate.pid, event.candidate.uid)]
    else []
  }

  /** `IdentityService::resolve`: nothing to say only about an action with neither pid nor uid. */
  function Resolve(cache: Option<Index>, pid: Option<int>, uid: Option<nat>): Option<Identity> {
    match uid
    case None => if pid.None? then None else Some(Identity(pid, None, None, Unresolved))
    case Some(u) =>
      if cache.None? then Some(Identity(pid, uid, None, Unresolved))
      else
        match cache.value.UidState(u)
        case Exact(package) => Some(Identity(pid, uid, Some(package), ExactIdentity))
        case Missing => Some(Identity(pid, uid, None, MissingIdentity))
        case Ambiguous(_) => Some(Identity(pid, uid, None, AmbiguousIdentity))
  }

  /** What is said about an identity: nothing about nobody, and without a uid or a cache only
      that it is unresolved; otherwise what the cache lists for the uid. */
  lemma ResolveByCases(cache: Option<Index>, pid: Option<int>, uid: Option<nat>)
    ensures pid.None? && uid.None? ==> Resolve(cache, pid, uid) == None
    ensures pid.Some? && uid.None? ==> Resolve(cache, pid, uid) == Some(Identity(pid, None, None, Unresolved))
    ensures uid.Some? && cache.None? ==> Resolve(cache, pid, uid) == Some(Identity(pid, uid, None, Unresolved))
    ensures uid.Some? && cache.Some? ==>
              var u: nat := uid.value;
              var listed := if u in cache.value.uidToPackages then cache.value.uidToPackages[u] else [];
              Resolve(cache, pid, uid) ==
              Some(if |listed| == 0 then Identity(pid, uid, None, MissingIdentity)
                   else if |listed| == 1 then Identity(pid, uid, Some(listed[0]), ExactIdentity)
                   else Identity(pid, uid, None, AmbiguousIdentity))
  {
  }

  function Perform(cache: Option<Index>, action: EngineAction): seq<Event> {
    match action
    case RunExec(_, _) => [ExecCompleted]
    case ResolveIdentity(pid, uid) =>
      (match Resolve(cache, pid, uid) case None => [] case Some(identity) => [IdentityResolved(identity)])
    case Shutdown => [RuntimeStopped]
  }

  function PerformAll(cache: Option<Index>, actions: seq<EngineAction>): seq<Event> {
    if actions == [] then [] else Perform(cache, actions[0]) + PerformAll(cache, actions[1..])
  }

  /** One event and everything the services answer to it. */
  function PublishOne(cache: Option<Index>, event: Event): seq<Event> {
    [event] + PerformAll(cache, Dispatch(event))
  }

  /** What the engine emits for a list of foreground events. */
  function Publish(cache: Option<Index>, events: seq<Event>): seq<Event> {
    if events == [] then [] else PublishOne(cache, events[0]) + Publish(cache, events[1..])
  }

  /** The mutable engine state. */
  class EngineState {
    var started: bool
    var completedJobs: nat
    var lastIdentity: Option<Identity>
    var cache: CacheState
    var lastError: Option<string>

    function View(): State
      reads this
    {
      State(started, completedJobs, lastIdentity, cache, lastError)
    }

    constructor ()
      ensures View() == State(false, 0, None, CacheState(false, false, 0, None), None)
    {
      started, completedJobs, lastIdentity, lastError := false, 0, None, None;
      cache := CacheState(false, false, 0, None);
    }

    method Apply(event: Event)
      modifies this
      ensures View() == Reduce(old(View()), event)
    {
      match event
      case RuntimeStarted =>
        started := true;
        lastError := None;
      case RuntimeStopped => started := false;
      case ExecCompleted => completedJobs := SaturatingAdd(completedJobs, 1);
      case CandidateChanged(_) =>
      case ForegroundUnknown(_) => lastIdentity := None;
      case IdentityResolved(identity) => lastIdentity := Some(identity);
      case CacheWarmed(coherent, count) => cache := CacheState(true, coherent, count, None);
      case CacheWarmupFailed(error) => cache := CacheState(false, false, 0, Some(error));
      case ServiceFailed(error) => lastError := Some(error);
    }

    method EmitAll(events: seq<Event>, emitted: seq<Event>) returns (log: seq<Event>)
      modifies this
      ensures log == emitted + events && View() == Replay(old(View()), events)
    {
      log := emitted;
      var i := 0;
      while i < |events|
        invariant 0 <= i <= |events|
        invariant log == emitted + events[..i]
        invariant Replay(View(), events[i..]) == Replay(old(View()), events)
      {
        assert events[i..][1..] == events[i + 1..];
        assert events[..i + 1] == events[..i] + [events[i]];
        Apply(events[i]);
        log := log + [events[i]];
        i := i + 1;
      }
      assert events[..i] == events && events[i..] == [];
    }

    method PerformActions(actions: seq<EngineAction>, index: Option<Index>,
        emitted: seq<Event>) returns (log: seq<Event>)
      modifies this
      ensures log == emitted + PerformAll(index, actions)
      ensures View() == Replay(old(View()), PerformAll(index, actions))
    {
      log := emitted;
      var k := 0;
      while k < |actions|
        invariant 0 <= k <= |actions|
        invariant log + PerformAll(index, actions[k..]) == emitted + PerformAll(index, actions)
        invariant Replay(View(), PerformAll(index, actions[k..])) == Replay(old(View()), PerformAll(index, actions))
      {
        PerformStep(View(), log, index, actions, k);
        log := EmitAll(Perform(index, actions[k]), log);
        k := k + 1;
      }
      assert actions[k..] == [];
    }

    method ApplyOne(event: Event, index: Option<Index>, emitted: seq<Event>) returns (log: seq<Event>)
      modifies this
      ensures log == emitted + PublishOne(index, event)
      ensures View() == Replay(old(View()), PublishOne(index, event))
    {
      var actions := Dispatch(event);
      assert ([event] + PerformAll(index, actions))[1..] == PerformAll(index, actions);
      Apply(event);
      log := emitted + [event];
      log := PerformActions(actions, index, log);
    }

    /** `apply_events`: the log grows by what the events publish, and the state moves by
        exactly the replay of that growth. */
    method ApplyEvents(events: seq<Event>, index: Option<Index>, emitted: seq<Event>) returns (log: seq<Event>)
      modifies this
      ensures log == emitted + Publish(index, events)
      ensures View() == Replay(old(View()), Publish(index, events))
    {
      log := emitted;
      var i := 0;
      while i < |events|
        invariant 0 <= i <= |events|
        invariant log + Publish(index, events[i..]) == emitted + Publish(index, events)
        invariant Replay(View(), Publish(index, events[i..])) == Replay(old(View()), Publish(index, events))
      {
        PublishStep(View(), log, index, events, i);
        log := ApplyOne(events[i], index, log);
        i := i + 1;
      }
      assert events[i..] == [];
    }
  }

  lemma PerformStep(state: State, log: seq<Event>, index: Option<Index>, actions: seq<EngineAction>, k: nat)
    requires k < |actions|
    ensures log + PerformAll(index, actions[k..]) ==
            (log + Perform(index, actions[k])) + PerformAll(index, actions[k + 1..])
    ensures Replay(state, PerformAll(index, actions[k..])) ==
            Replay(Replay(state, Perform(index, actions[k])), PerformAll(index, actions[k + 1..]))
  {
    assert actions[k..][1..] == actions[k + 1..];
    ReplayConcat(state, Perform(index, actions[k]), PerformAll(index, actions[k + 1..]));
  }

  lemma PublishStep(state: State, log: seq<Event>, index: Option<Index>, events: seq<Event>, i: nat)
    requires i < |events|
    ensures log + Publish(index, events[i..]) ==
            (log + PublishOne(index, events[i])) + Publish(index, events[i + 1..])
    ensures Replay(state, Publish(index, events[i..])) ==
            Replay(Replay(state, PublishOne(index, events[i])), Publish(index, events[i + 1..]))
  {
    assert events[i..][1..] == events[i + 1..];
    ReplayConcat(state, PublishOne(index, events[i]), Publish(index, events[i + 1..]));
  }

  // ----- Candidate changes and identities come in pairs -----

  predicate NeedsIdentity(event: Event) {
    event.CandidateChanged? && (event.candidate.pid.Some? || event.candidate.uid.Some?)
  }

  /** `answer` is the identity of the candidate in `event`. */
  predicate Answers(cache: Option<Index>, event: Event, answer: Event) {
    && NeedsIdentity(event) && answer.IdentityResolved?
    && answer.identity.pid == event.candidate.pid && answer.identity.uid == event.candidate.uid
    && Resolve(cache, event.candidate.pid, event.candidate.uid) == Some(answer.identity)
  }

  /** Each candidate with a pid or uid is followed at once by its identity, and there are no
      other identities. */
  ghost predicate Paired(cache: Option<Index>, log: seq<Event>) {
    && (forall i | 0 <= i < |log| && NeedsIdentity(log[i]) ::
          i + 1 < |log| && Answers(cache, log[i], log[i + 1]))
    && (forall i | 0 <= i < |log| && log[i].IdentityResolved? ::
          i > 0 && Answers(cache, log[i - 1], log[i]))
  }

  predicate ForegroundEvents(events: seq<Event>) {
    forall e | e in events :: e.CandidateChanged? || e.ForegroundUnknown?
  }

  lemma OneIsPaired(cache: Option<Index>, event: Event)
    requires event.CandidateChanged? || event.ForegroundUnknown?
    ensures var log := PublishOne(cache, event);
            Paired(cache, log) && |log| == if NeedsIdentity(event) then 2 else 1
  {
    if NeedsIdentity(event) {
      var actions := Dispatch(event);
      assert actions[1..] == [];
      assert PerformAll(cache, actions) == Perform(cache, actions[0]) + [];
    }
  }

  lemma PairedConcat(cache: Option<Index>, a: seq<Event>, b: seq<Event>)
    requires Paired(cache, a) && Paired(cache, b)
    ensures Paired(cache, a + b)
  {
  }

  /** Whatever foreground events are published, candidates and identities come in pairs. */
  lemma {:induction false} PublishedIsPaired(cache: Option<Index>, events: seq<Event>)
    requires ForegroundEvents(events)
    ensures Paired(cache, Publish(cache, events))
  {
    if events == [] {
    } else {
      assert events[0] in events;
      OneIsPaired(cache, events[0]);
      PublishedIsPaired(cache, events[1..]);
      PairedConcat(cache, PublishOne(cache, events[0]), Publish(cache, events[1..]));
    }
  }

  /** After publishing, the last identity in the state is that of the last candidate that
      had a pid or uid, unless the foreground became unknown since. */
  lemma LastIdentityAfterPublish(cache: Option<Index>, state: State, event: Event)
    requires event.CandidateChanged? || event.ForegroundUnknown?
    ensures Replay(state, Publish(cache, [event])).lastIdentity ==
            if event.ForegroundUnknown? then None
            else if NeedsIdentity(event) then Resolve(cache, event.candidate.pid, event.candidate.uid)
            else state.lastIdentity
  {
    var response := if NeedsIdentity(event) then Perform(cache, Dispatch(event)[0]) else [];
    PublishOneIs(cache, event);
    assert ([event] + response)[1..] == response;
    assert Replay(state, [event] + response) == Replay(Reduce(state, event), response);
    if NeedsIdentity(event) {
      var next := Reduce(state, event);
      assert response == [IdentityResolved(Resolve(cache, event.candidate.pid, event.candidate.uid).value)];
      assert response[1..] == [];
      assert Replay(next, response) == Replay(Reduce(next, response[0]), response[1..]);
    }
  }

  lemma PublishOneIs(cache: Option<Index>, event: Event)
    ensures Publish(cache, [event]) ==
            [event] + (if NeedsIdentity(event) then Perform(cache, Dispatch(event)[0]) else [])
  {
    var events: seq<Event> := [event];
    var actions := Dispatch(event);
    assert events[1..] == [] && Publish(cache, events[1..]) == [];
    if NeedsIdentity(event) {
      assert actions[1..] == [] && PerformAll(cache, actions[1..]) == [];
      assert PerformAll(cache, actions) == Perform(cache, actions[0]);
    }
  }
}
