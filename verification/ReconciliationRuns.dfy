/** The registrations over whole runs, for the v2 source alone and behind the automatic source. */
module ReconciliationRuns {
  import opened Basics
  import opened Paths
  import opened WatchTable
  import opened WatchTableFacts
  import opened WatchHandlers
  import opened Reconciliation
  import opened ReconciliationFacts

  // ----- One sync -----

  /** No recorded path is watched under another key. Needed only to hide the table, because
      hiding unregisters watches that stay open. */
  ghost predicate NothingReplaced(s: Sys, w: Watcher) {
    forall e | e in w.keys && e in s.src.watches :: SameKey(s, w, e)
  }

  lemma SortedPathsDistinct(paths: set<Path>)
    ensures Distinct(SortedPaths(paths))
  {
    PathLessIsTotal();
  }

  /** From whatever the handlers left behind, one sync restores the mirror. The reactor
      accepts every call on the way: nothing is removed that it does not have and nothing is
      added that it already has. Tokens of undisturbed watches survive. */
  lemma SyncRestores(cfg: Config, s: Sys, w: Watcher, hidden: bool)
    requires Behind(cfg, s, w) && (hidden ==> NothingReplaced(s, w))
    ensures Sync(s, w, hidden).Some?
    ensures var r := Sync(s, w, hidden).value;
            && r.0.src == s.src && r.0.ker.fs == s.ker.fs && r.0.ker.nextFd == s.ker.nextFd
            && Synced(cfg, r.0, r.1, hidden)
            && KeepsTokens(s, w, r.1, hidden)
  {
    var visible := Visible(s.src, hidden);
    var current := KeysOf(visible);
    var gone, changed := Gone(w.keys, current), Changed(w.keys, current);
    SortedPathsDistinct(w.keys.Keys - current.Keys);
    UnregisterLoop(cfg, s, w, gone);
    var (s1, w1) := UnregisterAll(s, w, gone).value;
    forall e | e in changed ensures !SameKey(s1, w1, e) {
      assert e in w.keys && !(e in current && current[e] == w.keys[e]);
      if e !in current {
        assert e in gone;
      }
    }
    DropLoop(cfg, s1, w1, changed);
    var w2 := DropAll(w1, changed);
    var es := SortedPaths(Visible(s1.src, hidden).Keys);
    SortedPathsDistinct(Visible(s1.src, hidden).Keys);
    RegisterLoop(cfg, s1, w2, current, es);
    RegisterThenRecord(s1, w2, current, w2.paths, es);
    var (s2, w3) := Interleaved(s1, w2, current, es).value;
    assert Sync(s, w, hidden) == Some((s2, w3));
    RestoredKeys(s2, w3, hidden, w2, es);
    CurrentKeysAreSynced(cfg, s2, w3, hidden);
    KeptTokens(s, w, w1, w2, w3, hidden);
  }

  /** Tokens of watches that are neither hidden, closed nor replaced stay what they are. */
  ghost predicate KeepsTokens(s: Sys, w: Watcher, d: Watcher, hidden: bool) {
    !hidden ==>
      forall t | t in w.tokens && SameKey(s, w, w.tokens[t]) :: t in d.tokens && d.tokens[t] == w.tokens[t]
  }

  lemma KeptTokens(s: Sys, w: Watcher, w1: Watcher, w2: Watcher, d: Watcher, hidden: bool)
    requires var current := KeysOf(Visible(s.src, hidden));
             && Shrunk(w, w1, Gone(w.keys, current))
             && Shrunk(w1, w2, Changed(w.keys, current))
             && Extended(w2, d, current, SortedPaths(Visible(s.src, hidden).Keys))
    ensures KeepsTokens(s, w, d, hidden)
  {
    var current := KeysOf(Visible(s.src, hidden));
    forall t | t in w.tokens && SameKey(s, w, w.tokens[t]) && !hidden
      ensures t in d.tokens && d.tokens[t] == w.tokens[t]
    {
      var e := w.tokens[t];
      assert e in current && current[e] == w.keys[e];
      assert e !in Gone(w.keys, current) && e !in Changed(w.keys, current);
      assert t in w1.tokens && t in w2.tokens;
    }
  }

  lemma RestoredKeys(s: Sys, d: Watcher, hidden: bool, kept: Watcher, es: seq<Path>)
    requires Extended(kept, d, KeysOf(Visible(s.src, hidden)), es)
    requires forall e | e in kept.keys ::
               e in Visible(s.src, hidden) && kept.keys[e] == s.src.watches[e].generation
    requires forall e :: e in es <==> e in Visible(s.src, hidden)
    ensures d.keys == KeysOf(Visible(s.src, hidden))
  {
  }

  lemma CurrentKeysAreSynced(cfg: Config, s: Sys, d: Watcher, hidden: bool)
    requires TableOk(cfg, s) && WatcherOk(d, s.src.nextGeneration, s.ker.nextToken) && InterestOk(s, d)
    requires d.keys == KeysOf(Visible(s.src, hidden))
    ensures Synced(cfg, s, d, hidden)
  {
    var visible := Visible(s.src, hidden);
    forall t ensures t in d.tokens ==> t in s.ker.interest && d.tokens[t] in visible {
      if t in d.tokens {
        assert d.tokens[t] in d.keys;
      }
    }
    assert s.ker.interest.Keys == d.tokens.Keys;
  }

  // ----- When hiding is refused -----

  lemma ReplacedIsUnknown(cfg: Config, s: Sys, w: Watcher, e: Path)
    requires Behind(cfg, s, w) && e in w.keys && e in s.src.watches && !SameKey(s, w, e)
    ensures Unregister(s, e).None?
  {
  }

  lemma {:induction false} ReplacedStopsLoop(cfg: Config, s: Sys, w: Watcher, es: seq<Path>, e: Path)
    requires Behind(cfg, s, w) && Distinct(es) && e in es && forall f | f in es :: f in w.keys
    requires e in s.src.watches && !SameKey(s, w, e)
    ensures UnregisterAll(s, w, es).None?
    decreases |es|
  {
    var f, rest := es[0], es[1..];
    assert f in es;
    DistinctTail(es);
    if f in s.src.watches && !SameKey(s, w, f) {
      ReplacedIsUnknown(cfg, s, w, f);
    } else {
      UnregisterOne(cfg, s, w, f);
      var next, d := Unregister(s, f).value, DropPath(w, f);
      assert forall g | g in rest :: g in d.keys;
      ReplacedStopsLoop(cfg, next, d, rest, e);
    }
  }

  /** Hiding the table succeeds exactly when no recorded watch was replaced since the last
      sync; otherwise the reactor is asked to remove a descriptor it never had. */
  lemma HidingSucceedsIff(cfg: Config, s: Sys, w: Watcher)
    requires Behind(cfg, s, w)
    ensures Sync(s, w, true).Some? <==> NothingReplaced(s, w)
  {
    if NothingReplaced(s, w) {
      SyncRestores(cfg, s, w, true);
    } else {
      var e :| e in w.keys && e in s.src.watches && !SameKey(s, w, e);
      var current: map<Path, nat> := KeysOf(Visible(s.src, true));
      SortedPathsDistinct(w.keys.Keys - current.Keys);
      ReplacedStopsLoop(cfg, s, w, Gone(w.keys, current), e);
    }
  }

  // ----- What one handler call does -----

  /** Watches that survive are not replaced. */
  ghost predicate Steady(cfg: Config, a: Sys, b: Sys) {
    && Evolved(cfg, a, b)
    && forall e | e in a.src.watches && e in b.src.watches :: SameWatch(a.src.watches[e], b.src.watches[e])
  }

  /** One handler call on a file system that stands still: any change of the table when it
      stays visible, but only steady changes when it ends up hidden. */
  ghost predicate FrontChange(cfg: Config, a: Front, b: Front) {
    Evolved(cfg, a.sys, b.sys) && (Hidden(b.mode) ==> Steady(cfg, a.sys, b.sys))
  }

  lemma PollFrontChange(cfg: Config, front: Front, o: Oracle)
    requires TableOk(cfg, front.sys) && front.sys.ker.fs.Listed()
    ensures Tidy(cfg, front.sys, PollFront(cfg, front, o).0.sys)
    ensures PollFront(cfg, front, o).0.mode.Automatic? == front.mode.Automatic?
  {
    EvolvedReflexive(cfg, front.sys);
    PollIsTidy(cfg, front.sys, SortedPaths(front.sys.src.watches.Keys));
  }

  lemma PriorityFrontChange(cfg: Config, front: Front, e: Path, reading: Result<string, EngineError>, o: Oracle)
    requires TableOk(cfg, front.sys) && front.sys.ker.fs.Listed()
    ensures Tidy(cfg, front.sys, PriorityFront(cfg, front, e, reading, o).0.sys)
  {
    EvolvedReflexive(cfg, front.sys);
    EventsPathIsTidy(cfg, front.sys, e, reading);
  }

  lemma StaleFrontChange(cfg: Config, front: Front, e: Path, o: Oracle)
    requires TableOk(cfg, front.sys) && front.sys.ker.fs.Listed()
    ensures FrontChange(cfg, front, StaleFront(cfg, front, e, o).0)
  {
    EvolvedReflexive(cfg, front.sys);
    StaleEventsPathCompletes(cfg, front.sys, e);
  }

  /** Does the automatic source answer events on `path` by polling? */
  predicate Polled(cfg: Config, v1Hints: seq<Path>, mode: Mode, path: Path) {
    mode.Automatic? && (path in v1Hints || !(path in cfg.roots || UnderRoot(cfg, path)))
  }

  /** What any number of attempts at one event can have made of `start`. */
  ghost predicate Reached(cfg: Config, v1Hints: seq<Path>, start: Front, now: Front, path: Path, kind: EventKind) {
    && now.mode.Automatic? == start.mode.Automatic?
    && if kind == Departure && !Polled(cfg, v1Hints, start.mode, path) then
         now.sys == start.sys || now.sys == HandleFsEvent(cfg, start.sys, path, Departure).0
       else Tidy(cfg, start.sys, now.sys)
  }

  lemma DepartureAnswersNothing(cfg: Config, s: Sys, path: Path)
    ensures HandleFsEvent(cfg, s, path, Departure).1 == Ok(None)
  {
  }

  lemma AttemptReaches(cfg: Config, v1Hints: seq<Path>, start: Front, now: Front, path: Path, kind: EventKind,
      o: Oracle)
    requires TableOk(cfg, start.sys) && start.sys.ker.fs.Listed()
    requires TableOk(cfg, now.sys) && now.sys.ker.fs == start.sys.ker.fs
    requires Reached(cfg, v1Hints, start, now, path, kind)
    ensures Reached(cfg, v1Hints, start, FsEventFront(cfg, v1Hints, now, path, kind, o).0, path, kind)
  {
    if Polled(cfg, v1Hints, now.mode, path) {
      PollFrontChange(cfg, now, o);
      TidyTransitive(cfg, start.sys, now.sys, PollFront(cfg, now, o).0.sys);
    } else if kind == Departure {
      DepartureAnswersNothing(cfg, start.sys, path);
      RepeatIsNoop(cfg, start.sys, path, Departure);
    } else {
      FsEventIsTidy(cfg, now.sys, path, kind);
      TidyTransitive(cfg, start.sys, now.sys, HandleFsEvent(cfg, now.sys, path, kind).0);
    }
  }

  lemma ReachedIsEvolved(cfg: Config, v1Hints: seq<Path>, start: Front, now: Front, path: Path, kind: EventKind)
    requires TableOk(cfg, start.sys) && start.sys.ker.fs.Listed()
    requires Reached(cfg, v1Hints, start, now, path, kind)
    ensures Steady(cfg, start.sys, now.sys)
  {
    EvolvedReflexive(cfg, start.sys);
    FsEventIsTidy(cfg, start.sys, path, kind);
  }

  lemma {:induction false} AttemptsReach(
      cfg: Config, v1Hints: seq<Path>, start: Front, now: Front, path: Path, kind: EventKind, os: seq<Oracle>)
    requires TableOk(cfg, start.sys) && start.sys.ker.fs.Listed()
    requires Reached(cfg, v1Hints, start, now, path, kind)
    ensures Reached(cfg, v1Hints, start, Attempts(cfg, v1Hints, now, path, kind, os).0, path, kind)
    decreases |os|
  {
    if os == [] {
    } else {
      ReachedIsEvolved(cfg, v1Hints, start, now, path, kind);
      AttemptReaches(cfg, v1Hints, start, now, path, kind, os[0]);
      AttemptsReach(cfg, v1Hints, start, FsEventFront(cfg, v1Hints, now, path, kind, os[0]).0, path, kind, os[1..]);
    }
  }

  lemma AttemptsChange(cfg: Config, v1Hints: seq<Path>, front: Front, path: Path, kind: EventKind, os: seq<Oracle>)
    requires TableOk(cfg, front.sys) && front.sys.ker.fs.Listed()
    ensures FrontChange(cfg, front, Attempts(cfg, v1Hints, front, path, kind, os).0)
  {
    EvolvedReflexive(cfg, front.sys);
    AttemptsReach(cfg, v1Hints, front, front, path, kind, os);
    ReachedIsEvolved(cfg, v1Hints, front, Attempts(cfg, v1Hints, front, path, kind, os).0, path, kind);
  }

  // ----- Runs -----

  lemma {:induction false} UnregisterKeepsTable(cfg: Config, s: Sys, w: Watcher, es: seq<Path>)
    requires TableOk(cfg, s)
    ensures UnregisterAll(s, w, es).Some? ==>
              var r := UnregisterAll(s, w, es).value.0;
              TableOk(cfg, r) && r.src == s.src && r.ker.fs == s.ker.fs
    decreases |es|
  {
    if es == [] {
    } else if Unregister(s, es[0]).Some? {
      var next := Unregister(s, es[0]).value;
      InterestKeepsTable(cfg, s, next);
      UnregisterKeepsTable(cfg, next, DropPath(w, es[0]), es[1..]);
    }
  }

  lemma {:induction false} RegisterKeepsTable(cfg: Config, s: Sys, registered: set<Path>, es: seq<Path>)
    requires TableOk(cfg, s) && forall e | e in es :: e in s.src.watches
    ensures RegisterFds(s, registered, es).Some? ==>
              var r := RegisterFds(s, registered, es).value.0;
              TableOk(cfg, r) && r.src == s.src && r.ker.fs == s.ker.fs
    decreases |es|
  {
    if es == [] {
    } else {
      var e := es[0];
      if e in registered {
        RegisterKeepsTable(cfg, s, registered, es[1..]);
      } else if AddPriority(s, e).Some? {
        var next := AddPriority(s, e).value;
        assert Held(s, s.src.watches[e].fd);
        InterestKeepsTable(cfg, s, next);
        RegisterKeepsTable(cfg, next, registered, es[1..]);
      }
    }
  }

  lemma SyncKeepsTable(cfg: Config, s: Sys, w: Watcher, hidden: bool)
    requires TableOk(cfg, s)
    ensures Sync(s, w, hidden).Some? ==>
              var r := Sync(s, w, hidden).value.0;
              TableOk(cfg, r) && r.src == s.src && r.ker.fs == s.ker.fs
  {
    var current := KeysOf(Visible(s.src, hidden));
    UnregisterKeepsTable(cfg, s, w, Gone(w.keys, current));
    match UnregisterAll(s, w, Gone(w.keys, current))
    case None =>
    case Some((s1, w1)) =>
      var w2 := DropAll(w1, Changed(w.keys, current));
      RegisterKeepsTable(cfg, s1, w2.paths, SortedPaths(Visible(s1.src, hidden).Keys));
  }

  /** The invariant of a running engine. Below saturation of the generation counter the
      reactor never refuses, and the registrations are in step unless a handler failed. */
  ghost predicate EngineOk(cfg: Config, engine: Engine) {
    && TableOk(cfg, engine.front.sys) && engine.front.sys.ker.fs.Listed()
    && (Unsaturated(engine.front.sys) ==>
          && engine.status != ReactorFailed
          && (engine.status == Running ==> Synced(cfg, engine.front.sys, engine.w, Hidden(engine.front.mode))))
  }

  lemma SteadyReplacesNothing(cfg: Config, a: Sys, b: Sys, w: Watcher, hidden: bool)
    requires Synced(cfg, a, w, hidden) && Steady(cfg, a, b)
    ensures NothingReplaced(b, w)
  {
  }

  lemma AfterHandlerOk(cfg: Config, engine: Engine, r: (Front, Answer))
    requires EngineOk(cfg, engine) && engine.status == Running
    requires FrontChange(cfg, engine.front, r.0)
    ensures EngineOk(cfg, AfterHandler(engine, r))
    ensures engine.front.sys.src.nextGeneration <= AfterHandler(engine, r).front.sys.src.nextGeneration
  {
    var a, b, w := engine.front.sys, r.0.sys, engine.w;
    SyncKeepsTable(cfg, b, w, Hidden(r.0.mode));
    if Unsaturated(b) && r.1.Ok? {
      SyncedIsBehind(cfg, a, w, Hidden(engine.front.mode));
      HandlersKeepBehind(cfg, a, b, w);
      if Hidden(r.0.mode) {
        SteadyReplacesNothing(cfg, a, b, w, Hidden(engine.front.mode));
      }
      SyncRestores(cfg, b, w, Hidden(r.0.mode));
    }
  }

  lemma WorldKeepsSynced(cfg: Config, s: Sys, r: Sys, w: Watcher, hidden: bool)
    requires TableOk(cfg, s) && r == s.(ker := s.ker.(fs := r.ker.fs))
    ensures TableOk(cfg, r)
    ensures Synced(cfg, s, w, hidden) ==> Synced(cfg, r, w, hidden)
  {
    forall fd | Held(s, fd) ensures Held(r, fd) {
      var e :| e in s.src.watches && s.src.watches[e].fd == fd;
      assert e in r.src.watches && r.src.watches[e].fd == fd;
    }
    forall e | e in r.src.watches ensures WatchOk(cfg, r, e) {
      assert WatchOk(cfg, s, e);
    }
  }

  lemma WorldKeepsEngine(cfg: Config, engine: Engine, next: Engine, fs: Fs)
    requires EngineOk(cfg, engine) && fs.Listed()
    requires next == engine.(front := engine.front.(sys := engine.front.sys.(ker := engine.front.sys.ker.(fs := fs))))
    ensures EngineOk(cfg, next)
  {
    WorldKeepsSynced(cfg, engine.front.sys, next.front.sys, engine.w, Hidden(engine.front.mode));
  }

  lemma StepOk(cfg: Config, v1Hints: seq<Path>, engine: Engine, a: Action)
    requires EngineOk(cfg, engine)
    ensures EngineOk(cfg, Step(cfg, v1Hints, engine, a))
    ensures engine.front.sys.src.nextGeneration <= Step(cfg, v1Hints, engine, a).front.sys.src.nextGeneration
  {
    var front := engine.front;
    if engine.status == Running {
      match a
      case World(fs) =>
        WorldKeepsSynced(cfg, front.sys, front.sys.(ker := front.sys.ker.(fs := fs)), engine.w, Hidden(front.mode));
      case FsEvent(path, mask, attempts) =>
        AttemptsChange(cfg, v1Hints, front, path, KindOf(mask), attempts);
        AfterHandlerOk(cfg, engine, Attempts(cfg, v1Hints, front, path, KindOf(mask), attempts));
      case Ready(token, error, priority, reading, o) =>
        if token in engine.w.tokens {
          var e := engine.w.tokens[token];
          if error {
            StaleFrontChange(cfg, front, e, o);
            AfterHandlerOk(cfg, engine, StaleFront(cfg, front, e, o));
          } else if priority {
            PriorityFrontChange(cfg, front, e, reading, o);
            AfterHandlerOk(cfg, engine, PriorityFront(cfg, front, e, reading, o));
          }
        }
      case PollNow(o) =>
        PollFrontChange(cfg, front, o);
        AfterHandlerOk(cfg, engine, PollFront(cfg, front, o));
    }
  }

  /** The watcher once the sync after a handler call that answered is done. */
  function Goal(engine: Engine, front: Front): Engine {
    AfterHandler(engine, (front, Ok(None)))
  }

  /** Once in step, the reactor refuses a sync only if the generation counter is exhausted. */
  lemma RefusedMeansSaturated(cfg: Config, engine: Engine)
    requires EngineOk(cfg, engine) && engine.status == ReactorFailed
    ensures !Unsaturated(engine.front.sys)
  {
  }

  lemma PollGoalOk(cfg: Config, engine: Engine, o: Oracle)
    requires EngineOk(cfg, engine) && engine.status == Running
    ensures EngineOk(cfg, Goal(engine, PollFront(cfg, engine.front, o).0))
  {
    PollFrontChange(cfg, engine.front, o);
    AfterHandlerOk(cfg, engine, (PollFront(cfg, engine.front, o).0, Ok(None)));
  }

  lemma StaleGoalOk(cfg: Config, engine: Engine, e: Path, o: Oracle)
    requires EngineOk(cfg, engine) && engine.status == Running
    ensures EngineOk(cfg, Goal(engine, StaleFront(cfg, engine.front, e, o).0))
  {
    StaleFrontChange(cfg, engine.front, e, o);
    AfterHandlerOk(cfg, engine, (StaleFront(cfg, engine.front, e, o).0, Ok(None)));
  }

  lemma PriorityGoalOk(cfg: Config, engine: Engine, e: Path, reading: Result<string, EngineError>, o: Oracle)
    requires EngineOk(cfg, engine) && engine.status == Running
    ensures EngineOk(cfg, Goal(engine, PriorityFront(cfg, engine.front, e, reading, o).0))
  {
    PriorityFrontChange(cfg, engine.front, e, reading, o);
    AfterHandlerOk(cfg, engine, (PriorityFront(cfg, engine.front, e, reading, o).0, Ok(None)));
  }

  lemma AttemptsGoalOk(cfg: Config, v1Hints: seq<Path>, engine: Engine, path: Path, kind: EventKind, os: seq<Oracle>)
    requires EngineOk(cfg, engine) && engine.status == Running
    ensures EngineOk(cfg, Goal(engine, Attempts(cfg, v1Hints, engine.front, path, kind, os).0))
  {
    AttemptsChange(cfg, v1Hints, engine.front, path, kind, os);
    AfterHandlerOk(cfg, engine, (Attempts(cfg, v1Hints, engine.front, path, kind, os).0, Ok(None)));
  }

  lemma {:induction false} RunOk(cfg: Config, v1Hints: seq<Path>, engine: Engine, actions: seq<Action>)
    requires EngineOk(cfg, engine)
    ensures EngineOk(cfg, Run(cfg, v1Hints, engine, actions))
    decreases |actions|
  {
    if actions == [] {
    } else {
      StepOk(cfg, v1Hints, engine, actions[0]);
      RunOk(cfg, v1Hints, Step(cfg, v1Hints, engine, actions[0]), actions[1..]);
    }
  }

  /** The first sync of a watcher whose reactor has no registrations yet. */
  lemma FirstSyncOk(cfg: Config, front: Front)
    requires TableOk(cfg, front.sys) && front.sys.ker.fs.Listed() && front.sys.ker.interest == map[]
    ensures EngineOk(cfg, Goal(Engine(front, EmptyWatcher, Running), front))
  {
    SyncKeepsTable(cfg, front.sys, EmptyWatcher, Hidden(front.mode));
    if Unsaturated(front.sys) {
      assert Behind(cfg, front.sys, EmptyWatcher);
      SyncRestores(cfg, front.sys, EmptyWatcher, Hidden(front.mode));
    }
  }

  lemma BeginOk(cfg: Config, fs: Fs, mode: Mode)
    requires fs.Listed()
    ensures EngineOk(cfg, Begin(cfg, fs, mode))
  {
    FreshFindsWatchable(cfg, fs);
    FirstSyncOk(cfg, Front(mode, Fresh(cfg, fs)));
  }

  /** In every run in which the generation counter stays below its maximum, the reactor never
      refuses a call, and as long as no handler failed the registrations mirror the table. */
  lemma RunsStaySynced(cfg: Config, v1Hints: seq<Path>, fs: Fs, mode: Mode, actions: seq<Action>)
    requires fs.Listed()
    requires Unsaturated(Run(cfg, v1Hints, Begin(cfg, fs, mode), actions).front.sys)
    ensures var engine := Run(cfg, v1Hints, Begin(cfg, fs, mode), actions);
            && engine.status != ReactorFailed
            && (engine.status == Running ==> Synced(cfg, engine.front.sys, engine.w, Hidden(engine.front.mode)))
  {
    BeginOk(cfg, fs, mode);
    RunOk(cfg, v1Hints, Begin(cfg, fs, mode), actions);
  }

  // ----- Why the conditions are needed -----

  /** A replaced watch has a descriptor the reactor does not have. */
  lemma ReplacementIsUnknown(cfg: Config, s: Sys, e: Path)
    requires TableOk(cfg, s) && s.ker.fs.Listed() && e in s.src.watches && Watchable(cfg, s.ker.fs, e)
    ensures var r := HandleStaleEventsPath(cfg, s, e).0;
            e in r.src.watches && r.src.watches[e].fd !in r.ker.interest.Values
  {
    var closed := Remove(s, {e});
    var r := RescanRoots(cfg, closed);
    RemoveEvolves(cfg, s, {e});
    RescanIsTidy(cfg, closed);
    hide RescanRoots;
    assert Opened(cfg, closed, r, e);
    forall t | t in r.ker.interest ensures r.ker.interest[t] != r.src.watches[e].fd {
      assert Held(closed, closed.ker.interest[t]);
      var f :| f in closed.src.watches && closed.src.watches[f].fd == closed.ker.interest[t];
      assert WatchOk(cfg, closed, f);
    }
  }

  /** With the counter at its maximum, a replaced watch is noticed by the sync exactly if its
      old generation was below the maximum; otherwise it keeps its key and its path stays
      recorded, so the new descriptor is never registered. */
  lemma SaturatedReplacementNoticedIff(cfg: Config, s: Sys, w: Watcher, e: Path)
    requires Synced(cfg, s, w, false) && s.ker.fs.Listed()
    requires s.src.nextGeneration == U64_MAX
    requires e in s.src.watches && Watchable(cfg, s.ker.fs, e)
    ensures var r := HandleStaleEventsPath(cfg, s, e).0;
            && e in r.src.watches && e in w.paths
            && r.src.watches[e].fd !in r.ker.interest.Values
            && (e in Changed(w.keys, KeysOf(r.src.watches)) <==> s.src.watches[e].generation != U64_MAX)
  {
    ReplacementIsUnknown(cfg, s, e);
    hide RescanRoots, TableOk, Watchable;
    ReopenedAtMaximum(cfg, Remove(s, {e}), e);
  }

  lemma {:induction false} AddedAtMaximum(cfg: Config, s: Sys, dirs: seq<Path>, e: Path)
    requires s.src.nextGeneration == U64_MAX
    requires e in AddEntries(cfg, s, dirs).src.watches && e !in s.src.watches
    ensures AddEntries(cfg, s, dirs).src.watches[e].generation == U64_MAX
    decreases |dirs|
  {
    if dirs == [] {
    } else {
      var next := AddEntry(cfg, s, dirs[0]);
      if e in next.src.watches {
        AddedStays(cfg, next, dirs[1..], e);
      } else {
        AddedAtMaximum(cfg, next, dirs[1..], e);
      }
    }
  }

  lemma {:induction false} AddedStays(cfg: Config, s: Sys, dirs: seq<Path>, e: Path)
    requires e in s.src.watches
    ensures e in AddEntries(cfg, s, dirs).src.watches
    ensures AddEntries(cfg, s, dirs).src.watches[e] == s.src.watches[e]
    decreases |dirs|
  {
    if dirs == [] {
    } else {
      AddedStays(cfg, AddEntry(cfg, s, dirs[0]), dirs[1..], e);
    }
  }

  lemma ReopenedAtMaximum(cfg: Config, closed: Sys, e: Path)
    requires closed.src.nextGeneration == U64_MAX && e !in closed.src.watches
    requires e in RescanRoots(cfg, closed).src.watches
    ensures RescanRoots(cfg, closed).src.watches[e].generation == U64_MAX
  {
    var pruned := Remove(closed, Vanished(closed));
    AddedAtMaximum(cfg, pruned, Entries(closed.ker.fs, cfg.roots), e);
  }
}
