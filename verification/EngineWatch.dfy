/** The engine watcher as a mutable object (`services/watch.rs`): its sync loops, its inotify
    table, and the poll loop that turns readiness into published events. */
module EngineWatch {
  import opened Basics
  import opened Paths
  import opened Candidates
  import opened PackageIndex
  import opened WatchTable
  import opened CgroupV2Source
  import opened AutoSource
  import opened Pipeline
  import opened ChangeFilter
  import opened R = Reconciliation
  import opened PollLoop
  import Runs = ReconciliationRuns
  import CandidateRuns
  import WatchTableFacts

  /** The two sources the watcher is used with. */
  datatype Source = Direct(direct: CgroupV2EventsSource) | Auto(auto: AutoForegroundSource)

  class PriorityWatcher {
    const source: Source
    const v2: CgroupV2EventsSource
    var keys: map<Path, nat>
    var paths: set<Path>
    var tokens: map<nat, Path>

    ghost function Repr(): set<object> {
      {this, v2, v2.kernel} + (if source.Auto? then {source.auto as object} else {})
    }

    ghost predicate Valid()
      reads Repr()
    {
      match source
      case Direct(d) => d == v2
      case Auto(a) => a.v2 == v2 && a.Valid()
    }

    function Front(): R.Front
      requires Valid()
      reads Repr()
    {
      match source
      case Direct(d) => R.Front(V2Only, d.View())
      case Auto(a) => a.View()
    }

    /** Whether the automatic source hides the v2 table at present. */
    predicate SourceHidden()
      reads if source.Auto? then {source.auto} else {}
    {
      source.Auto? && source.auto.v1Available
    }

    function Tables(): Watcher
      reads this
    {
      Watcher(keys, paths, tokens)
    }

    constructor (source: Source)
      requires source.Auto? ==> source.auto.Valid()
      ensures Valid() && Tables() == EmptyWatcher && this.source == source
      ensures v2 == if source.Auto? then source.auto.v2 else source.direct
    {
      this.source := source;
      this.v2 := if source.Auto? then source.auto.v2 else source.direct;
      keys, paths, tokens := map[], {}, map[];
    }

    method DropPriorityPath(path: Path)
      modifies this
      ensures Tables() == DropPath(old(Tables()), path)
    {
      paths := paths - {path};
      keys := keys - {path};
      tokens := map t | t in tokens && tokens[t] != path :: tokens[t];
    }

    /** Ask the reactor to forget the path's descriptor; nothing to do without a watch. */
    method UnregisterPriorityFd(path: Path) returns (ok: bool)
      requires Valid()
      modifies v2.kernel
      ensures Valid()
      ensures match Unregister(old(Front()).sys, path)
              case None => !ok
              case Some(s) => ok && Front() == old(Front()).(sys := s)
    {
      if path !in v2.watches {
        return true;
      }
      ok := v2.kernel.Del(v2.watches[path].fd);
    }

    /** `register_priority_fds`: register every visible path that is not registered yet. */
    method RegisterPriorityFds(registered: set<Path>) returns (r: Option<seq<(nat, Path)>>)
      requires Valid()
      modifies v2.kernel
      ensures Valid()
      ensures var visible := Visible(old(Front()).sys.src, Hidden(old(Front()).mode));
              match RegisterFds(old(Front()).sys, registered, SortedPaths(visible.Keys))
              case None => r == None
              case Some((s, regs)) => r == Some(regs) && Front() == old(Front()).(sys := s)
    {
      hide RegisterFds, PathLess;
      var hints := if SourceHidden() then {} else v2.watches.Keys;
      assert hints == Visible(Front().sys.src, Hidden(Front().mode)).Keys;
      r := RegisterPaths(SortedPaths(hints), registered);
    }

    method RegisterPaths(es: seq<Path>, registered: set<Path>) returns (r: Option<seq<(nat, Path)>>)
      requires forall e | e in es :: e in v2.watches
      modifies v2.kernel
      ensures match RegisterFds(old(v2.View()), registered, es)
              case None => r == None
              case Some((s, regs)) => r == Some(regs) && v2.View() == s
    {
      ghost var goal := RegisterFds(v2.View(), registered, es);
      var regs: seq<(nat, Path)> := [];
      var i := 0;
      assert es[0..] == es;
      PrependNothing(goal);
      hide RegisterFds, PrependRegs;
      while i < |es|
        invariant 0 <= i <= |es|
        invariant goal == PrependRegs(regs, RegisterFds(v2.View(), registered, es[i..]))
      {
        assert es[i..][1..] == es[i + 1..];
        var e := es[i];
        RegisterUnfolds(v2.View(), registered, es[i..], regs);
        if e !in registered {
          var token := v2.kernel.AddPriority(v2.watches[e].fd);
          if token.None? {
            return None;
          }
          regs := regs + [(token.value, e)];
        }
        i := i + 1;
      }
      assert es[i..] == [];
      RegisterEnds(v2.View(), registered, regs);
      r := Some(regs);
    }

    /** The whole sync computes `Sync`. */
    method SyncForegroundPriorityFds() returns (ok: bool)
      requires Valid()
      modifies this, v2.kernel
      ensures Valid()
      ensures match Sync(old(Front()).sys, old(Tables()), Hidden(old(Front()).mode))
              case None => !ok
              case Some((s, w)) => ok && Front() == old(Front()).(sys := s) && Tables() == w
    {
      var current := if SourceHidden() then map[] else KeysOf(v2.watches);
      var previous := keys;
      ok := DropGone(Gone(previous, current));
      if !ok {
        return;
      }
      DropChanged(Changed(previous, current));
      var regs := RegisterPriorityFds(paths);
      if regs.None? {
        return false;
      }
      RecordRegistrations(regs.value, current);
    }

    method DropGone(gone: seq<Path>) returns (ok: bool)
      requires Valid()
      modifies this, v2.kernel
      ensures Valid()
      ensures match UnregisterAll(old(Front()).sys, old(Tables()), gone)
              case None => !ok
              case Some((s, w)) => ok && Front() == old(Front()).(sys := s) && Tables() == w
    {
      ghost var start, tables := Front(), Tables();
      var i := 0;
      while i < |gone|
        invariant 0 <= i <= |gone| && Valid()
        invariant Front() == start.(sys := Front().sys)
        invariant UnregisterAll(Front().sys, Tables(), gone[i..]) == UnregisterAll(start.sys, tables, gone)
      {
        assert gone[i..][1..] == gone[i + 1..];
        var removed := UnregisterPriorityFd(gone[i]);
        if !removed {
          return false;
        }
        DropPriorityPath(gone[i]);
        i := i + 1;
      }
      assert gone[i..] == [];
      return true;
    }

    method DropChanged(changed: seq<Path>)
      modifies this
      ensures Tables() == DropAll(old(Tables()), changed)
    {
      var i := 0;
      while i < |changed|
        invariant 0 <= i <= |changed|
        invariant DropAll(Tables(), changed[i..]) == DropAll(old(Tables()), changed)
      {
        assert changed[i..][1..] == changed[i + 1..];
        DropPriorityPath(changed[i]);
        i := i + 1;
      }
      assert changed[i..] == [];
    }

    method RecordRegistrations(regs: seq<(nat, Path)>, current: map<Path, nat>)
      modifies this
      ensures Tables() == RecordAll(old(Tables()), current, regs)
    {
      var i := 0;
      while i < |regs|
        invariant 0 <= i <= |regs|
        invariant RecordAll(Tables(), current, regs[i..]) == RecordAll(old(Tables()), current, regs)
      {
        assert regs[i..][1..] == regs[i + 1..];
        var (token, path) := regs[i];
        paths := paths + {path};
        if path in current {
          keys := keys[path := current[path]];
        }
        tokens := tokens[token := path];
        i := i + 1;
      }
      assert regs[i..] == [];
    }

    // ----- Handlers, dispatched on the source -----

    method PollCurrentSource(o: Oracle) returns (answer: Answer)
      requires Valid()
      modifies Repr()
      ensures Valid() && Tables() == old(Tables())
      ensures (Front(), answer) == PollFront(v2.cfg, old(Front()), o)
    {
      match source
      case Direct(d) => answer := d.PollCurrent();
      case Auto(a) => answer := a.PollCurrent(o);
    }

    method HandlePriority(path: Path, reading: Result<string, EngineError>, o: Oracle) returns (answer: Answer)
      requires Valid()
      modifies Repr()
      ensures Valid() && Tables() == old(Tables())
      ensures (Front(), answer) == PriorityFront(v2.cfg, old(Front()), path, reading, o)
    {
      match source
      case Direct(d) => answer := d.HandleEventsPath(path, reading);
      case Auto(a) => answer := a.HandlePriorityEvent(path, reading, o);
    }

    method HandleStale(path: Path, o: Oracle) returns (answer: Answer)
      requires Valid()
      modifies Repr()
      ensures Valid() && Tables() == old(Tables())
      ensures (Front(), answer) == StaleFront(v2.cfg, old(Front()), path, o)
    {
      match source
      case Direct(d) => answer := d.HandleStaleEventsPath(path);
      case Auto(a) => answer := a.HandleStalePriorityEvent(path, o);
    }

    function V1Hints(): seq<Path> {
      if source.Auto? then source.auto.v1Hints else []
    }

    /** The manager's retry loop: one oracle for each attempt. */
    method HandleFsEventRetrying(path: Path, mask: bv32, os: seq<Oracle>) returns (answer: Answer)
      requires Valid()
      modifies Repr()
      ensures Valid() && Tables() == old(Tables())
      ensures (Front(), answer) == Attempts(v2.cfg, V1Hints(), old(Front()), path, KindOf(mask), os)
    {
      ghost var start := Front();
      var i := 0;
      while i < |os|
        invariant 0 <= i <= |os| && Valid() && Tables() == old(Tables())
        invariant Attempts(v2.cfg, V1Hints(), Front(), path, KindOf(mask), os[i..])
               == Attempts(v2.cfg, V1Hints(), start, path, KindOf(mask), os)
      {
        assert os[i..][1..] == os[i + 1..];
        match source {
          case Direct(d) => answer := d.HandleFsEventWithMask(path, mask);
          case Auto(a) => answer := a.HandleFsEventWithMask(path, mask, os[i]);
        }
        if answer != Ok(None) {
          return;
        }
        i := i + 1;
      }
      assert os[i..] == [];
      return Ok(None);
    }
  }

  function PrependRegs(regs: seq<(nat, Path)>, r: Option<(Sys, seq<(nat, Path)>)>): Option<(Sys, seq<(nat, Path)>)> {
    match r
    case None => None
    case Some((s, later)) => Some((s, regs + later))
  }

  lemma PrependNothing(r: Option<(Sys, seq<(nat, Path)>)>)
    ensures PrependRegs([], r) == r
  {
    if r.Some? {
      assert [] + r.value.1 == r.value.1;
    }
  }

  lemma RegisterEnds(s: Sys, registered: set<Path>, regs: seq<(nat, Path)>)
    ensures PrependRegs(regs, RegisterFds(s, registered, [])) == Some((s, regs))
  {
    assert regs + [] == regs;
  }

  lemma RegisterUnfolds(s: Sys, registered: set<Path>, es: seq<Path>, regs: seq<(nat, Path)>)
    requires es != [] && forall e | e in es :: e in s.src.watches
    ensures PrependRegs(regs, RegisterFds(s, registered, es)) ==
            if es[0] in registered then PrependRegs(regs, RegisterFds(s, registered, es[1..]))
            else
              match R.AddPriority(s, es[0])
              case None => None
              case Some(next) => PrependRegs(regs + [(s.ker.nextToken, es[0])], RegisterFds(next, registered, es[1..]))
  {
    if es[0] !in registered && R.AddPriority(s, es[0]).Some? {
      var next := R.AddPriority(s, es[0]).value;
      if RegisterFds(next, registered, es[1..]).Some? {
        ConcatAssociative(regs, [(s.ker.nextToken, es[0])], RegisterFds(next, registered, es[1..]).value.1);
      }
    }
  }

  // ----- inotify -----

  /** The inotify side of the kernel: watch descriptors are never reused. */
  class Inotify {
    var byWd: map<int, Path>
    var nextWd: int

    constructor ()
      ensures byWd == map[]
    {
      byWd, nextWd := map[], 1;
    }

    method AddWatch(path: Path, allowed: bool) returns (wd: Option<int>)
      requires forall w | w in byWd :: w < nextWd
      modifies this
      ensures wd.Some? <==> allowed
      ensures wd.Some? ==>
                && wd.value == old(nextWd) && nextWd == wd.value + 1
                && wd.value !in old(byWd) && byWd == old(byWd)[wd.value := path]
      ensures wd.None? ==> byWd == old(byWd) && nextWd == old(nextWd)
      ensures forall w | w in byWd :: w < nextWd
    {
      if !allowed {
        return None;
      }
      wd := Some(nextWd);
      byWd := byWd[nextWd := path];
      nextWd := nextWd + 1;
    }

    method RemoveWatch(wd: int) returns (ok: bool)
      requires forall w | w in byWd :: w < nextWd
      modifies this
      ensures ok <==> wd in old(byWd)
      ensures byWd == old(byWd) - {wd} && nextWd == old(nextWd)
      ensures forall w | w in byWd :: w < nextWd
    {
      ok := wd in byWd;
      byWd := byWd - {wd};
    }
  }

  datatype WatchTarget = ForegroundTarget | IdentityTarget

  datatype WatchError = HandlerError(error: EngineError) | ReactorRefused

  function PathsByWd(watches: map<int, (Path, WatchTarget)>): map<int, Path> {
    map wd | wd in watches :: watches[wd].0
  }

  lemma PathAdded(watches: map<int, (Path, WatchTarget)>, wd: int, path: Path)
    requires wd !in watches && path !in WatchedIn(PathsByWd(watches))
    ensures var after := watches[wd := (path, ForegroundTarget)];
            && PathsByWd(after) == PathsByWd(watches)[wd := path]
            && WatchedIn(PathsByWd(after)) == WatchedIn(PathsByWd(watches)) + {path}
    ensures forall v | v in watches :: watches[v].0 != path
  {
    var after := watches[wd := (path, ForegroundTarget)];
    ValuesGrow(PathsByWd(watches), wd, path);
    assert PathsByWd(after) == PathsByWd(watches)[wd := path];
    forall v | v in watches ensures watches[v].0 != path {
      assert PathsByWd(watches)[v] in WatchedIn(PathsByWd(watches));
    }
  }

  lemma PathRemoved(watches: map<int, (Path, WatchTarget)>, wd: int, path: Path, nextWd: int, failures: seq<Path>)
    requires wd in watches && watches[wd].0 == path
    requires forall v | v in watches && v != wd :: watches[v].0 != path
    ensures RemovePath(Table(PathsByWd(watches), nextWd, failures), path) ==
            Table(PathsByWd(watches - {wd}), nextWd, failures)
    ensures WatchedIn(PathsByWd(watches - {wd})) == WatchedIn(PathsByWd(watches)) - {path}
  {
    var was, now := PathsByWd(watches), PathsByWd(watches - {wd});
    var kept := RemovePath(Table(was, nextWd, failures), path).byWd;
    assert forall v :: v in kept <==> v in now;
    assert kept == now;
    forall p | p in WatchedIn(was) - {path} ensures p in WatchedIn(now) {
      var v :| v in was && was[v] == p;
      assert v in now;
    }
  }

  class EngineWatch {
    const priority: PriorityWatcher
    const manager: ForegroundManager
    const inotify: Inotify
    var watches: map<int, (Path, WatchTarget)>
    var foregroundPaths: set<Path>
    var identityPaths: set<Path>
    var failures: seq<Path>

    constructor (priority: PriorityWatcher, manager: ForegroundManager, inotify: Inotify)
      requires priority.Valid() && inotify.byWd == map[]
      ensures this.priority == priority && this.manager == manager && this.inotify == inotify
      ensures Valid() && foregroundPaths == {}
    {
      this.priority, this.manager, this.inotify := priority, manager, inotify;
      watches, foregroundPaths, identityPaths, failures := map[], {}, {}, [];
    }

    /** The inotify table: one live descriptor for each watched path, all of them watched for
        the foreground. The identity cache asks for no watches. */
    ghost predicate Valid()
      reads this, inotify, priority.Repr()
    {
      && priority.Valid()
      && identityPaths == {}
      && foregroundPaths == WatchedIn(PathsByWd(watches))
      && (forall w | w in watches :: watches[w].1 == ForegroundTarget)
      && (forall v, w | v in watches && w in watches && v != w :: watches[v].0 != watches[w].0)
      && (forall w | w in watches :: w in inotify.byWd && inotify.byWd[w] == watches[w].0)
      && (forall w | w in inotify.byWd :: w < inotify.nextWd)
    }

    /** The watched directories as the poll loop's specification sees them. */
    ghost function WatchTable(): Table
      reads this, inotify
    {
      Table(PathsByWd(watches), inotify.nextWd, failures)
    }

    /** Watch a path unless it is watched already; a refusal is recorded. */
    method AddWatchPath(path: Path, addable: set<Path>)
      requires Valid()
      modifies `watches, `foregroundPaths, `failures, inotify
      ensures Valid() && WatchTable() == AddPath(old(WatchTable()), path, addable)
      ensures foregroundPaths == old(foregroundPaths) + (if path in addable then {path} else {})
      ensures failures == old(failures) + (if path in old(foregroundPaths) || path in addable then [] else [path])
    {
      if path in foregroundPaths {
        return;
      }
      hide WatchedIn, PathsByWd;
      var added := inotify.AddWatch(path, path in addable);
      if added.None? {
        failures := failures + [path];
        return;
      }
      var wd: int := added.value;
      PathAdded(watches, wd, path);
      foregroundPaths := foregroundPaths + {path};
      watches := watches[wd := (path, ForegroundTarget)];
    }

    /** Stop watching a path. */
    method RemoveWatchPath(path: Path)
      requires Valid()
      modifies `watches, `foregroundPaths, inotify
      ensures Valid() && WatchTable() == RemovePath(old(WatchTable()), path)
      ensures foregroundPaths == old(foregroundPaths) - {path}
    {
      if path !in foregroundPaths {
        RemoveUnwatched(WatchTable(), path);
      } else {
        var wd :| wd in watches && watches[wd].0 == path;
        PathRemoved(watches, wd, path, inotify.nextWd, failures);
        var _ := inotify.RemoveWatch(wd);
        watches := watches - {wd};
        foregroundPaths := foregroundPaths - {path};
      }
    }

    method RemoveWatchPaths(gone: seq<Path>)
      requires Valid()
      modifies `watches, `foregroundPaths, inotify
      ensures Valid() && WatchTable() == RemovePaths(old(WatchTable()), gone)
    {
      hide RemovePath;
      var i := 0;
      while i < |gone|
        invariant 0 <= i <= |gone| && Valid()
        invariant RemovePaths(WatchTable(), gone[i..]) == RemovePaths(old(WatchTable()), gone)
      {
        assert gone[i..][1..] == gone[i + 1..];
        RemoveWatchPath(gone[i]);
        i := i + 1;
      }
      assert gone[i..] == [];
    }

    method AddWatchPaths(wanted: seq<Path>, addable: set<Path>)
      requires Valid()
      modifies `watches, `foregroundPaths, `failures, inotify
      ensures Valid() && WatchTable() == AddPaths(old(WatchTable()), wanted, addable)
    {
      hide AddPath;
      var i := 0;
      while i < |wanted|
        invariant 0 <= i <= |wanted| && Valid()
        invariant AddPaths(WatchTable(), wanted[i..], addable) == AddPaths(old(WatchTable()), wanted, addable)
      {
        assert wanted[i..][1..] == wanted[i + 1..];
        AddWatchPath(wanted[i], addable);
        i := i + 1;
      }
      assert wanted[i..] == [];
    }

    /** The directories the source wants watched. */
    function Hints(): seq<Path>
      reads if priority.source.Auto? then {priority.source.auto} else {}
    {
      if priority.source.Auto? then priority.source.auto.watchHintPaths else priority.v2.cfg.roots
    }

    lemma HintsAreOfMode()
      requires Valid()
      ensures Hints() == HintsOf(priority.v2.cfg, priority.V1Hints(), priority.Front().mode)
    {
    }

    /** Afterwards exactly those hinted paths are watched that were watched before or can be
        watched now. */
    method SyncForegroundWatchPaths(addable: set<Path>)
      requires Valid()
      modifies `watches, `foregroundPaths, `failures, inotify
      ensures Valid() && WatchTable() == SyncPaths(old(WatchTable()), Hints(), addable)
      ensures foregroundPaths == (set p | p in Hints()) * (old(foregroundPaths) + addable)
    {
      hide RemovePaths, AddPaths, PathLess;
      var desired := set p | p in Hints();
      assert desired == ToSet(Hints());
      SyncWatchesHints(WatchTable(), Hints(), addable);
      RemoveWatchPaths(SortedPaths(foregroundPaths - desired));
      AddWatchPaths(SortedPaths(desired), addable);
    }

    // ----- Publishing -----

    /** Filter an observation, count it, and publish what changed. */
    method PublishSeen(seen: Option<Candidate>, stat: Option<Fingerprint>, invalidator: IdentityCacheInvalidator,
                       state: EngineState, index: Option<Index>, emitted: seq<Event>)
      returns (log: seq<Event>)
      modifies manager, invalidator, state
      ensures var u := Filtered(old(manager.lastPayload), seen);
              && manager.lastPayload == u.last
              && invalidator.View() == (if u.countsAsChange then Mark(old(invalidator.View()), stat).0
                                        else old(invalidator.View()))
              && log == emitted + Publish(index, ChangeEvents(u.emitted))
              && state.View() == Replay(old(state.View()), Publish(index, ChangeEvents(u.emitted)))
    {
      var update, counts := manager.FilterChanged(seen);
      if counts {
        var _ := invalidator.MarkForegroundCandidate(stat);
      }
      log := state.ApplyEvents(ChangeEvents(update), index, emitted);
    }

    // ----- Where the watcher is -----

    /** The watcher between two handler calls. */
    ghost function Now(): Engine
      requires Valid()
      reads this, inotify, priority.Repr()
    {
      Engine(priority.Front(), priority.Tables(), Running)
    }

    ghost predicate InStep()
      reads this, inotify, priority.Repr()
    {
      Valid() && Runs.EngineOk(priority.v2.cfg, Now())
    }

    ghost function Footprint(invalidator: IdentityCacheInvalidator, state: EngineState): set<object>
      reads this
    {
      {this, manager, inotify, invalidator, state} + priority.Repr()
    }

    /** The watcher at the start of a poll, before anything is emitted. */
    ghost function Begun(invalidator: IdentityCacheInvalidator): Loop
      requires Valid()
      reads this, inotify, manager, invalidator, priority.Repr()
    {
      Loop(Now(), WatchTable(), Pipe(manager.lastPayload, invalidator.View(), [], 0), None)
    }

    /** Where a poll leads. */
    ghost function Polled(l: Loop, ready: seq<Ready>): Loop {
      WorkAll(priority.v2.cfg, priority.V1Hints(), l, ItemsOf(ready))
    }

    /** Where several polls lead that all succeed, and their logs: each starts where the one
        before it ended, with nothing emitted. */
    ghost function Rounds(l: Loop, batches: seq<seq<Ready>>, index: Option<Index>): (Loop, seq<seq<Event>>) {
      if batches == [] then (l, [])
      else
        var (before, logs) := Rounds(l, batches[..|batches| - 1], index);
        var after := Polled(before, batches[|batches| - 1]);
        (after.(pipe := after.pipe.(emitted := [], checks := 0)), logs + [PublishedBy(index, after.pipe)])
    }

    /** Watched directories, change filter, invalidator and engine state are as `l` says. */
    ghost predicate Agrees(l: Loop, invalidator: IdentityCacheInvalidator, state: EngineState, index: Option<Index>,
                           origin: State)
      reads this, inotify, manager, invalidator, state, priority.Repr()
    {
      && Valid() && WatchTable() == l.table
      && manager.lastPayload == l.pipe.last && invalidator.View() == l.pipe.inv
      && state.View() == Replay(origin, PublishedBy(index, l.pipe))
    }

    /** So are source and registrations, which are in step. */
    ghost predicate At(l: Loop, invalidator: IdentityCacheInvalidator, state: EngineState, index: Option<Index>,
                       origin: State)
      reads this, inotify, manager, invalidator, state, priority.Repr()
    {
      Agrees(l, invalidator, state, index, origin) && InStep() && Now() == l.engine && l.error == None
    }

    /** What `l` says about a poll is what came of it: the whole new state and the log, or the
        error and the state it left behind. Once in step the reactor can refuse a sync only if
        the generation counter is exhausted. */
    ghost predicate Ended(l: Loop, r: Result<seq<Event>, WatchError>, invalidator: IdentityCacheInvalidator,
                          state: EngineState, index: Option<Index>, origin: State)
      reads this, inotify, manager, invalidator, state, priority.Repr()
    {
      && Agrees(l, invalidator, state, index, origin)
      && match r
         case Ok(log) => At(l, invalidator, state, index, origin) && log == PublishedBy(index, l.pipe)
         case Err(HandlerError(e)) =>
           && l.engine.status == HandlerFailed && l.error == Some(e)
           && priority.Front() == l.engine.front && priority.Tables() == l.engine.w
         case Err(ReactorRefused) => l.engine.status == ReactorFailed && Exhausted()
    }

    /** `goal` is what a sync must make of the watcher now that a handler has answered. */
    ghost predicate Expects(before: Engine, goal: Engine)
      reads this, inotify, priority.Repr()
    {
      && Valid() && priority.Tables() == before.w && goal == Runs.Goal(before, priority.Front())
      && Runs.EngineOk(priority.v2.cfg, goal)
    }

    /** The reactor can refuse a sync only once the generation counter is exhausted. */
    ghost predicate Exhausted()
      requires priority.Valid()
      reads priority.Repr()
    {
      !WatchTableFacts.Unsaturated(priority.Front().sys)
    }

    // ----- The poll loop -----

    /** Sync after a handler call that answered. */
    method Settle(ghost before: Engine, ghost goal: Engine) returns (ok: bool)
      requires Expects(before, goal)
      modifies priority, priority.v2.kernel
      ensures Valid() && Hints() == old(Hints())
      ensures if ok then InStep() && Now() == goal else Exhausted() && goal.status == ReactorFailed
    {
      hide Runs.EngineOk, WatchTableFacts.Unsaturated;
      ok := priority.SyncForegroundPriorityFds();
      if !ok {
        Runs.RefusedMeansSaturated(priority.v2.cfg, goal);
        SameGenerationCounter(goal.front.sys, priority.Front().sys);
      }
    }

    /** `EngineWatch::new` after the tables are made: watch the hints, then sync. */
    method Start(addable: set<Path>) returns (ok: bool)
      requires Valid() && foregroundPaths == {} && priority.Tables() == EmptyWatcher
      requires WatchTableFacts.TableOk(priority.v2.cfg, priority.Front().sys)
      requires priority.Front().sys.ker.fs.Listed() && priority.Front().sys.ker.interest == map[]
      modifies this, inotify, priority, priority.v2.kernel
      ensures Valid() && WatchTable() == AddPaths(old(WatchTable()), old(Hints()), addable)
      ensures foregroundPaths == (set p | p in Hints()) * addable
      ensures if ok then InStep() && Now() == Runs.Goal(old(Now()), old(priority.Front())) else Exhausted()
    {
      hide Runs.EngineOk, Runs.Goal, WatchTableFacts.TableOk, AddPaths;
      ghost var before := Now();
      Runs.FirstSyncOk(priority.v2.cfg, before.front);
      AddedPaths(WatchTable(), Hints(), addable);
      AddWatchPaths(Hints(), addable);
      ok := Settle(before, Runs.Goal(before, before.front));
    }

    /** Publish an answer: the change filter observes it. */
    method PublishAnswer(ghost l: Loop, seen: Option<Candidate>, stat: Option<Fingerprint>,
                         invalidator: IdentityCacheInvalidator, state: EngineState, index: Option<Index>,
                         ghost origin: State, emitted: seq<Event>)
      returns (log: seq<Event>)
      requires Agrees(l, invalidator, state, index, origin) && emitted == PublishedBy(index, l.pipe)
      modifies manager, invalidator, state
      ensures var pipe := Observe(l.pipe, Observation(seen, stat));
              Agrees(l.(pipe := pipe), invalidator, state, index, origin) && log == PublishedBy(index, pipe)
    {
      hide Publish, PublishedBy, Mark;
      PublishObserved(index, l.pipe, Observation(seen, stat));
      ghost var growth := Publish(index, ChangeEvents(Filtered(l.pipe.last, seen).emitted));
      ReplayConcat(origin, emitted, growth);
      log := PublishSeen(seen, stat, invalidator, state, index, emitted);
    }

    /** The file system moves on between two handler calls. */
    method Elapse(fs: Fs)
      requires InStep()
      modifies priority.v2.kernel`fs
      ensures InStep() && Now() == R.Step(priority.v2.cfg, priority.V1Hints(), old(Now()), World(fs))
      ensures Hints() == old(Hints())
      ensures priority.v2.kernel.fs == if fs.Listed() then fs else old(priority.v2.kernel.fs)
    {
      if forall p | p in fs.nodes :: p in fs.order {
        ghost var before := Now();
        priority.v2.kernel.fs := fs;
        Runs.WorldKeepsEngine(priority.v2.cfg, before, Now(), fs);
      }
    }

    /** A ready priority descriptor: a stale one is replaced, a live one is read. */
    method HandlePriorityReady(ghost l: Loop, signal: Signal, invalidator: IdentityCacheInvalidator,
                               state: EngineState, index: Option<Index>, ghost origin: State, emitted: seq<Event>)
      returns (r: Result<seq<Event>, WatchError>)
      requires At(l, invalidator, state, index, origin) && emitted == PublishedBy(index, l.pipe)
      modifies manager, invalidator, state, priority.Repr()
      ensures Ended(Handled(priority.v2.cfg, priority.V1Hints(), l, OfDescriptor(signal)), r,
                    invalidator, state, index, origin)
    {
      hide Runs.EngineOk, Runs.Goal, Observe, StaleFront, PriorityFront, PublishedBy, Handled;
      if signal.token !in priority.tokens || !(signal.error || signal.priority) {
        IdleSignal(priority.v2.cfg, priority.V1Hints(), l, signal);
        return Ok(emitted);
      }
      ghost var before := Now();
      var answer, goal := CallPriorityHandler(priority.tokens[signal.token], signal.error, signal.reading, signal.o);
      SignalAnswered(priority.v2.cfg, priority.V1Hints(), l, signal, priority.Front(), answer);
      if answer.Err? {
        return Err(HandlerError(answer.error));
      }
      r := FinishSignal(l, before, goal, answer.value, signal.stat, invalidator, state, index, origin, emitted);
    }

    method FinishSignal(ghost l: Loop, ghost before: Engine, ghost goal: Engine, seen: Option<Candidate>,
                        stat: Option<Fingerprint>, invalidator: IdentityCacheInvalidator, state: EngineState,
                        index: Option<Index>, ghost origin: State, emitted: seq<Event>)
      returns (r: Result<seq<Event>, WatchError>)
      requires Agrees(l, invalidator, state, index, origin) && emitted == PublishedBy(index, l.pipe)
      requires Expects(before, goal) && l.error == None
      modifies manager, invalidator, state, priority, priority.v2.kernel
      ensures Ended(l.(engine := goal, pipe := Observe(l.pipe, Observation(seen, stat))), r,
                    invalidator, state, index, origin)
    {
      hide Runs.EngineOk, Runs.Goal, Observe, PublishedBy;
      var log := PublishAnswer(l, seen, stat, invalidator, state, index, origin, emitted);
      var ok := Settle(before, goal);
      r := if ok then Ok(log) else Err(ReactorRefused);
    }

    method CallPriorityHandler(path: Path, error: bool, reading: Result<string, EngineError>, o: Oracle)
      returns (answer: Answer, ghost goal: Engine)
      requires InStep()
      modifies priority.Repr()
      ensures Valid() && Expects(old(Now()), goal)
      ensures (priority.Front(), answer) ==
              if error then StaleFront(priority.v2.cfg, old(priority.Front()), path, o)
              else PriorityFront(priority.v2.cfg, old(priority.Front()), path, reading, o)
    {
      hide Runs.EngineOk, Runs.Goal, StaleFront, PriorityFront;
      ghost var before := Now();
      if error {
        answer := priority.HandleStale(path, o);
        Runs.StaleGoalOk(priority.v2.cfg, before, path, o);
      } else {
        answer := priority.HandlePriority(path, reading, o);
        Runs.PriorityGoalOk(priority.v2.cfg, before, path, reading, o);
      }
      goal := Runs.Goal(before, priority.Front());
    }

    method CallFsHandler(path: Path, mask: bv32, attempts: seq<Oracle>) returns (answer: Answer, ghost goal: Engine)
      requires InStep()
      modifies priority.Repr()
      ensures Valid() && Expects(old(Now()), goal)
      ensures (priority.Front(), answer) ==
              Attempts(priority.v2.cfg, priority.V1Hints(), old(priority.Front()), path, KindOf(mask), attempts)
    {
      hide Runs.EngineOk, Runs.Goal, Attempts;
      ghost var before := Now();
      answer := priority.HandleFsEventRetrying(path, mask, attempts);
      Runs.AttemptsGoalOk(priority.v2.cfg, priority.V1Hints(), before, path, KindOf(mask), attempts);
      goal := Runs.Goal(before, priority.Front());
    }

    method CallPoll(o: Oracle) returns (answer: Answer, ghost goal: Engine)
      requires InStep()
      modifies priority.Repr()
      ensures Valid() && Expects(old(Now()), goal)
      ensures (priority.Front(), answer) == PollFront(priority.v2.cfg, old(priority.Front()), o)
    {
      hide Runs.EngineOk, Runs.Goal, PollFront;
      ghost var before := Now();
      answer := priority.PollCurrentSource(o);
      Runs.PollGoalOk(priority.v2.cfg, before, o);
      goal := Runs.Goal(before, priority.Front());
    }

    /** One inotify event: an overflow goes to the source without a path, an event of a known
        descriptor with the path it names; others are ignored. */
    method HandleInotifyEvent(ghost l: Loop, event: InotifyEvent, invalidator: IdentityCacheInvalidator,
                              state: EngineState, index: Option<Index>, ghost origin: State, emitted: seq<Event>)
      returns (r: Result<seq<Event>, WatchError>)
      requires At(l, invalidator, state, index, origin) && emitted == PublishedBy(index, l.pipe)
      modifies Footprint(invalidator, state)
      ensures Ended(Handled(priority.v2.cfg, priority.V1Hints(), l, OfEvent(event)), r,
                    invalidator, state, index, origin)
    {
      hide Runs.EngineOk, PublishedBy, Answered;
      var path := Base("");
      if !Overflows(event.mask) {
        if event.wd !in watches {
          return Ok(emitted);
        }
        path := NamedPath(watches[event.wd].0, event.name);
      }
      r := HandleFsPath(l, path, event, invalidator, state, index, origin, emitted);
    }

    /** Handle, publish, and sync both the inotify watches and the priority registrations. */
    method HandleFsPath(ghost l: Loop, path: Path, event: InotifyEvent, invalidator: IdentityCacheInvalidator,
                        state: EngineState, index: Option<Index>, ghost origin: State, emitted: seq<Event>)
      returns (r: Result<seq<Event>, WatchError>)
      requires At(l, invalidator, state, index, origin) && emitted == PublishedBy(index, l.pipe)
      modifies Footprint(invalidator, state)
      ensures Ended(Answered(priority.v2.cfg, priority.V1Hints(), l, OfEvent(event),
                             FsEvent(path, event.mask, event.attempts)), r, invalidator, state, index, origin)
      ensures r.Ok? ==> foregroundPaths == (set p | p in Hints()) * (old(foregroundPaths) + event.addable)
    {
      hide Runs.EngineOk, Runs.Goal, Observe, Attempts, PublishedBy, SyncPaths, HintsOf, Answered, KindOf;
      ghost var before := Now();
      var answer, goal := CallFsHandler(path, event.mask, event.attempts);
      EventAnswered(priority.v2.cfg, priority.V1Hints(), l, path, event, priority.Front(), answer);
      if answer.Err? {
        return Err(HandlerError(answer.error));
      }
      HintsAreOfMode();
      r := FinishFsEvent(l, before, goal, answer.value, event, invalidator, state, index, origin, emitted);
    }

    method FinishFsEvent(ghost l: Loop, ghost before: Engine, ghost goal: Engine, seen: Option<Candidate>,
                         event: InotifyEvent, invalidator: IdentityCacheInvalidator, state: EngineState,
                         index: Option<Index>, ghost origin: State, emitted: seq<Event>)
      returns (r: Result<seq<Event>, WatchError>)
      requires Agrees(l, invalidator, state, index, origin) && emitted == PublishedBy(index, l.pipe)
      requires Expects(before, goal) && l.error == None
      modifies this, manager, inotify, invalidator, state, priority, priority.v2.kernel
      ensures Ended(l.(engine := goal, table := SyncPaths(l.table, old(Hints()), event.addable),
                       pipe := Observe(l.pipe, Observation(seen, event.stat))), r, invalidator, state, index, origin)
      ensures r.Ok? ==> foregroundPaths == (set p | p in Hints()) * (old(foregroundPaths) + event.addable)
    {
      hide Runs.EngineOk, Runs.Goal, Observe, PublishedBy, SyncPaths, HintsOf;
      var log := PublishAnswer(l, seen, event.stat, invalidator, state, index, origin, emitted);
      SyncForegroundWatchPaths(event.addable);
      var ok := Settle(before, goal);
      r := if ok then Ok(log) else Err(ReactorRefused);
    }

    /** The file system moves on to where the event meets it, and the event is handled. */
    method HandleNextEvent(ghost l: Loop, event: InotifyEvent, invalidator: IdentityCacheInvalidator,
                           state: EngineState, index: Option<Index>, ghost origin: State, emitted: seq<Event>)
      returns (r: Result<seq<Event>, WatchError>)
      requires At(l, invalidator, state, index, origin) && emitted == PublishedBy(index, l.pipe)
      modifies Footprint(invalidator, state)
      ensures Ended(Work(priority.v2.cfg, priority.V1Hints(), l, OfEvent(event)), r, invalidator, state, index, origin)
    {
      hide Runs.EngineOk, PublishedBy, Handled, R.Step;
      Elapse(event.fs);
      r := HandleInotifyEvent(Elapsed(priority.v2.cfg, priority.V1Hints(), l, event.fs), event, invalidator, state,
                              index, origin, emitted);
    }

    method HandleInotifyReady(ghost l: Loop, events: seq<InotifyEvent>, invalidator: IdentityCacheInvalidator,
                              state: EngineState, index: Option<Index>, ghost origin: State, emitted: seq<Event>)
      returns (r: Result<seq<Event>, WatchError>)
      requires At(l, invalidator, state, index, origin) && emitted == PublishedBy(index, l.pipe)
      modifies Footprint(invalidator, state)
      ensures Ended(WorkAll(priority.v2.cfg, priority.V1Hints(), l, EventItems(events)), r,
                    invalidator, state, index, origin)
    {
      hide Runs.EngineOk, PublishedBy, Work, WorkAll;
      NoWork(priority.v2.cfg, priority.V1Hints(), l);
      ghost var cfg, v1Hints, items := priority.v2.cfg, priority.V1Hints(), EventItems(events);
      ghost var now := l;
      var log := emitted;
      for i := 0 to |events|
        invariant now == WorkAll(cfg, v1Hints, l, items[..i])
        invariant At(now, invalidator, state, index, origin) && log == PublishedBy(index, now.pipe)
      {
        WorkOneMore(cfg, v1Hints, l, items, i);
        r := HandleNextEvent(now, events[i], invalidator, state, index, origin, log);
        now := Work(cfg, v1Hints, now, items[i]);
        if r.Err? {
          WorkStops(cfg, v1Hints, l, items, i + 1);
          return;
        }
        log := r.value;
      }
      assert items[..|events|] == items;
      r := Ok(log);
    }

    /** `poll_once_with_socket_events` on a list of ready tokens, with the file system changing
        between handler calls. The ready list stands for a run of the engine: source, table and
        registrations are those after the run, and what is emitted is what its answers publish
        once repetitions are left out. The engine state is the replay of the emitted log, in
        which candidates and identities come in pairs; ready socket tokens are handed back in
        order; and registrations mirror the table again. */
    method PollOnce(ready: seq<Ready>, invalidator: IdentityCacheInvalidator, state: EngineState, index: Option<Index>)
      returns (r: Result<seq<Event>, WatchError>, sockets: seq<nat>)
      requires InStep()
      modifies Footprint(invalidator, state)
      ensures Ended(Polled(old(Begun(invalidator)), ready), r, invalidator, state, index, old(state.View()))
      ensures r.Ok? ==>
                var cfg, v1Hints, was := priority.v2.cfg, priority.V1Hints(), old(Now());
                var actions := ActionsOf(cfg, v1Hints, old(Begun(invalidator)), ItemsOf(ready));
                && Now() == R.Run(cfg, v1Hints, was, actions)
                && r.value == Publish(index, ChangesOf(CollapseAfter(old(manager.lastPayload),
                                                                     CandidatesOf(cfg, v1Hints, was, actions))))
      ensures Valid()
      ensures r.Ok? ==>
                && InStep()
                && state.View() == Replay(old(state.View()), r.value)
                && Paired(index, r.value)
                && sockets == SocketsOf(ready)
      ensures r == Err(ReactorRefused) ==> Exhausted()
    {
      hide Runs.EngineOk, R.Run, Paired, CandidatesOf, CollapseAfter, ActionsOf, ItemsOf, WorkAll;
      ghost var cfg, v1Hints, l, origin := priority.v2.cfg, priority.V1Hints(), Begun(invalidator), state.View();
      NothingPublished(index, l.pipe);
      r, sockets := HandleAllReady(l, ready, invalidator, state, index, origin);
      if r.Ok? {
        WorkPublishesAnswers(cfg, v1Hints, l, ItemsOf(ready), index);
        WorkIsRun(cfg, v1Hints, l, ItemsOf(ready));
        PublishedPairs(index, Polled(l, ready).pipe);
      }
    }

    /** The ready list in order; sockets are only collected. */
    method HandleAllReady(ghost l: Loop, ready: seq<Ready>, invalidator: IdentityCacheInvalidator,
                          state: EngineState, index: Option<Index>, ghost origin: State)
      returns (r: Result<seq<Event>, WatchError>, sockets: seq<nat>)
      requires At(l, invalidator, state, index, origin) && PublishedBy(index, l.pipe) == []
      modifies Footprint(invalidator, state)
      ensures Ended(Polled(l, ready), r, invalidator, state, index, origin)
      ensures r.Ok? ==> sockets == SocketsOf(ready)
    {
      hide Runs.EngineOk, PublishedBy, WorkAll, ItemsOf, ItemsOfOne, SocketsOf;
      ReadNothing(priority.v2.cfg, priority.V1Hints(), l);
      ghost var cfg, v1Hints, now := priority.v2.cfg, priority.V1Hints(), l;
      var log: seq<Event> := [];
      sockets := [];
      for i := 0 to |ready|
        invariant now == WorkAll(cfg, v1Hints, l, ItemsOf(ready[..i]))
        invariant At(now, invalidator, state, index, origin) && log == PublishedBy(index, now.pipe)
        invariant sockets == SocketsOf(ready[..i])
      {
        ReadOneMore(cfg, v1Hints, l, ready, i);
        if ready[i].SocketReady? {
          sockets := sockets + [ready[i].socket];
        }
        r := HandleReady(now, ready[i], invalidator, state, index, origin, log);
        now := WorkAll(cfg, v1Hints, now, ItemsOfOne(ready[i]));
        if r.Err? {
          PollStops(cfg, v1Hints, l, ready, i + 1);
          return;
        }
        log := r.value;
      }
      assert ready[..|ready|] == ready;
      r := Ok(log);
    }

    method HandleReady(ghost l: Loop, ready: Ready, invalidator: IdentityCacheInvalidator, state: EngineState,
                       index: Option<Index>, ghost origin: State, emitted: seq<Event>)
      returns (r: Result<seq<Event>, WatchError>)
      requires At(l, invalidator, state, index, origin) && emitted == PublishedBy(index, l.pipe)
      modifies Footprint(invalidator, state)
      ensures Ended(WorkAll(priority.v2.cfg, priority.V1Hints(), l, ItemsOfOne(ready)), r,
                    invalidator, state, index, origin)
    {
      hide Runs.EngineOk, PublishedBy, Handled, R.Step;
      match ready {
        case SocketReady(_) => r := Ok(emitted);
        case PriorityReady(signal) =>
          WorkOne(priority.v2.cfg, priority.V1Hints(), l, OfDescriptor(signal));
          Elapse(signal.fs);
          r := HandlePriorityReady(Elapsed(priority.v2.cfg, priority.V1Hints(), l, signal.fs), signal, invalidator,
                                   state, index, origin, emitted);
        case InotifyReady(events) =>
          r := HandleInotifyReady(l, events, invalidator, state, index, origin, emitted);
      }
    }

    /** `poll_current_foreground`: polls and syncs, and publishes nothing. */
    method PollCurrentForeground(o: Oracle, addable: set<Path>) returns (r: Result<Option<Candidate>, WatchError>)
      requires InStep()
      modifies this, inotify, priority.Repr()
      ensures Valid()
      ensures r.Ok? ==> InStep() && foregroundPaths == (set p | p in Hints()) * (old(foregroundPaths) + addable)
      ensures r.Ok? ==>
                && Now() == R.Step(priority.v2.cfg, priority.V1Hints(), old(Now()), PollNow(o))
                && Ok(r.value) == PollFront(priority.v2.cfg, old(priority.Front()), o).1
                && WatchTable() == SyncPaths(old(WatchTable()), Hints(), addable)
      ensures r.Err? && r.error.HandlerError? ==>
                (priority.Front(), Err(r.error.error)) == PollFront(priority.v2.cfg, old(priority.Front()), o)
      ensures r == Err(ReactorRefused) ==> Exhausted()
    {
      hide Runs.EngineOk, Runs.Goal, PollFront, SyncPaths, R.Step;
      ghost var before := Now();
      var answer, goal := CallPoll(o);
      if answer.Err? {
        return Err(HandlerError(answer.error));
      }
      PollStep(priority.v2.cfg, priority.V1Hints(), before, o);
      SyncForegroundWatchPaths(addable);
      var ok := Settle(before, goal);
      r := if ok then Ok(answer.value) else Err(ReactorRefused);
    }
  }

  lemma SameGenerationCounter(a: Sys, b: Sys)
    requires a.src == b.src
    ensures WatchTableFacts.Unsaturated(a) == WatchTableFacts.Unsaturated(b)
  {
  }
}
