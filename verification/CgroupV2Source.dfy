/** The cgroup v2 source as the mutable object it is: its fields are updated in place and
    every method is proved to compute the corresponding function of `WatchTable`. */
module CgroupV2Source {
  import opened Basics
  import opened Ordering
  import opened Paths
  import opened Candidates
  import opened CgroupEvents
  import opened T = WatchTable
  import UidDirs

  /** The kernel side of the engine: the file system, open descriptors and the reactor. */
  class KernelState {
    var fs: Fs
    var nextFd: nat
    var interest: map<nat, nat>
    var nextToken: nat

    constructor (fs: Fs)
      ensures View() == Kernel(fs, 0, map[], 0)
    {
      this.fs := fs;
      nextFd, interest, nextToken := 0, map[], 0;
    }

    function View(): Kernel
      reads this
    {
      Kernel(fs, nextFd, interest, nextToken)
    }

    /** Open an events file: a new descriptor into the current incarnation, or failure. */
    method OpenEvents(e: Path) returns (handle: Option<(nat, nat)>)
      modifies this`nextFd
      ensures handle.Some? <==> fs.Openable(e)
      ensures handle.Some? ==> handle.value.0 == old(nextFd) && nextFd == old(nextFd) + 1
      ensures handle.Some? ==> e.parent in fs.nodes && handle.value.1 == fs.nodes[e.parent].incarnation
      ensures handle.None? ==> nextFd == old(nextFd)
    {
      if !fs.Openable(e) {
        return None;
      }
      handle := Some((nextFd, fs.nodes[e.parent].incarnation));
      nextFd := nextFd + 1;
    }

    method CloseFd(fd: nat)
      modifies this`interest
      ensures interest == map t | t in old(interest) && old(interest)[t] != fd :: old(interest)[t]
    {
      interest := map t | t in interest && interest[t] != fd :: interest[t];
    }

    /** `add_priority`; fails when the descriptor is already registered. */
    method AddPriority(fd: nat) returns (token: Option<nat>)
      modifies this`interest, this`nextToken
      ensures fd in old(interest).Values ==> token == None && View() == old(View())
      ensures fd !in old(interest).Values ==>
                token == Some(old(nextToken)) && nextToken == old(nextToken) + 1
                && interest == old(interest)[old(nextToken) := fd]
    {
      if fd in interest.Values {
        return None;
      }
      token := Some(nextToken);
      interest := interest[nextToken := fd];
      nextToken := nextToken + 1;
    }

    /** `del`; fails when the descriptor is not registered. */
    method Del(fd: nat) returns (ok: bool)
      modifies this`interest
      ensures ok <==> fd in old(interest).Values
      ensures interest == map t | t in old(interest) && old(interest)[t] != fd :: old(interest)[t]
    {
      ok := fd in interest.Values;
      interest := map t | t in interest && interest[t] != fd :: interest[t];
    }
  }

  lemma RemoveTwice(s: Sys, a: set<Path>, b: set<Path>)
    ensures Remove(Remove(s, a), b) == Remove(s, a + b)
  {
  }

  lemma RemoveNothing(s: Sys)
    ensures Remove(s, {}) == s
  {
    assert s.src.watches - {} == s.src.watches;
    assert Close(s.ker.interest, s.src.watches, {}) == s.ker.interest;
  }

  lemma RemoveKnown(s: Sys, e: Path)
    ensures e in s.src.watches ==> T.RemoveUidWatchPath(s, e, s.src.watches[e].uid) == Remove(s, {e})
    ensures e !in s.src.watches ==> Remove(s, {e}) == s
  {
    if e !in s.src.watches {
      assert s.src.watches - {e} == s.src.watches;
      assert Close(s.ker.interest, s.src.watches, {e}) == s.ker.interest;
    }
  }

  class CgroupV2EventsSource {
    const cfg: Config
    const kernel: KernelState
    var watches: map<Path, UidWatch>
    var staleRoots: set<Path>
    var nextGeneration: nat

    function View(): Sys
      reads this, kernel
    {
      Sys(Source(watches, staleRoots, nextGeneration), kernel.View())
    }

    constructor (cfg: Config, kernel: KernelState)
      modifies kernel
      ensures this.cfg == cfg && this.kernel == kernel
      ensures View() == NewSource(cfg, old(kernel.View()))
    {
      this.cfg, this.kernel := cfg, kernel;
      watches, staleRoots, nextGeneration := map[], {}, 1;
      new;
      ScanRoots();
    }

    method ScanRoots()
      modifies this, kernel
      ensures View() == T.ScanRoots(cfg, old(View()))
    {
      ghost var start := View();
      var i := 0;
      while i < |cfg.roots|
        invariant 0 <= i <= |cfg.roots| && kernel.fs == start.ker.fs
        invariant AddEntries(cfg, View(), Entries(kernel.fs, cfg.roots[i..])) == T.ScanRoots(cfg, start)
      {
        assert cfg.roots[i..][1..] == cfg.roots[i + 1..];
        if cfg.roots[i] in kernel.fs.listable {
          ScanRoot(cfg.roots[i], Entries(kernel.fs, cfg.roots[i + 1..]));
        } else {
          assert [] + Entries(kernel.fs, cfg.roots[i + 1..]) == Entries(kernel.fs, cfg.roots[i + 1..]);
        }
        i := i + 1;
      }
      assert cfg.roots[i..] == [];
    }

    /** One listing; `later` are the entries still to come from the other roots. */
    method ScanRoot(root: Path, ghost later: seq<Path>)
      modifies this, kernel
      ensures kernel.fs == old(kernel.fs)
      ensures AddEntries(cfg, View(), later) ==
              AddEntries(cfg, old(View()), ChildrenIn(old(kernel.fs).order, root) + later)
    {
      var dirs := ChildrenIn(kernel.fs.order, root);
      var k := 0;
      while k < |dirs|
        invariant 0 <= k <= |dirs| && kernel.fs == old(kernel.fs)
        invariant AddEntries(cfg, View(), dirs[k..] + later) == AddEntries(cfg, old(View()), dirs + later)
      {
        assert (dirs[k..] + later)[1..] == dirs[k + 1..] + later;
        var dir := dirs[k];
        if dir.Join? && dir in kernel.fs.nodes && kernel.fs.nodes[dir].isDir {
          var uid := UidDirs.ParseUidDirName(dir.name);
          if uid.Some? {
            var _ := AddUidWatch(dir, uid.value);
          }
        }
        k := k + 1;
      }
      assert dirs[k..] + later == later;
    }

    /** The watched paths without a file, filtered out of the table in its own order. */
    method CollectVanished() returns (gone: seq<Path>)
      ensures gone == SortedPaths(Vanished(View()))
    {
      gone := [];
      var paths := SortedPaths(watches.Keys);
      hide PathLess;
      for i := 0 to |paths|
        invariant Ascending(PathLess, gone)
        invariant forall p :: p in gone <==> p in paths[..i] && kernel.fs.EventsAt(p).None?
      {
        assert paths[..i + 1] == paths[..i] + [paths[i]];
        if kernel.fs.EventsAt(paths[i]).None? {
          AscendingAppend(PathLess, gone, paths[i]);
          gone := gone + [paths[i]];
        }
      }
      assert paths[..|paths|] == paths;
      PathLessIsTotal();
      ListingIsSorted(PathLess, Vanished(View()), gone);
    }

    method RescanRoots()
      modifies this, kernel
      ensures View() == T.RescanRoots(cfg, old(View()))
    {
      var existing := CollectVanished();
      ghost var start, done := View(), {};
      var i := 0;
      RemoveNothing(start);
      hide Remove, Vanished, T.ScanRoots;
      while i < |existing|
        invariant 0 <= i <= |existing|
        invariant done == set p | p in existing[..i]
        invariant View() == Remove(start, done)
      {
        var path := existing[i];
        assert existing[..i + 1] == existing[..i] + [path];
        assert path in existing;
        RemoveTwice(start, done, {path});
        RemoveKnown(View(), path);
        if path in watches {
          var _ := RemoveUidWatchPath(path, watches[path].uid);
        }
        done := done + {path};
        i := i + 1;
      }
      assert done == Vanished(start) by {
        assert existing[..i] == existing;
      }
      ScanRoots();
    }

    method AddUidWatch(dir: Path, uid: nat) returns (added: bool)
      modifies this, kernel
      ensures (View(), added) == T.AddUidWatch(cfg, old(View()), dir, uid)
    {
      if !cfg.filter.IsValidUid(uid) {
        return false;
      }
      var eventsPath := EventsPath(dir);
      if eventsPath in watches {
        return false;
      }
      var handle := kernel.OpenEvents(eventsPath);
      if handle.None? {
        return false;
      }
      var generation := nextGeneration;
      nextGeneration := SaturatingAdd(nextGeneration, 1);
      watches := watches[eventsPath := UidWatch(uid, handle.value.0, handle.value.1, generation, Unknown)];
      return true;
    }

    /** Dropping a watch closes its descriptor. */
    method RemoveWatchPath(eventsPath: Path) returns (removed: bool)
      modifies this, kernel
      ensures removed <==> eventsPath in old(watches)
      ensures View() == Remove(old(View()), {eventsPath})
    {
      removed := eventsPath in watches;
      if removed {
        kernel.CloseFd(watches[eventsPath].fd);
      } else {
        assert Close(kernel.interest, watches, {eventsPath}) == kernel.interest;
      }
      watches := watches - {eventsPath};
    }

    method RemoveUidWatchPath(eventsPath: Path, uid: nat) returns (removed: bool)
      modifies this, kernel
      ensures removed <==> eventsPath in old(watches) && old(watches)[eventsPath].uid == uid
      ensures View() == T.RemoveUidWatchPath(old(View()), eventsPath, uid)
    {
      if eventsPath !in watches || watches[eventsPath].uid != uid {
        return false;
      }
      removed := RemoveWatchPath(eventsPath);
    }

    method HandleUidPopulatedAt(path: Path, uid: nat, populated: Populated) returns (answer: Answer)
      modifies this, kernel
      ensures (View(), answer) == T.HandleUidPopulatedAt(cfg, old(View()), path, uid, populated)
    {
      if path !in watches {
        return Ok(None);
      }
      watches := watches[path := watches[path].(populated := populated)];
      answer := Ok(if populated == Active then CandidateForUid(cfg, uid) else None);
    }

    /** A live descriptor is drained and read again. */
    method HandleEventsPath(path: Path, reading: Result<string, EngineError>) returns (answer: Answer)
      modifies this, kernel
      ensures (View(), answer) == T.HandleEventsPath(cfg, old(View()), path, reading)
    {
      if path !in watches {
        RescanRoots();
        return Ok(None);
      }
      if kernel.fs.EventsAt(path).None? {
        answer := HandleStaleEventsPath(path);
        return;
      }
      if reading.Err? {
        return Err(reading.error);
      }
      var held := new EventsFd(reading.value);
      var populated := held.DrainAndRead();
      answer := HandleUidPopulatedAt(path, watches[path].uid, populated);
    }

    method HandleStaleEventsPath(path: Path) returns (answer: Answer)
      modifies this, kernel
      ensures (View(), answer) == T.HandleStaleEventsPath(cfg, old(View()), path)
    {
      var _ := RemoveWatchPath(path);
      RescanRoots();
      return Ok(None);
    }

    method HandleRootPath(path: Path, kind: EventKind) returns (answer: Answer)
      modifies this, kernel
      ensures (View(), answer) == T.HandleRootPath(cfg, old(View()), path, kind)
    {
      if kind == Overflow {
        RescanRoots();
        return Ok(None);
      }
      if kind == RootLost {
        HandleRootLost(path);
        return Ok(None);
      }
      if path.Base? || UidDirs.ParseUidDirName(path.name).None? {
        return Ok(None);
      }
      answer := HandleUidPath(path, UidDirs.ParseUidDirName(path.name).value, kind);
    }

    method HandleRootLost(path: Path)
      modifies this, kernel
      ensures View() == T.HandleRootLost(cfg, old(View()), path)
    {
      if path in cfg.roots {
        staleRoots := staleRoots + {path};
      }
      RescanRoots();
    }

    method HandleUidPath(path: Path, uid: nat, kind: EventKind) returns (answer: Answer)
      requires path.Join? && kind in {Departure, Arrival, Other}
      modifies this, kernel
      ensures (View(), answer) == T.HandleUidPath(cfg, old(View()), path, uid, kind)
    {
      if kind == Departure || path !in kernel.fs.nodes {
        var _ := RemoveUidWatchPath(EventsPath(path), uid);
        return Ok(None);
      }
      if kind == Other || !UnderRoot(cfg, path) {
        return Ok(None);
      }
      answer := HandleArrival(path, uid);
    }

    method HandleArrival(path: Path, uid: nat) returns (answer: Answer)
      requires path.Join?
      modifies this, kernel
      ensures (View(), answer) == T.HandleArrival(cfg, old(View()), path, uid)
    {
      var isNew := AddUidWatch(path, uid);
      if !isNew {
        return Ok(None);
      }
      var file := kernel.fs.EventsAt(EventsPath(path));
      if file.None? {
        return Err(NotFound);
      }
      var populated := ParseCgroupEventsPopulated(file.value.text);
      answer := HandleUidPopulatedAt(EventsPath(path), uid, populated);
    }

    method HandleFsEventWithMask(path: Path, mask: bv32) returns (answer: Answer)
      modifies this, kernel
      ensures (View(), answer) == HandleFsEvent(cfg, old(View()), path, KindOf(mask))
    {
      if Overflows(mask) || path in cfg.roots || UnderRoot(cfg, path) {
        answer := HandleRootPath(path, KindOf(mask));
      } else {
        answer := Ok(None);
      }
    }

    method PollCurrent() returns (answer: Answer)
      modifies this, kernel
      ensures (View(), answer) == T.PollCurrent(cfg, old(View()))
    {
      var paths := SortedPaths(watches.Keys);
      ghost var goal := T.PollCurrent(cfg, View());
      var i := 0;
      while i < |paths|
        invariant 0 <= i <= |paths|
        invariant PollFrom(cfg, View(), paths[i..]) == goal
      {
        var path := paths[i];
        assert paths[i..][1..] == paths[i + 1..];
        i := i + 1;
        if path !in watches {
          continue;
        }
        var file := kernel.fs.EventsAt(path);
        if file.None? {
          var _ := RemoveWatchPath(path);
          RescanRoots();
          continue;
        }
        if !file.value.openable {
          return Err(Failed);
        }
        var uid := watches[path].uid;
        var populated := ParseCgroupEventsPopulated(file.value.text);
        watches := watches[path := watches[path].(populated := populated)];
        if populated == Active {
          var candidate := CandidateForUid(cfg, uid);
          if candidate.Some? {
            return Ok(candidate);
          }
        }
      }
      assert paths[i..] == [];
      return Ok(None);
    }
  }
}
