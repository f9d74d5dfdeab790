/** What the handlers of the watch table do, in terms of a full scan. */
module WatchHandlers {
  import opened Basics
  import opened Paths
  import opened Candidates
  import opened PackageIndex
  import opened CgroupEvents
  import opened WatchTable
  import opened WatchTableFacts
  import opened Text
  import UidDirs

  // ----- What a mask means -----

  /** Every 32-bit mask by its bits, in the order they are tested; bits that are not tested,
      such as the one that marks a directory, change nothing. */
  lemma KindByBits(mask: bv32)
    ensures mask & 0x0000_4000 != 0 ==> KindOf(mask) == Overflow
    ensures mask & 0x0000_4000 == 0 && mask & 0x0000_8C00 != 0 ==> KindOf(mask) == RootLost
    ensures mask & 0x0000_CC00 == 0 && mask & 0x0000_0240 != 0 ==> KindOf(mask) == Departure
    ensures mask & 0x0000_CE40 == 0 && (mask & 0x0000_0180 != 0 || mask == 0) ==> KindOf(mask) == Arrival
    ensures mask & 0x0000_CFC0 == 0 && mask != 0 ==> KindOf(mask) == Other
  {
  }

  // ----- Every handler keeps the table -----

  /** The only closing of a live path is a removal event's own path. */
  ghost predicate TidyExcept(cfg: Config, a: Sys, b: Sys, path: Path) {
    && Evolved(cfg, a, b)
    && (Tidy(cfg, a, b) || b == Remove(a, {EventsPath(path)}))
  }

  lemma UidPopulatedIsTidy(cfg: Config, s: Sys, e: Path, uid: nat, populated: Populated)
    requires TableOk(cfg, s)
    ensures Tidy(cfg, s, HandleUidPopulatedAt(cfg, s, e, uid, populated).0)
  {
    EvolvedReflexive(cfg, s);
    SetPopulatedIsTidy(cfg, s, e, populated);
  }

  lemma EventsPathIsTidy(cfg: Config, s: Sys, e: Path, reading: Result<string, EngineError>)
    requires TableOk(cfg, s) && s.ker.fs.Listed()
    ensures Tidy(cfg, s, HandleEventsPath(cfg, s, e, reading).0)
  {
    EvolvedReflexive(cfg, s);
    if e !in s.src.watches {
      RescanIsTidy(cfg, s);
    } else if s.ker.fs.EventsAt(e).None? {
      var closed := Remove(s, {e});
      RemoveEvolves(cfg, s, {e});
      RescanIsTidy(cfg, closed);
      TidyTransitive(cfg, s, closed, RescanRoots(cfg, closed));
    } else if reading.Ok? {
      UidPopulatedIsTidy(cfg, s, e, s.src.watches[e].uid, ParsePopulated(Buffered(reading.value)));
    }
  }

  /** A stale descriptor is replaced, and the table afterwards agrees with a full scan. */
  lemma StaleEventsPathCompletes(cfg: Config, s: Sys, e: Path)
    requires TableOk(cfg, s) && s.ker.fs.Listed()
    ensures Evolved(cfg, s, HandleStaleEventsPath(cfg, s, e).0)
    ensures Complete(cfg, HandleStaleEventsPath(cfg, s, e).0)
  {
    var closed := Remove(s, {e});
    RemoveEvolves(cfg, s, {e});
    RescanIsTidy(cfg, closed);
    EvolvedTransitive(cfg, s, closed, RescanRoots(cfg, closed));
  }

  lemma ArrivalIsTidy(cfg: Config, s: Sys, path: Path, uid: nat)
    requires TableOk(cfg, s)
    requires UnderRoot(cfg, path) && UidDirs.ParseUidDirName(path.name) == Some(uid)
    ensures Tidy(cfg, s, HandleArrival(cfg, s, path, uid).0)
  {
    var added := AddUidWatch(cfg, s, path, uid).0;
    AddIsTidy(cfg, s, path, uid);
    EvolvedReflexive(cfg, s);
    match s.ker.fs.EventsAt(EventsPath(path))
    case None =>
    case Some(file) =>
      UidPopulatedIsTidy(cfg, added, EventsPath(path), uid, ParsePopulated(file.text));
      TidyTransitive(cfg, s, added,
        HandleUidPopulatedAt(cfg, added, EventsPath(path), uid, ParsePopulated(file.text)).0);
  }

  lemma RootLostIsTidy(cfg: Config, s: Sys, path: Path)
    requires TableOk(cfg, s) && s.ker.fs.Listed()
    ensures Tidy(cfg, s, HandleRootLost(cfg, s, path))
    ensures Complete(cfg, HandleRootLost(cfg, s, path))
  {
    var marked := if path in cfg.roots then s.src.staleRoots + {path} else s.src.staleRoots;
    var stale := Sys(s.src.(staleRoots := marked), s.ker);
    RelabelledIsTidy(cfg, s, stale);
    RescanIsTidy(cfg, stale);
    TidyTransitive(cfg, s, stale, RescanRoots(cfg, stale));
  }

  lemma RemoveIsRemoveUid(cfg: Config, s: Sys, e: Path, uid: nat)
    requires TableOk(cfg, s)
    requires e.Join? && e.parent.Join? && UidDirs.ParseUidDirName(e.parent.name) == Some(uid)
    ensures RemoveUidWatchPath(s, e, uid) == Remove(s, {e})
  {
    if e in s.src.watches {
      assert WatchOk(cfg, s, e);
    } else {
      assert s.src.watches - {e} == s.src.watches;
      assert Close(s.ker.interest, s.src.watches, {e}) == s.ker.interest;
    }
  }

  lemma UidPathIsTidy(cfg: Config, s: Sys, path: Path, uid: nat, kind: EventKind)
    requires TableOk(cfg, s)
    requires path.Join? && UidDirs.ParseUidDirName(path.name) == Some(uid)
    ensures var r := HandleUidPath(cfg, s, path, uid, kind).0;
            TidyExcept(cfg, s, r, path) && (kind != Departure ==> Tidy(cfg, s, r))
  {
    EvolvedReflexive(cfg, s);
    if kind == Departure || path !in s.ker.fs.nodes {
      RemoveIsRemoveUid(cfg, s, EventsPath(path), uid);
      RemoveEvolves(cfg, s, {EventsPath(path)});
    } else if UnderRoot(cfg, path) {
      ArrivalIsTidy(cfg, s, path, uid);
    }
  }

  lemma FsEventIsTidy(cfg: Config, s: Sys, path: Path, kind: EventKind)
    requires TableOk(cfg, s) && s.ker.fs.Listed()
    ensures var r := HandleFsEvent(cfg, s, path, kind).0;
            && TidyExcept(cfg, s, r, path)
            && (kind != Departure ==> Tidy(cfg, s, r))
            && (kind == Overflow ==> Complete(cfg, r))
  {
    hide TableOk, Evolved, HandleUidPath, HandleRootLost, RescanRoots;
    EvolvedReflexive(cfg, s);
    if kind == Overflow {
      RescanIsTidy(cfg, s);
    } else if kind == RootLost {
      RootLostIsTidy(cfg, s, path);
    } else if path.Join? && UidDirs.ParseUidDirName(path.name).Some? {
      UidPathIsTidy(cfg, s, path, UidDirs.ParseUidDirName(path.name).value, kind);
    }
  }

  /** The table after polling one path that yields nothing. */
  function PollOne(cfg: Config, now: Sys, e: Path): Sys {
    if e !in now.src.watches then now
    else
      match now.ker.fs.EventsAt(e)
      case None => RescanRoots(cfg, Remove(now, {e}))
      case Some(file) => SetPopulated(now, e, ParsePopulated(file.text))
  }

  lemma PollOneIsTidy(cfg: Config, now: Sys, e: Path)
    requires TableOk(cfg, now) && now.ker.fs.Listed()
    ensures Tidy(cfg, now, PollOne(cfg, now, e))
    ensures TableOk(cfg, PollOne(cfg, now, e)) && PollOne(cfg, now, e).ker.fs == now.ker.fs
  {
    EvolvedReflexive(cfg, now);
    if e in now.src.watches {
      match now.ker.fs.EventsAt(e)
      case None =>
        var closed := Remove(now, {e});
        RemoveEvolves(cfg, now, {e});
        RescanIsTidy(cfg, closed);
        TidyTransitive(cfg, now, closed, RescanRoots(cfg, closed));
      case Some(file) =>
        SetPopulatedIsTidy(cfg, now, e, ParsePopulated(file.text));
    }
  }

  lemma {:induction false} PollIsTidy(cfg: Config, s: Sys, paths: seq<Path>)
    requires TableOk(cfg, s) && s.ker.fs.Listed()
    ensures Tidy(cfg, s, PollFrom(cfg, s, paths).0)
    decreases |paths|
  {
    hide Tidy, TableOk;
    EvolvedReflexive(cfg, s);
    if paths == [] {
    } else {
      var next := PollOne(cfg, s, paths[0]);
      PollOneIsTidy(cfg, s, paths[0]);
      PollIsTidy(cfg, next, paths[1..]);
      TidyTransitive(cfg, s, next, PollFrom(cfg, next, paths[1..]).0);
    }
  }

  // ----- Rescanning -----

  function UidTable(s: Sys): map<Path, nat> {
    map e | e in s.src.watches :: s.src.watches[e].uid
  }

  /** The state a new source starts in. */
  function Fresh(cfg: Config, fs: Fs): Sys {
    NewSource(cfg, Kernel(fs, 0, map[], 0))
  }

  lemma FreshFindsWatchable(cfg: Config, fs: Fs)
    requires fs.Listed()
    ensures TableOk(cfg, Fresh(cfg, fs)) && Complete(cfg, Fresh(cfg, fs))
    ensures Fresh(cfg, fs).ker.fs == fs && Fresh(cfg, fs).ker.interest == map[]
    ensures forall e :: e in Fresh(cfg, fs).src.watches <==> Watchable(cfg, fs, e)
  {
    ScanFinds(cfg, Sys(Source(map[], {}, 1), Kernel(fs, 0, map[], 0)));
  }

  /** The name of a directory determines its uid. */
  lemma SameUids(cfg: Config, a: Sys, b: Sys)
    requires TableOk(cfg, a) && TableOk(cfg, b) && a.src.watches.Keys == b.src.watches.Keys
    ensures UidTable(a) == UidTable(b)
  {
    forall e | e in a.src.watches ensures a.src.watches[e].uid == b.src.watches[e].uid {
      assert WatchOk(cfg, a, e) && e in b.src.watches && WatchOk(cfg, b, e);
    }
  }

  /** Paths that still exist keep their watches, descriptors and generations included. */
  lemma RescanKeepsSurvivors(cfg: Config, s: Sys, e: Path)
    requires TableOk(cfg, s) && s.ker.fs.Listed()
    requires e in s.src.watches && s.ker.fs.EventsAt(e).Some?
    ensures e in RescanRoots(cfg, s).src.watches && RescanRoots(cfg, s).src.watches[e] == s.src.watches[e]
  {
    RescanIsTidy(cfg, s);
    assert e in Remove(s, Vanished(s)).src.watches;
  }

  /** Rescanning an old table gives the paths and uids a new source would find exactly when
      every held path that still exists can itself be found by a scan. */
  lemma RescanMatchesFresh(cfg: Config, s: Sys)
    requires TableOk(cfg, s) && s.ker.fs.Listed()
    ensures UidTable(RescanRoots(cfg, s)) == UidTable(Fresh(cfg, s.ker.fs))
            <==> forall e | e in s.src.watches && s.ker.fs.EventsAt(e).Some? :: Watchable(cfg, s.ker.fs, e)
  {
    hide Tidy, TableOk, Watchable, RescanRoots, Fresh;
    var fs, r, anew := s.ker.fs, RescanRoots(cfg, s), Fresh(cfg, s.ker.fs);
    RescanIsTidy(cfg, s);
    FreshFindsWatchable(cfg, fs);
    if forall e | e in s.src.watches && fs.EventsAt(e).Some? :: Watchable(cfg, fs, e) {
      assert forall e :: e in r.src.watches <==> e in anew.src.watches;
      SameUids(cfg, r, anew);
    } else {
      var e :| e in s.src.watches && fs.EventsAt(e).Some? && !Watchable(cfg, fs, e);
      RescanKeepsSurvivors(cfg, s, e);
      assert e in UidTable(r) && e !in UidTable(anew);
    }
  }

  lemma {:induction false} AddEntriesFindsNothing(cfg: Config, s: Sys, dirs: seq<Path>)
    requires forall d | d in dirs :: UnderRoot(cfg, d) && d.parent in s.ker.fs.listable
    requires forall e | Watchable(cfg, s.ker.fs, e) :: e in s.src.watches
    ensures AddEntries(cfg, s, dirs) == s
    decreases |dirs|
  {
    if dirs == [] {
    } else {
      assert UnderRoot(cfg, dirs[0]) && dirs[0].parent in s.ker.fs.listable;
      assert AddEntry(cfg, s, dirs[0]) == s;
      AddEntriesFindsNothing(cfg, s, dirs[1..]);
    }
  }

  lemma RescanOfComplete(cfg: Config, s: Sys)
    requires TableOk(cfg, s) && s.ker.fs.Listed() && Complete(cfg, s)
    ensures RescanRoots(cfg, s) == s
  {
    assert Vanished(s) == {};
    var same := Remove(s, {});
    assert same.src.watches == s.src.watches && same.ker.interest == s.ker.interest;
    forall d | d in Entries(s.ker.fs, cfg.roots) ensures UnderRoot(cfg, d) && d.parent in s.ker.fs.listable {
      EntriesAre(s.ker.fs, cfg.roots, d);
    }
    AddEntriesFindsNothing(cfg, s, Entries(s.ker.fs, cfg.roots));
  }

  /** Rescanning twice is rescanning once, down to descriptors and generations. */
  lemma RescanIdempotent(cfg: Config, s: Sys)
    requires TableOk(cfg, s) && s.ker.fs.Listed()
    ensures RescanRoots(cfg, RescanRoots(cfg, s)) == RescanRoots(cfg, s)
  {
    RescanIsTidy(cfg, s);
    RescanOfComplete(cfg, RescanRoots(cfg, s));
  }

  // ----- Retrying -----

  /** Repeating an event that published nothing changes nothing and publishes nothing. */
  lemma RepeatIsNoop(cfg: Config, s: Sys, path: Path, kind: EventKind)
    requires TableOk(cfg, s) && s.ker.fs.Listed()
    requires HandleFsEvent(cfg, s, path, kind).1 == Ok(None)
    ensures var r := HandleFsEvent(cfg, s, path, kind).0;
            HandleFsEvent(cfg, r, path, kind) == (r, Ok(None))
  {
    if kind == Overflow {
      RescanIdempotent(cfg, s);
    } else if kind == RootLost {
      RootLostIdempotent(cfg, s, path);
    }
  }

  lemma RootLostIdempotent(cfg: Config, s: Sys, path: Path)
    requires TableOk(cfg, s) && s.ker.fs.Listed()
    ensures HandleRootLost(cfg, HandleRootLost(cfg, s, path), path) == HandleRootLost(cfg, s, path)
  {
    var r := HandleRootLost(cfg, s, path);
    var marked := if path in cfg.roots then s.src.staleRoots + {path} else s.src.staleRoots;
    RootLostIsTidy(cfg, s, path);
    RescanKeepsStaleRoots(cfg, Sys(s.src.(staleRoots := marked), s.ker));
    assert r.src.staleRoots == marked;
    assert path in cfg.roots ==> marked + {path} == marked;
    assert r == Sys(r.src.(staleRoots := marked), r.ker);
    RescanOfComplete(cfg, r);
  }

  lemma {:induction false} AddEntriesKeepsStaleRoots(cfg: Config, s: Sys, dirs: seq<Path>)
    ensures AddEntries(cfg, s, dirs).src.staleRoots == s.src.staleRoots
    decreases |dirs|
  {
    if dirs == [] {
    } else {
      AddEntriesKeepsStaleRoots(cfg, AddEntry(cfg, s, dirs[0]), dirs[1..]);
    }
  }

  lemma RescanKeepsStaleRoots(cfg: Config, s: Sys)
    ensures RescanRoots(cfg, s).src.staleRoots == s.src.staleRoots
  {
    AddEntriesKeepsStaleRoots(cfg, Remove(s, Vanished(s)), Entries(s.ker.fs, cfg.roots));
  }

  const EVENT_RETRY_ATTEMPTS: nat := 3

  /** The manager's retry loop: up to `attempts` calls, stopping at an error or a candidate. */
  function Retry(cfg: Config, s: Sys, path: Path, kind: EventKind, attempts: nat): (Sys, Answer)
    decreases attempts
  {
    if attempts == 0 then (s, Ok(None))
    else
      var (next, answer) := HandleFsEvent(cfg, s, path, kind);
      if answer == Ok(None) then Retry(cfg, next, path, kind, attempts - 1) else (next, answer)
  }

  lemma {:induction false} RetryAfterNone(cfg: Config, s: Sys, path: Path, kind: EventKind, attempts: nat)
    requires HandleFsEvent(cfg, s, path, kind) == (s, Ok(None))
    ensures Retry(cfg, s, path, kind, attempts) == (s, Ok(None))
  {
    if attempts == 0 {
    } else {
      RetryAfterNone(cfg, s, path, kind, attempts - 1);
    }
  }

  /** On a file system that stands still, any positive number of attempts is one call. */
  lemma RetryIsOneCall(cfg: Config, s: Sys, path: Path, kind: EventKind, attempts: nat)
    requires TableOk(cfg, s) && s.ker.fs.Listed() && attempts > 0
    ensures Retry(cfg, s, path, kind, attempts) == HandleFsEvent(cfg, s, path, kind)
  {
    hide HandleFsEvent, TableOk;
    if HandleFsEvent(cfg, s, path, kind).1 == Ok(None) {
      RepeatIsNoop(cfg, s, path, kind);
      RetryAfterNone(cfg, HandleFsEvent(cfg, s, path, kind).0, path, kind, attempts - 1);
    }
  }

  /** An event about a uid directory that leaves or is not there any more answers nothing and
      closes the watch of that directory and uid, if there is one, and no other. */
  lemma GoneDirectoryCloses(cfg: Config, s: Sys, dir: Path, kind: EventKind)
    requires UnderRoot(cfg, dir) && UidDirs.ParseUidDirName(dir.name).Some?
    requires kind == Departure || ((kind == Arrival || kind == Other) && dir !in s.ker.fs.nodes)
    ensures var r, e := HandleFsEvent(cfg, s, dir, kind), EventsPath(dir);
            var closes :=
              e in s.src.watches && UidDirs.ParseUidDirName(dir.name) == Some(s.src.watches[e].uid);
            && r.1 == Ok(None)
            && r.0.src.watches == (if closes then s.src.watches - {e} else s.src.watches)
            && forall t :: t in r.0.ker.interest <==>
                             t in s.ker.interest && !(closes && s.ker.interest[t] == s.src.watches[e].fd)
  {
    hide RescanRoots;
  }

  /** Events that say nothing about uid directories below a root change and answer nothing. */
  lemma OtherEventsIgnored(cfg: Config, s: Sys, path: Path, kind: EventKind)
    requires kind == Departure || kind == Arrival || kind == Other
    requires || path.Base? || UidDirs.ParseUidDirName(path.name).None?
             || (path !in cfg.roots && path.parent !in cfg.roots)
             || (kind == Other && path in s.ker.fs.nodes)
    ensures HandleFsEvent(cfg, s, path, kind) == (s, Ok(None))
  {
    hide RescanRoots, AddUidWatch, Remove, ParsePopulated;
  }

  /** A live descriptor that cannot be read is an error and changes nothing. */
  lemma UnreadableIsAnError(cfg: Config, s: Sys, e: Path, error: EngineError)
    requires e in s.src.watches && s.ker.fs.EventsAt(e).Some?
    ensures HandleEventsPath(cfg, s, e, Err(error)) == (s, Err(error))
  {
    hide RescanRoots, ParsePopulated;
  }

  /** A lost root is remembered as stale, once and for all; nothing else is. */
  lemma LostRootsAreRemembered(cfg: Config, s: Sys, path: Path, kind: EventKind)
    ensures HandleFsEvent(cfg, s, path, kind).0.src.staleRoots ==
            s.src.staleRoots + (if kind == RootLost && path in cfg.roots then {path} else {})
  {
    hide AddEntries, ParsePopulated;
    RescanKeepsStaleRoots(cfg, s);
    RescanKeepsStaleRoots(cfg, Sys(s.src.(staleRoots := s.src.staleRoots + {path}), s.ker));
  }

  // ----- Candidates -----

  /** A published candidate: admitted by the filter, named exactly by the cache, and the uid
      of a held watch whose events file was just read as populated. */
  ghost predicate Justified(cfg: Config, s: Sys, c: Candidate) {
    && cfg.filter.Admits(c) && c.source == CgroupV2 && c.pid == None
    && cfg.cache.Some? && cfg.cache.value.UidState(c.uid.value) == Exact(c.package.value)
    && exists e :: e in s.src.watches && s.src.watches[e].uid == c.uid.value
                   && s.src.watches[e].populated == Active
  }

  ghost predicate JustifiedAnswer(cfg: Config, r: (Sys, Answer)) {
    r.1.Ok? && r.1.value.Some? ==> Justified(cfg, r.0, r.1.value.value)
  }

  lemma PriorityCandidateJustified(cfg: Config, s: Sys, e: Path, reading: Result<string, EngineError>)
    requires TableOk(cfg, s)
    ensures JustifiedAnswer(cfg, HandleEventsPath(cfg, s, e, reading))
    ensures JustifiedAnswer(cfg, HandleStaleEventsPath(cfg, s, e))
  {
    var r := HandleEventsPath(cfg, s, e, reading);
    if r.1.Ok? && r.1.value.Some? {
      assert WatchOk(cfg, s, e);
      assert e in r.0.src.watches && r.0.src.watches[e].populated == Active;
    }
  }

  lemma FsCandidateJustified(cfg: Config, s: Sys, path: Path, kind: EventKind)
    requires TableOk(cfg, s)
    ensures JustifiedAnswer(cfg, HandleFsEvent(cfg, s, path, kind))
  {
    var r := HandleFsEvent(cfg, s, path, kind);
    if r.1.Ok? && r.1.value.Some? {
      var e := EventsPath(path);
      assert e in r.0.src.watches && r.0.src.watches[e].populated == Active;
    }
  }

  /** The candidate of a uid: its one listed package, unless that is blocked. */
  lemma CandidateMeans(cfg: Config, uid: nat)
    ensures CandidateForUid(cfg, uid) ==
            if && cfg.cache.Some? && uid in cfg.cache.value.uidToPackages
               && |cfg.cache.value.uidToPackages[uid]| == 1
               && cfg.cache.value.uidToPackages[uid][0] !in cfg.filter.blockedPackages
            then Some(Candidate(CgroupV2, None, Some(uid), Some(cfg.cache.value.uidToPackages[uid][0]), true))
            else None
  {
  }

  /** A printed events file with the given word behind `populated`. */
  ghost predicate Says(content: string, word: string) {
    exists before, tail ::
      && content == Terminated(before) + ("populated " + word + "\n" + tail)
      && forall l | l in before :: PlainLine(l) && (Words(l) == [] || Words(l)[0] != "populated")
  }

  lemma SaysDecides(content: string)
    ensures Says(content, "1") ==> ParsePopulated(content) == Active
    ensures Says(content, "0") ==> ParsePopulated(content) == Inactive
  {
    forall word | word in ["1", "0"] && Says(content, word)
      ensures ParsePopulated(content) == if word == "1" then Active else Inactive
    {
      var before, tail :|
        && content == Terminated(before) + ("populated " + word + "\n" + tail)
        && forall l | l in before :: PlainLine(l) && (Words(l) == [] || Words(l)[0] != "populated");
      PrintedPopulated(before, word, tail);
    }
    assert "1" in ["1", "0"] && "0" in ["1", "0"];
  }

  // ----- Polling -----

  /** What polling one path yields, judged on the file system and the table as they were
      when polling began. */
  function Verdict(cfg: Config, s: Sys, e: Path): Answer
    requires e in s.src.watches
  {
    match s.ker.fs.EventsAt(e)
    case None => Ok(None)
    case Some(file) =>
      if !file.openable then Err(Failed)
      else if ParsePopulated(file.text) == Active then Ok(CandidateForUid(cfg, s.src.watches[e].uid))
      else Ok(None)
  }

  /** The first path whose verdict is not "nothing" decides the answer. */
  ghost predicate FirstVerdict(cfg: Config, s: Sys, paths: seq<Path>, answer: Answer)
    requires forall p | p in paths :: p in s.src.watches
  {
    if answer == Ok(None) then forall i | 0 <= i < |paths| :: Verdict(cfg, s, paths[i]) == Ok(None)
    else exists i :: DecidesAt(cfg, s, paths, answer, i)
  }

  ghost predicate DecidesAt(cfg: Config, s: Sys, paths: seq<Path>, answer: Answer, i: int)
    requires forall p | p in paths :: p in s.src.watches
  {
    && 0 <= i < |paths| && Verdict(cfg, s, paths[i]) == answer
    && forall j | 0 <= j < i :: Verdict(cfg, s, paths[j]) == Ok(None)
  }

  /** A priority event on a current descriptor does what polling does for its path, as long as
      the buffer holds the line that decides. */
  lemma PriorityAnswersVerdict(cfg: Config, s: Sys, e: Path)
    requires e in s.src.watches && s.ker.fs.Openable(e) && FitsBuffer(s.ker.fs.EventsAt(e).value.text)
    ensures HandleEventsPath(cfg, s, e, Ok(s.ker.fs.EventsAt(e).value.text)) ==
            (SetPopulated(s, e, ParsePopulated(s.ker.fs.EventsAt(e).value.text)), Verdict(cfg, s, e))
  {
    BufferSuffices(s.ker.fs.EventsAt(e).value.text);
  }

  /** Polling a watched path whose file says `1` answers with the one package of its uid, which
      is an admissible one; a file that says `0` answers nothing. */
  lemma PollPublishes(cfg: Config, s: Sys, e: Path, package: string)
    requires TableOk(cfg, s) && e in s.src.watches && s.ker.fs.Openable(e)
    requires cfg.cache.Some? && s.src.watches[e].uid in cfg.cache.value.uidToPackages
    requires cfg.cache.value.uidToPackages[s.src.watches[e].uid] == [package]
    requires package !in cfg.filter.blockedPackages
    ensures var uid, text := s.src.watches[e].uid, s.ker.fs.EventsAt(e).value.text;
            && uid !in cfg.filter.blockedUids && uid !in cfg.filter.accessibilityUids
            && (uid >= 10_000 || cfg.filter.allowSystemUids)
            && (Says(text, "1") ==>
                  Verdict(cfg, s, e) == Ok(Some(Candidate(CgroupV2, None, Some(uid), Some(package), true))))
            && (Says(text, "0") ==> Verdict(cfg, s, e) == Ok(None))
  {
    hide Says, ParsePopulated;
    assert WatchOk(cfg, s, e);
    ValidUidMeans(cfg.filter, s.src.watches[e].uid);
    CandidateMeans(cfg, s.src.watches[e].uid);
    SaysDecides(s.ker.fs.EventsAt(e).value.text);
  }

  /** A new directory is watched and recorded, and if its file says `1` its one package is
      published at once. */
  lemma ArrivalPublishes(cfg: Config, s: Sys, dir: Path, package: string)
    requires Watchable(cfg, s.ker.fs, EventsPath(dir)) && EventsPath(dir) !in s.src.watches
    requires var uid := UidDirs.ParseUidDirName(dir.name).value;
             && cfg.cache.Some? && uid in cfg.cache.value.uidToPackages
             && cfg.cache.value.uidToPackages[uid] == [package] && package !in cfg.filter.blockedPackages
    ensures var r, e := HandleFsEvent(cfg, s, dir, Arrival), EventsPath(dir);
            var uid, text := UidDirs.ParseUidDirName(dir.name).value, s.ker.fs.EventsAt(e).value.text;
            && e in r.0.src.watches && r.0.src.watches[e].uid == uid
            && (Says(text, "1") ==>
                  && r.0.src.watches[e].populated == Active
                  && r.1 == Ok(Some(Candidate(CgroupV2, None, Some(uid), Some(package), true))))
            && (Says(text, "0") ==> r.0.src.watches[e].populated == Inactive && r.1 == Ok(None))
  {
    hide Says, ParsePopulated;
    CandidateMeans(cfg, UidDirs.ParseUidDirName(dir.name).value);
    SaysDecides(s.ker.fs.EventsAt(EventsPath(dir)).value.text);
  }

  lemma PollUnfolds(cfg: Config, s: Sys, now: Sys, paths: seq<Path>)
    requires TableOk(cfg, now) && Tidy(cfg, s, now)
    requires paths != [] && paths[0] in s.src.watches
    ensures var verdict := Verdict(cfg, s, paths[0]);
            var r := PollFrom(cfg, now, paths);
            if verdict == Ok(None) then r == PollFrom(cfg, PollOne(cfg, now, paths[0]), paths[1..])
            else r.1 == verdict && JustifiedAnswer(cfg, r)
  {
    var e := paths[0];
    if e in now.src.watches {
      assert SameWatch(s.src.watches[e], now.src.watches[e]) && WatchOk(cfg, now, e);
      var next := PollOne(cfg, now, e);
      if Verdict(cfg, s, e).Ok? && Verdict(cfg, s, e).value.Some? {
        assert e in next.src.watches && next.src.watches[e].populated == Active;
      }
    }
  }

  lemma FirstVerdictExtends(cfg: Config, s: Sys, paths: seq<Path>, answer: Answer)
    requires paths != [] && forall p | p in paths :: p in s.src.watches
    requires if Verdict(cfg, s, paths[0]) == Ok(None) then FirstVerdict(cfg, s, paths[1..], answer)
             else answer == Verdict(cfg, s, paths[0])
    ensures FirstVerdict(cfg, s, paths, answer)
  {
    var rest := paths[1..];
    assert forall j | 1 <= j < |paths| :: paths[j] == rest[j - 1];
    if Verdict(cfg, s, paths[0]) != Ok(None) {
      assert DecidesAt(cfg, s, paths, answer, 0);
    } else if answer != Ok(None) {
      var i :| DecidesAt(cfg, s, rest, answer, i);
      assert DecidesAt(cfg, s, paths, answer, i + 1);
    }
  }

  /** Though polling rescans and rewrites the table as it goes, its answer is the first
      verdict over the original table. */
  lemma {:induction false} PollFromIsFirstVerdict(cfg: Config, s: Sys, now: Sys, paths: seq<Path>)
    requires TableOk(cfg, s) && TableOk(cfg, now) && s.ker.fs.Listed() && Tidy(cfg, s, now)
    requires forall p | p in paths :: p in s.src.watches
    ensures FirstVerdict(cfg, s, paths, PollFrom(cfg, now, paths).1)
    ensures JustifiedAnswer(cfg, PollFrom(cfg, now, paths))
    decreases |paths|
  {
    if paths == [] {
    } else {
      var next := PollOne(cfg, now, paths[0]);
      PollUnfolds(cfg, s, now, paths);
      PollOneIsTidy(cfg, now, paths[0]);
      TidyTransitive(cfg, s, now, next);
      PollFromIsFirstVerdict(cfg, s, next, paths[1..]);
      FirstVerdictExtends(cfg, s, paths, PollFrom(cfg, now, paths).1);
    }
  }

  /** Polling answers with the first verdict in path order over the table it started from. */
  lemma PollIsFirstVerdict(cfg: Config, s: Sys)
    requires TableOk(cfg, s) && s.ker.fs.Listed()
    ensures FirstVerdict(cfg, s, SortedPaths(s.src.watches.Keys), PollCurrent(cfg, s).1)
    ensures JustifiedAnswer(cfg, PollCurrent(cfg, s))
  {
    EvolvedReflexive(cfg, s);
    PollFromIsFirstVerdict(cfg, s, s, SortedPaths(s.src.watches.Keys));
  }
}
