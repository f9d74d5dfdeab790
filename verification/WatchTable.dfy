/** The cgroup v2 watch table (`services/foreground/cgroup_v2.rs`) as a function of the file
    system and the kernel's descriptor bookkeeping. Every handler of the source is a function
    from a system state to the next one; the class in `CgroupV2Source` is proved to compute
    these functions in place. */
module WatchTable {
  import opened Basics
  import opened Paths
  import opened Candidates
  import opened PackageIndex
  import opened CgroupEvents
  import UidDirs

  // ----- The outside world -----

  datatype EventsFile = EventsFile(openable: bool, text: string)

  /** An existing file or directory. Recreating a path gives it a new incarnation. */
  datatype Node = Node(isDir: bool, incarnation: nat, events: Option<EventsFile>)

  /** The file system: which directories can be listed, what exists below them, and the
      order in which a listing returns entries. */
  datatype Fs = Fs(listable: set<Path>, nodes: map<Path, Node>, order: seq<Path>)
  {
    function EventsAt(e: Path): Option<EventsFile> {
      if e.Join? && e.name == EVENTS_NAME && e.parent in nodes && nodes[e.parent].isDir
      then nodes[e.parent].events
      else None
    }

    predicate Openable(e: Path) {
      EventsAt(e).Some? && EventsAt(e).value.openable
    }

    ghost predicate Listed() {
      forall p | p in nodes :: p in order
    }
  }

  /** Descriptors and the reactor's interest list. Closing a descriptor takes it off the
      list; tokens and descriptors are never reused. */
  datatype Kernel = Kernel(fs: Fs, nextFd: nat, interest: map<nat, nat>, nextToken: nat)

  const EVENTS_NAME := "cgroup.events"

  function EventsPath(dir: Path): Path {
    Join(dir, EVENTS_NAME)
  }

  // ----- The table -----

  /** `incarnation` is the incarnation of the directory the descriptor was opened in. */
  datatype UidWatch = UidWatch(uid: nat, fd: nat, incarnation: nat, generation: nat, populated: Populated)

  datatype Source = Source(watches: map<Path, UidWatch>, staleRoots: set<Path>, nextGeneration: nat)

  datatype Config = Config(roots: seq<Path>, filter: Filter, cache: Option<Index>)

  datatype Sys = Sys(src: Source, ker: Kernel)

  type Answer = Result<Option<Candidate>, EngineError>

  predicate CanAdd(cfg: Config, s: Sys, dir: Path, uid: nat) {
    && cfg.filter.IsValidUid(uid)
    && EventsPath(dir) !in s.src.watches
    && s.ker.fs.Openable(EventsPath(dir))
  }

  function WithWatch(s: Sys, dir: Path, uid: nat): Sys
    requires dir in s.ker.fs.nodes
  {
    var w := UidWatch(uid, s.ker.nextFd, s.ker.fs.nodes[dir].incarnation, s.src.nextGeneration, Unknown);
    Sys(s.src.(watches := s.src.watches[EventsPath(dir) := w],
               nextGeneration := SaturatingAdd(s.src.nextGeneration, 1)),
        s.ker.(nextFd := s.ker.nextFd + 1))
  }

  function AddUidWatch(cfg: Config, s: Sys, dir: Path, uid: nat): (Sys, bool) {
    if CanAdd(cfg, s, dir, uid) then (WithWatch(s, dir, uid), true) else (s, false)
  }

  /** Descriptors of the paths in `gone` are closed, which takes them off the interest list. */
  function Close(interest: map<nat, nat>, watches: map<Path, UidWatch>, gone: set<Path>): map<nat, nat> {
    map t | t in interest && (forall e | e in gone && e in watches :: watches[e].fd != interest[t]) :: interest[t]
  }

  function Remove(s: Sys, gone: set<Path>): Sys {
    Sys(s.src.(watches := s.src.watches - gone),
        s.ker.(interest := Close(s.ker.interest, s.src.watches, gone)))
  }

  function RemoveUidWatchPath(s: Sys, e: Path, uid: nat): Sys {
    if e in s.src.watches && s.src.watches[e].uid == uid then Remove(s, {e}) else s
  }

  function Vanished(s: Sys): set<Path> {
    set e | e in s.src.watches && s.ker.fs.EventsAt(e).None?
  }

  function ChildrenIn(order: seq<Path>, root: Path): seq<Path> {
    if order == [] then []
    else (if order[0].Join? && order[0].parent == root then [order[0]] else []) + ChildrenIn(order[1..], root)
  }

  /** Everything the listings of the roots return, root by root. Unlistable roots are skipped. */
  function Entries(fs: Fs, roots: seq<Path>): seq<Path> {
    if roots == [] then []
    else (if roots[0] in fs.listable then ChildrenIn(fs.order, roots[0]) else []) + Entries(fs, roots[1..])
  }

  function AddEntry(cfg: Config, s: Sys, dir: Path): Sys {
    if dir.Join? && dir in s.ker.fs.nodes && s.ker.fs.nodes[dir].isDir then
      match UidDirs.ParseUidDirName(dir.name)
      case None => s
      case Some(uid) => AddUidWatch(cfg, s, dir, uid).0
    else s
  }

  function AddEntries(cfg: Config, s: Sys, dirs: seq<Path>): Sys
    decreases |dirs|
  {
    if dirs == [] then s else AddEntries(cfg, AddEntry(cfg, s, dirs[0]), dirs[1..])
  }

  function ScanRoots(cfg: Config, s: Sys): Sys {
    AddEntries(cfg, s, Entries(s.ker.fs, cfg.roots))
  }

  function RescanRoots(cfg: Config, s: Sys): Sys {
    ScanRoots(cfg, Remove(s, Vanished(s)))
  }

  /** `CgroupV2EventsSource::new`. */
  function NewSource(cfg: Config, ker: Kernel): Sys {
    ScanRoots(cfg, Sys(Source(map[], {}, 1), ker))
  }

  // ----- Handlers -----

  function CandidateForUid(cfg: Config, uid: nat): Option<Candidate> {
    if cfg.cache.None? then None
    else
      match cfg.cache.value.UidState(uid)
      case Exact(package) =>
        if package in cfg.filter.blockedPackages then None
        else Some(Candidate(CgroupV2, None, Some(uid), Some(package), true))
      case Missing => None
      case Ambiguous(_) => None
  }

  function SetPopulated(s: Sys, e: Path, populated: Populated): Sys {
    if e in s.src.watches then
      Sys(s.src.(watches := s.src.watches[e := s.src.watches[e].(populated := populated)]), s.ker)
    else s
  }

  function HandleUidPopulatedAt(cfg: Config, s: Sys, e: Path, uid: nat, populated: Populated): (Sys, Answer) {
    if e !in s.src.watches then (s, Ok(None))
    else (SetPopulated(s, e, populated),
          Ok(if populated == Active then CandidateForUid(cfg, uid) else None))
  }

  /** A priority event on a watched path. `reading` is the content behind the held descriptor,
      of which the buffer takes the beginning; it fails when the descriptor outlived its
      directory. */
  function HandleEventsPath(cfg: Config, s: Sys, e: Path, reading: Result<string, EngineError>): (Sys, Answer) {
    if e !in s.src.watches then (RescanRoots(cfg, s), Ok(None))
    else if s.ker.fs.EventsAt(e).None? then HandleStaleEventsPath(cfg, s, e)
    else
      match reading
      case Err(error) => (s, Err(error))
      case Ok(text) => HandleUidPopulatedAt(cfg, s, e, s.src.watches[e].uid, ParsePopulated(Buffered(text)))
  }

  function HandleStaleEventsPath(cfg: Config, s: Sys, e: Path): (Sys, Answer) {
    (RescanRoots(cfg, Remove(s, {e})), Ok(None))
  }

  const IN_MOVED_FROM: bv32 := 0x0000_0040
  const IN_MOVED_TO: bv32 := 0x0000_0080
  const IN_CREATE: bv32 := 0x0000_0100
  const IN_DELETE: bv32 := 0x0000_0200
  const IN_DELETE_SELF: bv32 := 0x0000_0400
  const IN_MOVE_SELF: bv32 := 0x0000_0800
  const IN_Q_OVERFLOW: bv32 := 0x0000_4000
  const IN_IGNORED: bv32 := 0x0000_8000

  predicate Overflows(mask: bv32) { mask & IN_Q_OVERFLOW != 0 }
  predicate RootGone(mask: bv32) { mask & (IN_DELETE_SELF | IN_MOVE_SELF | IN_IGNORED) != 0 }
  predicate Removes(mask: bv32) { mask & (IN_DELETE | IN_MOVED_FROM) != 0 }
  predicate Arrives(mask: bv32) { mask & (IN_CREATE | IN_MOVED_TO) != 0 }

  /** What a mask means to the handler, in the order the handler tests its bits. A zero mask
      is an event without detail and counts as an arrival. */
  datatype EventKind = Overflow | RootLost | Departure | Arrival | Other

  function KindOf(mask: bv32): EventKind {
    if Overflows(mask) then Overflow
    else if RootGone(mask) then RootLost
    else if Removes(mask) then Departure
    else if Arrives(mask) || mask == 0 then Arrival
    else Other
  }

  predicate UnderRoot(cfg: Config, path: Path) {
    path.Join? && path.parent in cfg.roots
  }

  function HandleArrival(cfg: Config, s: Sys, path: Path, uid: nat): (Sys, Answer) {
    var (added, isNew) := AddUidWatch(cfg, s, path, uid);
    if !isNew then (s, Ok(None))
    else
      match s.ker.fs.EventsAt(EventsPath(path))
      case None => (added, Err(NotFound))
      case Some(file) =>
        HandleUidPopulatedAt(cfg, added, EventsPath(path), uid, ParsePopulated(file.text))
  }

  function HandleRootLost(cfg: Config, s: Sys, path: Path): Sys {
    var stale := if path in cfg.roots then s.src.staleRoots + {path} else s.src.staleRoots;
    RescanRoots(cfg, Sys(s.src.(staleRoots := stale), s.ker))
  }

  function HandleUidPath(cfg: Config, s: Sys, path: Path, uid: nat, kind: EventKind): (Sys, Answer) {
    if kind == Departure || path !in s.ker.fs.nodes then
      (RemoveUidWatchPath(s, EventsPath(path), uid), Ok(None))
    else if kind == Other || !UnderRoot(cfg, path) then (s, Ok(None))
    else HandleArrival(cfg, s, path, uid)
  }

  function HandleRootPath(cfg: Config, s: Sys, path: Path, kind: EventKind): (Sys, Answer) {
    if kind == Overflow then (RescanRoots(cfg, s), Ok(None))
    else if kind == RootLost then (HandleRootLost(cfg, s, path), Ok(None))
    else if path.Base? || UidDirs.ParseUidDirName(path.name).None? then (s, Ok(None))
    else HandleUidPath(cfg, s, path, UidDirs.ParseUidDirName(path.name).value, kind)
  }

  /** `handle_fs_event_with_mask`, on the meaning of the mask. */
  function HandleFsEvent(cfg: Config, s: Sys, path: Path, kind: EventKind): (Sys, Answer) {
    if kind == Overflow || path in cfg.roots || UnderRoot(cfg, path) then HandleRootPath(cfg, s, path, kind)
    else (s, Ok(None))
  }

  /** The polling loop over the paths the table held when it started. */
  function PollFrom(cfg: Config, s: Sys, paths: seq<Path>): (Sys, Answer)
    decreases |paths|
  {
    if paths == [] then (s, Ok(None))
    else if paths[0] !in s.src.watches then PollFrom(cfg, s, paths[1..])
    else
      match s.ker.fs.EventsAt(paths[0])
      case None => PollFrom(cfg, RescanRoots(cfg, Remove(s, {paths[0]})), paths[1..])
      case Some(file) =>
        if !file.openable then (s, Err(Failed))
        else
          var populated := ParsePopulated(file.text);
          var candidate := CandidateForUid(cfg, s.src.watches[paths[0]].uid);
          var next := SetPopulated(s, paths[0], populated);
          if populated == Active && candidate.Some? then (next, Ok(candidate))
          else PollFrom(cfg, next, paths[1..])
  }

  function PollCurrent(cfg: Config, s: Sys): (Sys, Answer) {
    PollFrom(cfg, s, SortedPaths(s.src.watches.Keys))
  }
}
