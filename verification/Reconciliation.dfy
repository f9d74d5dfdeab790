/** Keeping the reactor's priority registrations in step with the watch table
    (`services/watch.rs`, `services/foreground/auto.rs`). */
module Reconciliation {
  import opened Basics
  import opened Paths
  import opened WatchTable

  // ----- The watcher's own tables -----

  /** `foreground_priority_keys`, `foreground_priority_paths`, `foreground_priority_tokens`. */
  datatype Watcher = Watcher(keys: map<Path, nat>, paths: set<Path>, tokens: map<nat, Path>)

  /** The source alone, or behind the automatic source, which hides it while v1 answers. */
  datatype Mode = V2Only | Automatic(v1Available: bool)

  predicate Hidden(mode: Mode) {
    mode == Automatic(true)
  }

  function Visible(src: Source, hidden: bool): map<Path, UidWatch> {
    if hidden then map[] else src.watches
  }

  /** `priority_hint_keys`: the path-to-generation map the watcher must mirror. */
  function KeysOf(watches: map<Path, UidWatch>): map<Path, nat> {
    map e | e in watches :: watches[e].generation
  }

  // ----- sync_foreground_priority_fds -----

  function DropPath(w: Watcher, e: Path): Watcher {
    Watcher(w.keys - {e}, w.paths - {e}, map t | t in w.tokens && w.tokens[t] != e :: w.tokens[t])
  }

  function WithoutFd(interest: map<nat, nat>, fd: nat): map<nat, nat> {
    map t | t in interest && interest[t] != fd :: interest[t]
  }

  /** `unregister_priority_fd`: the reactor refuses a descriptor it does not know. */
  function Unregister(s: Sys, e: Path): Option<Sys> {
    if e !in s.src.watches then Some(s)
    else if s.src.watches[e].fd !in s.ker.interest.Values then None
    else Some(s.(ker := s.ker.(interest := WithoutFd(s.ker.interest, s.src.watches[e].fd))))
  }

  function UnregisterAll(s: Sys, w: Watcher, es: seq<Path>): Option<(Sys, Watcher)>
    decreases |es|
  {
    if es == [] then Some((s, w))
    else
      match Unregister(s, es[0])
      case None => None
      case Some(next) => UnregisterAll(next, DropPath(w, es[0]), es[1..])
  }

  function DropAll(w: Watcher, es: seq<Path>): Watcher
    decreases |es|
  {
    if es == [] then w else DropAll(DropPath(w, es[0]), es[1..])
  }

  /** `register_priority_fds`: the reactor refuses a descriptor it already has. */
  function RegisterFds(s: Sys, registered: set<Path>, es: seq<Path>): Option<(Sys, seq<(nat, Path)>)>
    requires forall e | e in es :: e in s.src.watches
    decreases |es|
  {
    if es == [] then Some((s, []))
    else if es[0] in registered then RegisterFds(s, registered, es[1..])
    else
      match AddPriority(s, es[0])
      case None => None
      case Some(next) =>
        match RegisterFds(next, registered, es[1..])
        case None => None
        case Some((final, later)) => Some((final, [(s.ker.nextToken, es[0])] + later))
  }

  function AddPriority(s: Sys, e: Path): (r: Option<Sys>)
    requires e in s.src.watches
    ensures r.Some? ==> r.value.src == s.src
  {
    var fd := s.src.watches[e].fd;
    if fd in s.ker.interest.Values then None
    else Some(s.(ker := s.ker.(interest := s.ker.interest[s.ker.nextToken := fd], nextToken := s.ker.nextToken + 1)))
  }

  function Record(w: Watcher, current: map<Path, nat>, token: nat, e: Path): Watcher {
    Watcher(if e in current then w.keys[e := current[e]] else w.keys, w.paths + {e}, w.tokens[token := e])
  }

  function RecordAll(w: Watcher, current: map<Path, nat>, registrations: seq<(nat, Path)>): Watcher
    decreases |registrations|
  {
    if registrations == [] then w
    else RecordAll(Record(w, current, registrations[0].0, registrations[0].1), current, registrations[1..])
  }

  function Gone(keys: map<Path, nat>, current: map<Path, nat>): seq<Path> {
    SortedPaths(keys.Keys - current.Keys)
  }

  function Changed(keys: map<Path, nat>, current: map<Path, nat>): seq<Path> {
    SortedPaths(set e | e in keys && !(e in current && current[e] == keys[e]))
  }

  /** The three loops of the sync; `None` when the reactor refused a call. */
  function Sync(s: Sys, w: Watcher, hidden: bool): Option<(Sys, Watcher)> {
    var current := KeysOf(Visible(s.src, hidden));
    match UnregisterAll(s, w, Gone(w.keys, current))
    case None => None
    case Some((s1, w1)) =>
      var w2 := DropAll(w1, Changed(w.keys, current));
      match RegisterFds(s1, w2.paths, SortedPaths(Visible(s1.src, hidden).Keys))
      case None => None
      case Some((s2, registrations)) => Some((s2, RecordAll(w2, current, registrations)))
  }

  // ----- The automatic source -----

  /** What v1 and the activity fallback answer if they are asked during one call. */
  datatype Oracle = Oracle(v1: Answer, activity: Answer)

  datatype Front = Front(mode: Mode, sys: Sys)

  function OrActivity(r: (Sys, Answer), mode: Mode, o: Oracle): (Front, Answer) {
    (Front(mode, r.0), if r.1.Ok? then r.1 else o.activity)
  }

  /** `recover_v1_if_available`: `Some` when v1 answers for everybody. */
  function Recover(front: Front, o: Oracle): Option<(Front, Answer)>
    requires front.mode.Automatic?
  {
    if front.mode.v1Available then Some((front, Ok(None)))
    else if o.v1.Ok? then Some((front.(mode := Automatic(true)), o.v1))
    else None
  }

  function PollFront(cfg: Config, front: Front, o: Oracle): (Front, Answer) {
    match front.mode
    case V2Only =>
      var r := PollCurrent(cfg, front.sys);
      (front.(sys := r.0), r.1)
    case Automatic(_) =>
      if o.v1.Ok? then (front.(mode := Automatic(true)), o.v1)
      else OrActivity(PollCurrent(cfg, front.sys), Automatic(false), o)
  }

  function FsEventFront(cfg: Config, v1Hints: seq<Path>, front: Front, path: Path, kind: EventKind, o: Oracle)
    : (Front, Answer)
  {
    match front.mode
    case V2Only =>
      var r := HandleFsEvent(cfg, front.sys, path, kind);
      (front.(sys := r.0), r.1)
    case Automatic(_) =>
      if path in v1Hints || !(path in cfg.roots || UnderRoot(cfg, path)) then PollFront(cfg, front, o)
      else
        match Recover(front, o)
        case Some(r) => r
        case None => OrActivity(HandleFsEvent(cfg, front.sys, path, kind), front.mode, o)
  }

  function PriorityFront(cfg: Config, front: Front, e: Path, reading: Result<string, EngineError>, o: Oracle)
    : (Front, Answer)
  {
    match front.mode
    case V2Only =>
      var r := HandleEventsPath(cfg, front.sys, e, reading);
      (front.(sys := r.0), r.1)
    case Automatic(_) =>
      match Recover(front, o)
      case Some(r) => r
      case None => OrActivity(HandleEventsPath(cfg, front.sys, e, reading), front.mode, o)
  }

  function StaleFront(cfg: Config, front: Front, e: Path, o: Oracle): (Front, Answer) {
    match front.mode
    case V2Only =>
      var r := HandleStaleEventsPath(cfg, front.sys, e);
      (front.(sys := r.0), r.1)
    case Automatic(_) =>
      match Recover(front, o)
      case Some(r) => r
      case None => OrActivity(HandleStaleEventsPath(cfg, front.sys, e), front.mode, o)
  }

  /** The manager's retries: one oracle for each attempt still allowed. */
  function Attempts(cfg: Config, v1Hints: seq<Path>, front: Front, path: Path, kind: EventKind, os: seq<Oracle>)
    : (Front, Answer)
    decreases |os|
  {
    if os == [] then (front, Ok(None))
    else
      var (next, answer) := FsEventFront(cfg, v1Hints, front, path, kind, os[0]);
      if answer == Ok(None) then Attempts(cfg, v1Hints, next, path, kind, os[1..]) else (next, answer)
  }

  // ----- Runs of the engine watcher -----

  datatype Status = Running | HandlerFailed | ReactorFailed

  datatype Engine = Engine(front: Front, w: Watcher, status: Status)

  datatype Action =
    | World(fs: Fs)
    | FsEvent(path: Path, mask: bv32, attempts: seq<Oracle>)
    | Ready(token: nat, error: bool, priority: bool, reading: Result<string, EngineError>, o: Oracle)
    | PollNow(o: Oracle)

  /** After a handler answered: stop on its error, otherwise sync. */
  function AfterHandler(engine: Engine, r: (Front, Answer)): Engine {
    if r.1.Err? then engine.(front := r.0, status := HandlerFailed)
    else
      match Sync(r.0.sys, engine.w, Hidden(r.0.mode))
      case None => engine.(front := r.0, status := ReactorFailed)
      case Some((s, w)) => Engine(r.0.(sys := s), w, Running)
  }

  function Step(cfg: Config, v1Hints: seq<Path>, engine: Engine, a: Action): Engine {
    if engine.status != Running then engine
    else
      match a
      case World(fs) =>
        if forall p | p in fs.nodes :: p in fs.order then
          engine.(front := engine.front.(sys := engine.front.sys.(ker := engine.front.sys.ker.(fs := fs))))
        else engine
      case FsEvent(path, mask, attempts) =>
        AfterHandler(engine, Attempts(cfg, v1Hints, engine.front, path, KindOf(mask), attempts))
      case Ready(token, error, priority, reading, o) =>
        if token !in engine.w.tokens then engine
        else if error then AfterHandler(engine, StaleFront(cfg, engine.front, engine.w.tokens[token], o))
        else if priority then
          AfterHandler(engine, PriorityFront(cfg, engine.front, engine.w.tokens[token], reading, o))
        else engine
      case PollNow(o) => AfterHandler(engine, PollFront(cfg, engine.front, o))
  }

  function Run(cfg: Config, v1Hints: seq<Path>, engine: Engine, actions: seq<Action>): Engine
    decreases |actions|
  {
    if actions == [] then engine
    else Run(cfg, v1Hints, Step(cfg, v1Hints, engine, actions[0]), actions[1..])
  }

  const EmptyWatcher := Watcher(map[], {}, map[])

  /** `EngineWatch::new` over a new source: empty tables and a first sync. */
  function Begin(cfg: Config, fs: Fs, mode: Mode): Engine {
    var front := Front(mode, NewSource(cfg, Kernel(fs, 0, map[], 0)));
    AfterHandler(Engine(front, EmptyWatcher, Running), (front, Ok(None)))
  }
}
