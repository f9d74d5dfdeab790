/** What a poll of the watcher amounts to (`services/watch.rs`): the ready list as engine actions,
    the inotify watch table they move, and what is published about their answers. */
module PollLoop {
  import opened Basics
  import opened Paths
  import opened Candidates
  import opened PackageIndex
  import opened WatchTable
  import opened AutoSource
  import opened Pipeline
  import opened Reconciliation
  import opened ChangeFilter
  import opened CandidateRuns
  import Runs = ReconciliationRuns
  import opened ReconciliationFacts
  import WatchTableFacts
  import WatchHandlers
  import UidDirs
  import CgroupEvents

  // ----- The inotify watch table -----

  /** Which directory each watch descriptor stands for, the next descriptor, and the paths whose
      watch was refused, in order. */
  datatype Table = Table(byWd: map<int, Path>, nextWd: int, failures: seq<Path>)
  {
    ghost predicate Valid() {
      forall wd | wd in byWd :: wd < nextWd
    }
  }

  function WatchedIn(byWd: map<int, Path>): set<Path> {
    set wd | wd in byWd :: byWd[wd]
  }

  /** `add_watch_path`; `addable` are the paths the kernel can watch at that moment. */
  function AddPath(t: Table, path: Path, addable: set<Path>): Table {
    if path in WatchedIn(t.byWd) then t
    else if path in addable then t.(byWd := t.byWd[t.nextWd := path], nextWd := t.nextWd + 1)
    else t.(failures := t.failures + [path])
  }

  function AddPaths(t: Table, paths: seq<Path>, addable: set<Path>): Table
    decreases |paths|
  {
    if paths == [] then t else AddPaths(AddPath(t, paths[0], addable), paths[1..], addable)
  }

  /** `remove_watch_path`. */
  function RemovePath(t: Table, path: Path): Table {
    t.(byWd := map wd | wd in t.byWd && t.byWd[wd] != path :: t.byWd[wd])
  }

  function RemovePaths(t: Table, paths: seq<Path>): Table
    decreases |paths|
  {
    if paths == [] then t else RemovePaths(RemovePath(t, paths[0]), paths[1..])
  }

  function ToSet(paths: seq<Path>): set<Path> {
    set p | p in paths
  }

  /** `sync_foreground_watch_paths`, its two loops in the order of the paths. */
  function SyncPaths(t: Table, hints: seq<Path>, addable: set<Path>): Table {
    AddPaths(RemovePaths(t, SortedPaths(WatchedIn(t.byWd) - ToSet(hints))), SortedPaths(ToSet(hints)), addable)
  }

  lemma {:induction false} RemovedPaths(t: Table, paths: seq<Path>, wd: int)
    ensures var r := RemovePaths(t, paths);
            && (wd in r.byWd <==> wd in t.byWd && t.byWd[wd] !in paths)
            && (wd in r.byWd ==> r.byWd[wd] == t.byWd[wd])
            && r.nextWd == t.nextWd && r.failures == t.failures
    decreases |paths|
  {
    if paths == [] {
    } else {
      RemovedPaths(RemovePath(t, paths[0]), paths[1..], wd);
    }
  }

  lemma AddedPath(t: Table, path: Path, addable: set<Path>)
    requires t.Valid()
    ensures var r := AddPath(t, path, addable);
            && r.Valid() && t.nextWd <= r.nextWd
            && (forall wd | wd in t.byWd :: wd in r.byWd && r.byWd[wd] == t.byWd[wd])
            && (forall wd | wd in r.byWd :: wd in t.byWd || wd >= t.nextWd)
            && WatchedIn(r.byWd) == WatchedIn(t.byWd) + ({path} * addable)
            && r.failures == t.failures + (if path in WatchedIn(t.byWd) + addable then [] else [path])
  {
    if path !in WatchedIn(t.byWd) && path in addable {
      ValuesGrow(t.byWd, t.nextWd, path);
    }
  }

  lemma RemoveUnwatched(t: Table, path: Path)
    requires path !in WatchedIn(t.byWd)
    ensures RemovePath(t, path) == t
  {
    assert forall wd | wd in t.byWd :: t.byWd[wd] in WatchedIn(t.byWd);
    assert RemovePath(t, path).byWd == t.byWd;
  }

  /** A descriptor once given keeps its path, and a path is watched afterwards if it was before
      or is among the wanted ones that can be. */
  lemma {:induction false} AddedPaths(t: Table, paths: seq<Path>, addable: set<Path>)
    requires t.Valid()
    ensures var r := AddPaths(t, paths, addable);
            && r.Valid() && t.nextWd <= r.nextWd
            && (forall wd | wd in t.byWd :: wd in r.byWd && r.byWd[wd] == t.byWd[wd])
            && (forall wd | wd in r.byWd :: wd in t.byWd || wd >= t.nextWd)
            && WatchedIn(r.byWd) == WatchedIn(t.byWd) + (ToSet(paths) * addable)
    decreases |paths|
  {
    hide AddPath, WatchedIn;
    if paths == [] {
    } else {
      AddedPath(t, paths[0], addable);
      AddedPaths(AddPath(t, paths[0], addable), paths[1..], addable);
      assert ToSet(paths) == {paths[0]} + ToSet(paths[1..]);
    }
  }

  lemma ValuesGrow(m: map<int, Path>, wd: int, path: Path)
    requires wd !in m
    ensures WatchedIn(m[wd := path]) == WatchedIn(m) + {path}
  {
    var grown := m[wd := path];
    assert grown[wd] == path;
    forall p | p in WatchedIn(m) ensures p in WatchedIn(grown) {
      var k :| k in m && m[k] == p;
      assert grown[k] == p;
    }
  }

  /** Refused are exactly the wanted paths that neither are watched nor can be, in their order. */
  lemma {:induction false} RefusedPaths(t: Table, paths: seq<Path>, addable: set<Path>)
    requires t.Valid() && Distinct(paths)
    ensures AddPaths(t, paths, addable).failures == t.failures + Refused(paths, WatchedIn(t.byWd) + addable)
    decreases |paths|
  {
    hide AddPath, WatchedIn, Table.Valid, Distinct;
    if paths == [] {
    } else {
      var next, rest := AddPath(t, paths[0], addable), paths[1..];
      var accepted := WatchedIn(t.byWd) + addable;
      AddedPath(t, paths[0], addable);
      DistinctTail(paths);
      RefusedPaths(next, rest, addable);
      RefusedAgree(rest, accepted, WatchedIn(next.byWd) + addable);
      ConcatAssociative(t.failures, if paths[0] in accepted then [] else [paths[0]], Refused(rest, accepted));
    }
  }

  function Refused(paths: seq<Path>, accepted: set<Path>): seq<Path> {
    if paths == [] then []
    else (if paths[0] in accepted then [] else [paths[0]]) + Refused(paths[1..], accepted)
  }

  lemma {:induction false} RefusedAgree(paths: seq<Path>, a: set<Path>, b: set<Path>)
    requires forall p | p in paths :: p in a <==> p in b
    ensures Refused(paths, a) == Refused(paths, b)
  {
    if paths == [] {
    } else {
      assert paths[0] in paths;
      RefusedAgree(paths[1..], a, b);
    }
  }

  /** A sync watches exactly those hinted paths that were watched or can be. Paths that stay keep
      their descriptors, new paths get new ones, and every hinted path that cannot be watched is
      recorded once more as refused. */
  lemma SyncWatchesHints(t: Table, hints: seq<Path>, addable: set<Path>)
    requires t.Valid()
    ensures var r := SyncPaths(t, hints, addable);
            && r.Valid()
            && WatchedIn(r.byWd) == ToSet(hints) * (WatchedIn(t.byWd) + addable)
            && (forall wd | wd in t.byWd && t.byWd[wd] in hints :: wd in r.byWd && r.byWd[wd] == t.byWd[wd])
            && (forall wd | wd in r.byWd :: wd >= t.nextWd || (wd in t.byWd && t.byWd[wd] == r.byWd[wd]))
            && r.failures == t.failures + Refused(SortedPaths(ToSet(hints)), WatchedIn(t.byWd) + addable)
  {
    var gone, wanted := SortedPaths(WatchedIn(t.byWd) - ToSet(hints)), SortedPaths(ToSet(hints));
    var kept := RemovePaths(t, gone);
    forall wd ensures wd in kept.byWd <==> wd in t.byWd && t.byWd[wd] in hints {
      RemovedPaths(t, gone, wd);
    }
    forall wd | wd in kept.byWd ensures kept.byWd[wd] == t.byWd[wd] && wd < kept.nextWd {
      RemovedPaths(t, gone, wd);
    }
    RemovedPaths(t, gone, 0);
    KeptValues(t.byWd, kept.byWd, ToSet(hints));
    AddedPaths(kept, wanted, addable);
    assert ToSet(wanted) == ToSet(hints);
    Runs.SortedPathsDistinct(ToSet(hints));
    RefusedPaths(kept, wanted, addable);
    RefusedAgree(wanted, WatchedIn(kept.byWd) + addable, WatchedIn(t.byWd) + addable);
  }

  lemma KeptValues(was: map<int, Path>, kept: map<int, Path>, wanted: set<Path>)
    requires forall wd :: wd in kept <==> wd in was && was[wd] in wanted
    requires forall wd | wd in kept :: kept[wd] == was[wd]
    ensures WatchedIn(kept) == WatchedIn(was) * wanted
  {
    forall p | p in WatchedIn(was) * wanted ensures p in WatchedIn(kept) {
      var wd :| wd in was && was[wd] == p;
      assert wd in kept;
    }
  }

  /** The directories a source wants watched. */
  function HintsOf(cfg: Config, v1Hints: seq<Path>, mode: Mode): seq<Path> {
    match mode
    case V2Only => cfg.roots
    case Automatic(available) => HintPaths(v1Hints, cfg.roots, available)
  }

  // ----- What is ready -----

  const Quiet := Oracle(Ok(None), Ok(None))

  /** The answers v1 and the fallback would give to each of the three attempts. */
  type Attempted = os: seq<Oracle> | |os| == 3 witness [Quiet, Quiet, Quiet]

  /** An inotify event with what its handling will meet: the file system as it then is, the
      answers v1 and the fallback give to each attempt, the state of the package file, and
      which paths can be watched. */
  datatype InotifyEvent = InotifyEvent(
    wd: int, mask: bv32, name: Option<string>, fs: Fs, attempts: Attempted, stat: Option<Fingerprint>,
    addable: set<Path>)

  /** A ready priority descriptor with what its handling will meet. */
  datatype Signal = Signal(
    token: nat, error: bool, priority: bool, fs: Fs, reading: Result<string, EngineError>, o: Oracle,
    stat: Option<Fingerprint>)

  /** One entry of the ready list. */
  datatype Ready =
    | SocketReady(socket: nat)
    | PriorityReady(signal: Signal)
    | InotifyReady(events: seq<InotifyEvent>)

  /** One piece of work for the source. */
  datatype Item = OfDescriptor(signal: Signal) | OfEvent(event: InotifyEvent)

  function NamedPath(path: Path, name: Option<string>): Path {
    if name.None? || name.value == "" then path else Join(path, name.value)
  }

  function SocketsOf(ready: seq<Ready>): seq<nat> {
    if ready == [] then []
    else
      SocketsOf(ready[..|ready| - 1])
      + (if ready[|ready| - 1].SocketReady? then [ready[|ready| - 1].socket] else [])
  }

  function ItemsOf(ready: seq<Ready>): seq<Item> {
    if ready == [] then []
    else ItemsOf(ready[..|ready| - 1]) + ItemsOfOne(ready[|ready| - 1])
  }

  function ItemsOfOne(ready: Ready): seq<Item> {
    match ready
    case SocketReady(_) => []
    case PriorityReady(signal) => [OfDescriptor(signal)]
    case InotifyReady(events) => EventItems(events)
  }

  function EventItems(events: seq<InotifyEvent>): seq<Item> {
    seq(|events|, i requires 0 <= i < |events| => OfEvent(events[i]))
  }

  /** What the source is asked to do: an overflow goes to it without a path, an event of a known
      descriptor with the path it names; an event of an unknown descriptor is for nobody. */
  function ActionOf(byWd: map<int, Path>, item: Item): Option<Action> {
    match item
    case OfDescriptor(signal) =>
      Some(Action.Ready(signal.token, signal.error, signal.priority, signal.reading, signal.o))
    case OfEvent(event) =>
      if Overflows(event.mask) then Some(FsEvent(Base(""), event.mask, event.attempts))
      else if event.wd in byWd then Some(FsEvent(NamedPath(byWd[event.wd], event.name), event.mask, event.attempts))
      else None
  }

  function FsOf(item: Item): Fs {
    if item.OfDescriptor? then item.signal.fs else item.event.fs
  }

  function StatOf(item: Item): Option<Fingerprint> {
    if item.OfDescriptor? then item.signal.stat else item.event.stat
  }

  // ----- The loop -----

  /** The watcher with everything a poll moves: source and registrations, watched directories,
      what was published and counted, and the error that ended it, if one did. */
  datatype Loop = Loop(engine: Engine, table: Table, pipe: Pipe, error: Option<EngineError>)

  /** The file system moves on. */
  function Elapsed(cfg: Config, v1Hints: seq<Path>, l: Loop, fs: Fs): Loop {
    l.(engine := Step(cfg, v1Hints, l.engine, World(fs)))
  }

  /** The source has been asked: stop at its error, otherwise publish what changed and sync. */
  function Answered(cfg: Config, v1Hints: seq<Path>, l: Loop, item: Item, a: Action): Loop {
    var engine := Step(cfg, v1Hints, l.engine, a);
    match Asked(cfg, v1Hints, l.engine, a).1
    case Err(e) => l.(engine := engine, error := Some(e))
    case Ok(seen) =>
      l.(engine := engine,
         table := if item.OfEvent? then SyncPaths(l.table, HintsOf(cfg, v1Hints, engine.front.mode), item.event.addable)
                  else l.table,
         pipe := Observe(l.pipe, Observation(seen, StatOf(item))))
  }

  function Handled(cfg: Config, v1Hints: seq<Path>, l: Loop, item: Item): Loop {
    match ActionOf(l.table.byWd, item)
    case None => l
    case Some(a) => Answered(cfg, v1Hints, l, item, a)
  }

  function Work(cfg: Config, v1Hints: seq<Path>, l: Loop, item: Item): Loop {
    if l.engine.status != Running then l else Handled(cfg, v1Hints, Elapsed(cfg, v1Hints, l, FsOf(item)), item)
  }

  function WorkAll(cfg: Config, v1Hints: seq<Path>, l: Loop, items: seq<Item>): Loop
    decreases |items|
  {
    if items == [] then l
    else Work(cfg, v1Hints, WorkAll(cfg, v1Hints, l, items[..|items| - 1]), items[|items| - 1])
  }

  function ChangesOf(candidates: seq<Candidate>): seq<Event> {
    if candidates == [] then []
    else ChangesOf(candidates[..|candidates| - 1]) + [CandidateChanged(candidates[|candidates| - 1])]
  }

  /** The log a poll emits. */
  function PublishedBy(index: Option<Index>, pipe: Pipe): seq<Event> {
    Publish(index, ChangesOf(pipe.emitted))
  }

  lemma {:induction false} WorkConcat(cfg: Config, v1Hints: seq<Path>, l: Loop, a: seq<Item>, b: seq<Item>)
    ensures WorkAll(cfg, v1Hints, l, a + b) == WorkAll(cfg, v1Hints, WorkAll(cfg, v1Hints, l, a), b)
    decreases |b|
  {
    hide Work;
    if b == [] {
      assert a + b == a;
    } else {
      var init := b[..|b| - 1];
      assert (a + b)[..|a + b| - 1] == a + init;
      WorkConcat(cfg, v1Hints, l, a, init);
    }
  }

  /** Nothing is done after an error. */
  lemma {:induction false} StoppedStays(cfg: Config, v1Hints: seq<Path>, l: Loop, items: seq<Item>)
    requires l.engine.status != Running
    ensures WorkAll(cfg, v1Hints, l, items) == l
    decreases |items|
  {
    if items == [] {
    } else {
      StoppedStays(cfg, v1Hints, l, items[..|items| - 1]);
    }
  }

  lemma WorkOneMore(cfg: Config, v1Hints: seq<Path>, l: Loop, items: seq<Item>, i: nat)
    requires i < |items|
    ensures WorkAll(cfg, v1Hints, l, items[..i + 1]) ==
            Work(cfg, v1Hints, WorkAll(cfg, v1Hints, l, items[..i]), items[i])
  {
    assert items[..i + 1][..i] == items[..i];
  }

  lemma NoWork(cfg: Config, v1Hints: seq<Path>, l: Loop)
    ensures WorkAll(cfg, v1Hints, l, []) == l
  {
  }

  lemma WorkOne(cfg: Config, v1Hints: seq<Path>, l: Loop, item: Item)
    ensures WorkAll(cfg, v1Hints, l, [item]) == Work(cfg, v1Hints, l, item)
  {
    assert [item][..0] == [];
    assert WorkAll(cfg, v1Hints, l, [item][..0]) == l;
  }

  lemma WorkStops(cfg: Config, v1Hints: seq<Path>, l: Loop, items: seq<Item>, i: nat)
    requires i <= |items| && WorkAll(cfg, v1Hints, l, items[..i]).engine.status != Running
    ensures WorkAll(cfg, v1Hints, l, items) == WorkAll(cfg, v1Hints, l, items[..i])
  {
    assert items == items[..i] + items[i..];
    WorkConcat(cfg, v1Hints, l, items[..i], items[i..]);
    StoppedStays(cfg, v1Hints, WorkAll(cfg, v1Hints, l, items[..i]), items[i..]);
  }

  lemma {:induction false} ItemsConcat(a: seq<Ready>, b: seq<Ready>)
    ensures ItemsOf(a + b) == ItemsOf(a) + ItemsOf(b)
    decreases |b|
  {
    if b == [] {
      assert a + b == a;
    } else {
      var init := b[..|b| - 1];
      assert (a + b)[..|a + b| - 1] == a + init;
      ItemsConcat(a, init);
      ConcatAssociative(ItemsOf(a), ItemsOf(init), ItemsOfOne(b[|b| - 1]));
    }
  }

  /** Every event of an inotify entry and every ready descriptor is worked off, in the order of
      the ready list; sockets ask for no work. */
  lemma ItemsInOrder(a: seq<Ready>, entry: Ready, b: seq<Ready>)
    ensures entry.SocketReady? ==> ItemsOf(a + [entry] + b) == ItemsOf(a + b)
    ensures entry.PriorityReady? ==>
              ItemsOf(a + [entry] + b) == ItemsOf(a) + [OfDescriptor(entry.signal)] + ItemsOf(b)
    ensures entry.InotifyReady? ==>
              var items, n := ItemsOf(a + [entry] + b), |ItemsOf(a)|;
              && |items| == n + |entry.events| + |ItemsOf(b)|
              && items[..n] == ItemsOf(a) && items[n + |entry.events|..] == ItemsOf(b)
              && forall i | 0 <= i < |entry.events| :: items[n + i] == OfEvent(entry.events[i])
  {
    hide ItemsOf;
    ItemsConcat(a + [entry], b);
    ItemsConcat(a, [entry]);
    ItemsConcat(a, b);
    ItemsOfSingle(entry);
    assert ItemsOf(a) + [] == ItemsOf(a);
  }

  lemma ItemsOfSingle(entry: Ready)
    ensures ItemsOf([entry]) == ItemsOfOne(entry)
  {
    assert [entry][..0] == [] && ItemsOf([entry][..0]) == [];
  }

  lemma ReadNothing(cfg: Config, v1Hints: seq<Path>, l: Loop)
    ensures WorkAll(cfg, v1Hints, l, ItemsOf([])) == l && SocketsOf([]) == []
  {
  }

  lemma ReadOneMore(cfg: Config, v1Hints: seq<Path>, l: Loop, ready: seq<Ready>, i: nat)
    requires i < |ready|
    ensures WorkAll(cfg, v1Hints, l, ItemsOf(ready[..i + 1])) ==
            WorkAll(cfg, v1Hints, WorkAll(cfg, v1Hints, l, ItemsOf(ready[..i])), ItemsOfOne(ready[i]))
    ensures SocketsOf(ready[..i + 1]) ==
            SocketsOf(ready[..i]) + if ready[i].SocketReady? then [ready[i].socket] else []
  {
    hide WorkAll;
    assert ready[..i + 1][..i] == ready[..i];
    WorkConcat(cfg, v1Hints, l, ItemsOf(ready[..i]), ItemsOfOne(ready[i]));
  }

  lemma PollStops(cfg: Config, v1Hints: seq<Path>, l: Loop, ready: seq<Ready>, i: nat)
    requires i <= |ready| && WorkAll(cfg, v1Hints, l, ItemsOf(ready[..i])).engine.status != Running
    ensures WorkAll(cfg, v1Hints, l, ItemsOf(ready)) == WorkAll(cfg, v1Hints, l, ItemsOf(ready[..i]))
  {
    assert ready == ready[..i] + ready[i..];
    ItemsConcat(ready[..i], ready[i..]);
    WorkConcat(cfg, v1Hints, l, ItemsOf(ready[..i]), ItemsOf(ready[i..]));
    StoppedStays(cfg, v1Hints, WorkAll(cfg, v1Hints, l, ItemsOf(ready[..i])), ItemsOf(ready[i..]));
  }

  // ----- A poll is a run of the engine -----

  function ActionsFor(l: Loop, item: Item): seq<Action> {
    [World(FsOf(item))] + (match ActionOf(l.table.byWd, item) case None => [] case Some(a) => [a])
  }

  /** The engine actions a list of items stands for. */
  function ActionsOf(cfg: Config, v1Hints: seq<Path>, l: Loop, items: seq<Item>): seq<Action>
    decreases |items|
  {
    if items == [] then []
    else
      ActionsOf(cfg, v1Hints, l, items[..|items| - 1])
      + ActionsFor(WorkAll(cfg, v1Hints, l, items[..|items| - 1]), items[|items| - 1])
  }

  function SeenIn(answer: Answer): seq<Candidate> {
    if answer.Ok? && answer.value.Some? then [answer.value.value] else []
  }

  /** The candidates the source answers with in a run, in order. */
  function CandidatesOf(cfg: Config, v1Hints: seq<Path>, engine: Engine, actions: seq<Action>): seq<Candidate>
    decreases |actions|
  {
    if actions == [] then []
    else
      SeenIn(Asked(cfg, v1Hints, engine, actions[0]).1)
      + CandidatesOf(cfg, v1Hints, Step(cfg, v1Hints, engine, actions[0]), actions[1..])
  }

  lemma {:induction false} RunConcat(
      cfg: Config, v1Hints: seq<Path>, engine: Engine, a: seq<Action>, b: seq<Action>)
    ensures Run(cfg, v1Hints, engine, a + b) == Run(cfg, v1Hints, Run(cfg, v1Hints, engine, a), b)
    ensures CandidatesOf(cfg, v1Hints, engine, a + b) ==
            CandidatesOf(cfg, v1Hints, engine, a) + CandidatesOf(cfg, v1Hints, Run(cfg, v1Hints, engine, a), b)
    decreases |a|
  {
    hide Step, Asked;
    if a == [] {
      assert a + b == b;
    } else {
      var next := Step(cfg, v1Hints, engine, a[0]);
      assert (a + b)[1..] == a[1..] + b;
      RunConcat(cfg, v1Hints, next, a[1..], b);
      ConcatAssociative(SeenIn(Asked(cfg, v1Hints, engine, a[0]).1), CandidatesOf(cfg, v1Hints, next, a[1..]),
                        CandidatesOf(cfg, v1Hints, Run(cfg, v1Hints, engine, a), b));
    }
  }

  lemma RunOfTwo(cfg: Config, v1Hints: seq<Path>, engine: Engine, a: Action, more: seq<Action>)
    requires |more| <= 1
    ensures Run(cfg, v1Hints, engine, [a] + more) ==
            if more == [] then Step(cfg, v1Hints, engine, a)
            else Step(cfg, v1Hints, Step(cfg, v1Hints, engine, a), more[0])
    ensures CandidatesOf(cfg, v1Hints, engine, [a] + more) ==
            SeenIn(Asked(cfg, v1Hints, engine, a).1)
            + (if more == [] then [] else SeenIn(Asked(cfg, v1Hints, Step(cfg, v1Hints, engine, a), more[0]).1))
  {
    hide Step, Asked;
    var actions := [a] + more;
    assert actions[1..] == more;
    var next := Step(cfg, v1Hints, engine, a);
    if more != [] {
      assert more[1..] == [];
      assert Run(cfg, v1Hints, next, more) == Run(cfg, v1Hints, Step(cfg, v1Hints, next, more[0]), []);
      assert CandidatesOf(cfg, v1Hints, next, more) == SeenIn(Asked(cfg, v1Hints, next, more[0]).1) + [];
    }
  }

  // ----- What is observed, and what is published about it -----

  function ObservationsFor(cfg: Config, v1Hints: seq<Path>, l: Loop, item: Item): seq<Observation> {
    var engine := Step(cfg, v1Hints, l.engine, World(FsOf(item)));
    match ActionOf(l.table.byWd, item)
    case None => []
    case Some(a) =>
      match Asked(cfg, v1Hints, engine, a).1
      case Err(_) => []
      case Ok(seen) => if l.engine.status != Running then [] else [Observation(seen, StatOf(item))]
  }

  /** What the change filter is shown: each answer, and what a look at the package file would
      find at that moment. */
  function ObservationsOf(cfg: Config, v1Hints: seq<Path>, l: Loop, items: seq<Item>): seq<Observation>
    decreases |items|
  {
    if items == [] then []
    else
      ObservationsOf(cfg, v1Hints, l, items[..|items| - 1])
      + ObservationsFor(cfg, v1Hints, WorkAll(cfg, v1Hints, l, items[..|items| - 1]), items[|items| - 1])
  }

  lemma WorkIsSteps(cfg: Config, v1Hints: seq<Path>, l: Loop, item: Item)
    ensures var r, os := Work(cfg, v1Hints, l, item), ObservationsFor(cfg, v1Hints, l, item);
            && r.engine == Run(cfg, v1Hints, l.engine, ActionsFor(l, item))
            && |os| <= 1 && r.pipe == (if os == [] then l.pipe else Observe(l.pipe, os[0]))
            && (if os != [] && os[0].seen.Some? then [os[0].seen.value] else [])
               == CandidatesOf(cfg, v1Hints, l.engine, ActionsFor(l, item))
  {
    hide Observe, SyncPaths, HintsOf, Attempts, PollFront, PriorityFront, StaleFront, Sync, NamedPath, Overflows;
    var world := World(FsOf(item));
    var more := match ActionOf(l.table.byWd, item) case None => [] case Some(a) => [a];
    RunOfTwo(cfg, v1Hints, l.engine, world, more);
  }

  lemma SeenConcatOne(os: seq<Observation>, more: seq<Observation>)
    requires |more| <= 1
    ensures Seen(os + more) == Seen(os) + (if more != [] && more[0].seen.Some? then [more[0].seen.value] else [])
  {
    if more == [] {
      assert os + more == os;
    } else {
      assert os + more == os + [more[0]];
      SeenGrows(os, more[0]);
    }
  }

  lemma ObserveConcatOne(p: Pipe, os: seq<Observation>, more: seq<Observation>)
    requires |more| <= 1
    ensures ObserveAll(p, os + more) == if more == [] then ObserveAll(p, os) else Observe(ObserveAll(p, os), more[0])
  {
    if more == [] {
      assert os + more == os;
    } else {
      assert (os + more)[..|os + more| - 1] == os;
    }
  }

  /** Working off a list is a run of the engine on the actions it stands for. The change filter
      and the invalidator are shown exactly the answers of that run, in order. */
  lemma {:induction false} WorkIsRun(cfg: Config, v1Hints: seq<Path>, l: Loop, items: seq<Item>)
    ensures var r, actions := WorkAll(cfg, v1Hints, l, items), ActionsOf(cfg, v1Hints, l, items);
            var os := ObservationsOf(cfg, v1Hints, l, items);
            && r.engine == Run(cfg, v1Hints, l.engine, actions)
            && r.pipe == ObserveAll(l.pipe, os)
            && Seen(os) == CandidatesOf(cfg, v1Hints, l.engine, actions)
    decreases |items|
  {
    hide Work, ActionsFor, ObservationsFor, Observe, Run, CandidatesOf;
    if items == [] {
      NoActions(cfg, v1Hints, l.engine);
    } else {
      var init, item := items[..|items| - 1], items[|items| - 1];
      var middle := WorkAll(cfg, v1Hints, l, init);
      var os, more := ObservationsOf(cfg, v1Hints, l, init), ObservationsFor(cfg, v1Hints, middle, item);
      WorkIsRun(cfg, v1Hints, l, init);
      WorkIsSteps(cfg, v1Hints, middle, item);
      RunConcat(cfg, v1Hints, l.engine, ActionsOf(cfg, v1Hints, l, init), ActionsFor(middle, item));
      SeenConcatOne(os, more);
      ObserveConcatOne(l.pipe, os, more);
    }
  }

  lemma NoActions(cfg: Config, v1Hints: seq<Path>, engine: Engine)
    ensures Run(cfg, v1Hints, engine, []) == engine && CandidatesOf(cfg, v1Hints, engine, []) == []
  {
  }

  /** Repetitions collapsed, the first candidate compared with the one remembered before. */
  function CollapseAfter(last: Option<Candidate>, s: seq<Candidate>): seq<Candidate> {
    if s == [] then []
    else
      var init := s[..|s| - 1];
      CollapseAfter(last, init) + (if LastOf(last, init) == Some(s[|s| - 1]) then [] else [s[|s| - 1]])
  }

  function LastOf(last: Option<Candidate>, s: seq<Candidate>): Option<Candidate> {
    if s == [] then last else Some(s[|s| - 1])
  }

  lemma {:induction false} ObservedCollapse(p: Pipe, os: seq<Observation>)
    ensures ObserveAll(p, os).emitted == p.emitted + CollapseAfter(p.last, Seen(os))
    ensures ObserveAll(p, os).last == LastOf(p.last, Seen(os))
  {
    hide Mark;
    if os == [] {
    } else {
      var init, o := os[..|os| - 1], os[|os| - 1];
      var s := Seen(init);
      ObservedCollapse(p, init);
      assert os == init + [o];
      SeenGrows(init, o);
      if o.seen.Some? {
        assert (s + [o.seen.value])[..|s|] == s;
        ConcatAssociative(p.emitted, CollapseAfter(p.last, s),
                          if LastOf(p.last, s) == o.seen then [] else [o.seen.value]);
      } else {
        assert s + [] == s;
      }
    }
  }

  /** With nothing remembered this is `Collapse`; a remembered candidate counts as the first. */
  lemma {:induction false} CollapseAfterIs(last: Option<Candidate>, s: seq<Candidate>)
    ensures last.None? ==> CollapseAfter(last, s) == Collapse(s)
    ensures last.Some? ==> [last.value] + CollapseAfter(last, s) == Collapse([last.value] + s)
  {
    if s == [] {
      CollapseOfOne(last);
    } else {
      var init, c := s[..|s| - 1], s[|s| - 1];
      CollapseAfterIs(last, init);
      hide Collapse;
      CollapseLast(s, init, c);
      if last.Some? {
        CollapseLast([last.value] + s, [last.value] + init, c);
        var more := if LastOf(last, init) == Some(c) then [] else [c];
        ConcatAssociative([last.value], CollapseAfter(last, init), more);
      }
    }
  }

  lemma CollapseOfOne(last: Option<Candidate>)
    ensures CollapseAfter(last, []) == Collapse([]) == []
    ensures last.Some? ==> [last.value] + [] == [last.value] && Collapse([last.value]) == [last.value]
  {
    if last.Some? {
      assert [last.value][..0] == [];
    }
  }

  /** What working off a list publishes: the candidates the source answers with in the run the
      list stands for, those that repeat the one before them left out, each followed by its
      identity. */
  lemma WorkPublishesAnswers(cfg: Config, v1Hints: seq<Path>, l: Loop, items: seq<Item>, index: Option<Index>)
    requires l.pipe.emitted == []
    ensures var r := WorkAll(cfg, v1Hints, l, items);
            var answers := CandidatesOf(cfg, v1Hints, l.engine, ActionsOf(cfg, v1Hints, l, items));
            && PublishedBy(index, r.pipe) == Publish(index, ChangesOf(CollapseAfter(l.pipe.last, answers)))
            && r.pipe.last == LastOf(l.pipe.last, answers)
  {
    hide Publish, ObserveAll, CollapseAfter;
    WorkIsRun(cfg, v1Hints, l, items);
    ObservedCollapse(l.pipe, ObservationsOf(cfg, v1Hints, l, items));
    assert [] + CollapseAfter(l.pipe.last, Seen(ObservationsOf(cfg, v1Hints, l, items)))
        == CollapseAfter(l.pipe.last, Seen(ObservationsOf(cfg, v1Hints, l, items)));
  }

  // ----- One answer at a time, as the loop meets it -----

  /** What the loop makes of an answer: the error, or a published change and a sync. */
  lemma AnsweredIs(cfg: Config, v1Hints: seq<Path>, l: Loop, item: Item, a: Action, front: Front, answer: Answer)
    requires l.engine.status == Running && Asked(cfg, v1Hints, l.engine, a) == (front, answer)
    requires a.FsEvent? || (a.Ready? && a.token in l.engine.w.tokens && (a.error || a.priority))
    ensures Answered(cfg, v1Hints, l, item, a) ==
            match answer
            case Err(e) => l.(engine := l.engine.(front := front, status := HandlerFailed), error := Some(e))
            case Ok(seen) =>
              l.(engine := Runs.Goal(l.engine, front),
                 table :=
                   if item.OfEvent? then SyncPaths(l.table, HintsOf(cfg, v1Hints, front.mode), item.event.addable)
                   else l.table,
                 pipe := Observe(l.pipe, Observation(seen, StatOf(item))))
  {
    hide Asked, SyncPaths, HintsOf, Observe, Sync, Step;
    StepSyncsAnswer(cfg, v1Hints, l.engine, a);
  }

  lemma SignalAnswered(cfg: Config, v1Hints: seq<Path>, l: Loop, signal: Signal, front: Front, answer: Answer)
    requires l.engine.status == Running
    requires signal.token in l.engine.w.tokens && (signal.error || signal.priority)
    requires var e := l.engine.w.tokens[signal.token];
             (front, answer) == if signal.error then StaleFront(cfg, l.engine.front, e, signal.o)
                                else PriorityFront(cfg, l.engine.front, e, signal.reading, signal.o)
    ensures Handled(cfg, v1Hints, l, OfDescriptor(signal)) ==
            match answer
            case Err(e) => l.(engine := l.engine.(front := front, status := HandlerFailed), error := Some(e))
            case Ok(seen) =>
              l.(engine := Runs.Goal(l.engine, front), pipe := Observe(l.pipe, Observation(seen, signal.stat)))
  {
    hide Observe, Answered, StaleFront, PriorityFront, Attempts, PollFront;
    var a := Action.Ready(signal.token, signal.error, signal.priority, signal.reading, signal.o);
    AnsweredIs(cfg, v1Hints, l, OfDescriptor(signal), a, front, answer);
  }

  lemma EventAnswered(cfg: Config, v1Hints: seq<Path>, l: Loop, path: Path, event: InotifyEvent, front: Front,
                      answer: Answer)
    requires l.engine.status == Running
    requires (front, answer) == Attempts(cfg, v1Hints, l.engine.front, path, KindOf(event.mask), event.attempts)
    ensures Answered(cfg, v1Hints, l, OfEvent(event), FsEvent(path, event.mask, event.attempts)) ==
            match answer
            case Err(e) => l.(engine := l.engine.(front := front, status := HandlerFailed), error := Some(e))
            case Ok(seen) =>
              l.(engine := Runs.Goal(l.engine, front),
                 table := SyncPaths(l.table, HintsOf(cfg, v1Hints, front.mode), event.addable),
                 pipe := Observe(l.pipe, Observation(seen, event.stat)))
  {
    hide Observe, Answered, StaleFront, PriorityFront, Attempts, PollFront, KindOf;
    AnsweredIs(cfg, v1Hints, l, OfEvent(event), FsEvent(path, event.mask, event.attempts), front, answer);
  }

  /** A descriptor that is nobody's or has no flag set asks for nothing. */
  lemma IdleSignal(cfg: Config, v1Hints: seq<Path>, l: Loop, signal: Signal)
    requires signal.token !in l.engine.w.tokens || !(signal.error || signal.priority)
    ensures Handled(cfg, v1Hints, l, OfDescriptor(signal)) == l
  {
    hide Attempts, PollFront, PriorityFront, StaleFront, Sync, Mark;
  }

  lemma PollStep(cfg: Config, v1Hints: seq<Path>, engine: Engine, o: Oracle)
    requires engine.status == Running && PollFront(cfg, engine.front, o).1.Ok?
    ensures Step(cfg, v1Hints, engine, PollNow(o)) == Runs.Goal(engine, PollFront(cfg, engine.front, o).0)
  {
    hide PollFront, Sync;
  }

  function ChangeEvents(emitted: Option<Candidate>): seq<Event> {
    if emitted.Some? then [CandidateChanged(emitted.value)] else []
  }

  lemma {:induction false} PublishConcat(index: Option<Index>, a: seq<Event>, b: seq<Event>)
    ensures Publish(index, a + b) == Publish(index, a) + Publish(index, b)
  {
    hide PublishOne;
    if a == [] {
      assert a + b == b;
    } else {
      assert (a + b)[1..] == a[1..] + b;
      PublishConcat(index, a[1..], b);
      ConcatAssociative(PublishOne(index, a[0]), Publish(index, a[1..]), Publish(index, b));
    }
  }

  /** The log grows by what the observation publishes. */
  lemma PublishObserved(index: Option<Index>, p: Pipe, o: Observation)
    ensures PublishedBy(index, Observe(p, o)) ==
            PublishedBy(index, p) + Publish(index, ChangeEvents(Filtered(p.last, o.seen).emitted))
  {
    hide Mark, PublishOne;
    var u := Filtered(p.last, o.seen);
    if u.emitted.Some? {
      var grown := p.emitted + [u.emitted.value];
      assert grown[..|grown| - 1] == p.emitted;
      PublishConcat(index, ChangesOf(p.emitted), ChangeEvents(u.emitted));
    } else {
      assert PublishedBy(index, p) + [] == PublishedBy(index, p);
    }
  }

  lemma NothingPublished(index: Option<Index>, pipe: Pipe)
    ensures pipe.emitted == [] ==> PublishedBy(index, pipe) == []
  {
  }

  lemma {:induction false} ChangesAreForeground(candidates: seq<Candidate>)
    ensures ForegroundEvents(ChangesOf(candidates))
  {
    if candidates == [] {
    } else {
      ChangesAreForeground(candidates[..|candidates| - 1]);
    }
  }

  /** In what a poll publishes candidates and identities come in pairs. */
  lemma PublishedPairs(index: Option<Index>, pipe: Pipe)
    ensures Paired(index, PublishedBy(index, pipe))
  {
    hide Paired;
    ChangesAreForeground(pipe.emitted);
    PublishedIsPaired(index, ChangesOf(pipe.emitted));
  }

  // ----- What an event brings about -----

  /** Which action an inotify event is, by its mask's bit 14 and the watch table. */
  lemma EventActs(byWd: map<int, Path>, event: InotifyEvent)
    ensures ActionOf(byWd, OfEvent(event)) ==
            if event.mask & 0x4000 != 0 then Some(FsEvent(Base(""), event.mask, event.attempts))
            else if event.wd !in byWd then None
            else if event.name.None? || event.name.value == ""
            then Some(FsEvent(byWd[event.wd], event.mask, event.attempts))
            else Some(FsEvent(Join(byWd[event.wd], event.name.value), event.mask, event.attempts))
  {
  }

  /** The event announces `dir`, a directory below a watched root, by bits 7 or 8 or no bit. */
  ghost predicate Announced(cfg: Config, t: Table, event: InotifyEvent, dir: Path) {
    && event.wd in t.byWd && t.byWd[event.wd] in cfg.roots
    && dir.Join? && dir.name != "" && dir.parent == t.byWd[event.wd] && event.name == Some(dir.name)
    && event.mask & 0x4000 == 0 && event.mask & 0x8C00 == 0 && event.mask & 0x0240 == 0
    && (event.mask & 0x0180 != 0 || event.mask == 0)
  }

  /** The cache lists one package for the uid, and that is not blocked. */
  ghost predicate Named(cfg: Config, uid: nat, package: string) {
    && cfg.cache.Some? && uid in cfg.cache.value.uidToPackages
    && cfg.cache.value.uidToPackages[uid] == [package] && package !in cfg.filter.blockedPackages
  }

  lemma FirstAttemptAnswers(cfg: Config, v1Hints: seq<Path>, front: Front, path: Path, kind: EventKind, os: Attempted)
    requires front.mode == V2Only && HandleFsEvent(cfg, front.sys, path, kind).1 != Ok(None)
    ensures var r := HandleFsEvent(cfg, front.sys, path, kind);
            Attempts(cfg, v1Hints, front, path, kind, os) == (front.(sys := r.0), r.1)
  {
    hide HandleFsEvent;
  }

  lemma ArrivalAnswered(cfg: Config, v1Hints: seq<Path>, engine: Engine, event: InotifyEvent, dir: Path, uid: nat,
                        package: string)
    requires engine.status == Running && engine.front.mode == V2Only && KindOf(event.mask) == Arrival
    requires dir.Join? && UidDirs.ParseUidDirName(dir.name) == Some(uid) && Named(cfg, uid, package)
    requires EventsPath(dir) !in engine.front.sys.src.watches
    requires WatchTableFacts.Watchable(cfg, engine.front.sys.ker.fs, EventsPath(dir))
    requires WatchHandlers.Says(engine.front.sys.ker.fs.EventsAt(EventsPath(dir)).value.text, "1")
    ensures var (front, answer) := Asked(cfg, v1Hints, engine, FsEvent(dir, event.mask, event.attempts));
            var e := EventsPath(dir);
            && answer == Ok(Some(Candidate(CgroupV2, None, Some(uid), Some(package), true)))
            && front.mode == V2Only && e in front.sys.src.watches && front.sys.src.watches[e].uid == uid
            && front.sys.src.watches[e].populated == CgroupEvents.Active
  {
    hide HandleFsEvent, Attempts, WatchHandlers.Says, WatchTableFacts.Watchable;
    WatchHandlers.ArrivalPublishes(cfg, engine.front.sys, dir, package);
    FirstAttemptAnswers(cfg, v1Hints, engine.front, dir, Arrival, event.attempts);
  }

  /** Once in step, a held watch is registered under its generation. */
  lemma HeldIsRegistered(cfg: Config, engine: Engine, e: Path)
    requires Runs.EngineOk(cfg, engine) && engine.status == Running && engine.front.mode == V2Only
    requires WatchTableFacts.Unsaturated(engine.front.sys) && e in engine.front.sys.src.watches
    ensures e in engine.w.keys && engine.w.keys[e] == engine.front.sys.src.watches[e].generation
    ensures engine.front.sys.src.watches[e].fd in engine.front.sys.ker.interest.Values
  {
    assert HasToken(engine.w, e);
    var t :| t in engine.w.tokens && engine.w.tokens[t] == e;
    assert t in engine.front.sys.ker.interest;
  }

  lemma GoalKeepsSource(cfg: Config, engine: Engine, front: Front)
    requires WatchTableFacts.TableOk(cfg, front.sys)
    ensures var r := Runs.Goal(engine, front);
            r.front.sys.src == front.sys.src && r.front.mode == front.mode
            && (r.status == Running || r.status == ReactorFailed)
  {
    hide Sync;
    Runs.SyncKeepsTable(cfg, front.sys, engine.w, Hidden(front.mode));
  }

  /** A poll that meets the announcement of a new directory which can be watched and whose events
      file says `populated 1` adds the watch, remembers the directory's candidate and emits it
      unless it repeats the last one; and unless the generation counter is exhausted the watcher
      goes on, with the new watch's descriptor registered under its generation. */
  lemma ArrivalIsPublished(cfg: Config, v1Hints: seq<Path>, l: Loop, event: InotifyEvent, dir: Path, uid: nat,
                           package: string)
    requires Runs.EngineOk(cfg, l.engine) && l.engine.status == Running && l.engine.front.mode == V2Only
    requires Announced(cfg, l.table, event, dir) && UidDirs.ParseUidDirName(dir.name) == Some(uid)
    requires Named(cfg, uid, package) && event.fs.Listed()
    requires WatchTableFacts.Watchable(cfg, event.fs, EventsPath(dir))
    requires EventsPath(dir) !in l.engine.front.sys.src.watches
    requires WatchHandlers.Says(event.fs.EventsAt(EventsPath(dir)).value.text, "1")
    ensures var r, e := Work(cfg, v1Hints, l, OfEvent(event)), EventsPath(dir);
            var seen := Candidate(CgroupV2, None, Some(uid), Some(package), true);
            var src := r.engine.front.sys.src;
            && e in src.watches && src.watches[e].uid == uid && src.watches[e].populated == CgroupEvents.Active
            && r.pipe.last == Some(seen)
            && r.pipe.emitted == l.pipe.emitted + (if l.pipe.last == Some(seen) then [] else [seen])
            && (WatchTableFacts.Unsaturated(r.engine.front.sys) ==>
                  && r.engine.status == Running && e in r.engine.w.keys
                  && r.engine.w.keys[e] == src.watches[e].generation
                  && src.watches[e].fd in r.engine.front.sys.ker.interest.Values)
  {
    hide Runs.EngineOk, Mark, Asked, Sync, WatchHandlers.Says, WatchTableFacts.Watchable, KindOf, SyncPaths, HintsOf;
    hide WatchTableFacts.Unsaturated;
    var world := Elapsed(cfg, v1Hints, l, event.fs);
    var action := FsEvent(dir, event.mask, event.attempts);
    WatchHandlers.KindByBits(event.mask);
    EventActs(l.table.byWd, event);
    ArrivalAnswered(cfg, v1Hints, world.engine, event, dir, uid, package);
    var (front, answer) := Asked(cfg, v1Hints, world.engine, action);
    AnsweredIs(cfg, v1Hints, world, OfEvent(event), action, front, answer);
    Runs.StepOk(cfg, v1Hints, l.engine, World(event.fs));
    AnswerKeepsTable(cfg, v1Hints, world.engine, action);
    GoalKeepsSource(cfg, world.engine, front);
    Runs.StepOk(cfg, v1Hints, world.engine, action);
    hide Step;
    var r := Work(cfg, v1Hints, l, OfEvent(event));
    assert r == Answered(cfg, v1Hints, world, OfEvent(event), action);
    if WatchTableFacts.Unsaturated(r.engine.front.sys) {
      assert r.engine.status == Running by { RunsOn(cfg, r.engine); }
      HeldIsRegistered(cfg, r.engine, EventsPath(dir));
    }
  }

  lemma AnswerKeepsTable(cfg: Config, v1Hints: seq<Path>, engine: Engine, a: Action)
    requires Runs.EngineOk(cfg, engine) && engine.status == Running && a.FsEvent?
    ensures WatchTableFacts.TableOk(cfg, Asked(cfg, v1Hints, engine, a).0.sys)
  {
    hide Attempts, WatchTableFacts.TableOk;
    Runs.AttemptsChange(cfg, v1Hints, engine.front, a.path, KindOf(a.mask), a.attempts);
  }

  /** A live descriptor that reports `populated 1` for a watch with a named uid makes that uid's
      candidate the last one, and emits it unless it repeats the one before. */
  lemma SignalIsPublished(cfg: Config, v1Hints: seq<Path>, l: Loop, signal: Signal, e: Path, text: string,
                          package: string)
    requires l.engine.status == Running && l.engine.front.mode == V2Only && signal.fs.Listed()
    requires signal.token in l.engine.w.tokens && l.engine.w.tokens[signal.token] == e
    requires !signal.error && signal.priority && signal.reading == Ok(text) && signal.fs.EventsAt(e).Some?
    requires WatchHandlers.Says(CgroupEvents.Buffered(text), "1")
    requires e in l.engine.front.sys.src.watches && Named(cfg, l.engine.front.sys.src.watches[e].uid, package)
    ensures var r := Work(cfg, v1Hints, l, OfDescriptor(signal));
            var uid := l.engine.front.sys.src.watches[e].uid;
            var seen := Candidate(CgroupV2, None, Some(uid), Some(package), true);
            && r.pipe.last == Some(seen)
            && r.pipe.emitted == l.pipe.emitted + (if l.pipe.last == Some(seen) then [] else [seen])
  {
    hide Mark, Sync, WatchHandlers.Says, CgroupEvents.Buffered, CgroupEvents.ParsePopulated;
    var world := Elapsed(cfg, v1Hints, l, signal.fs);
    WatchHandlers.SaysDecides(CgroupEvents.Buffered(text));
    WatchHandlers.CandidateMeans(cfg, l.engine.front.sys.src.watches[e].uid);
    var (front, answer) := PriorityFront(cfg, world.engine.front, e, signal.reading, signal.o);
    SignalAnswered(cfg, v1Hints, world, signal, front, answer);
  }

  /** After an event that was handled, exactly the hinted directories are watched that were
      watched or can be, as the source's mode now hints them. */
  lemma EventSyncsPaths(cfg: Config, v1Hints: seq<Path>, l: Loop, event: InotifyEvent)
    requires l.table.Valid() && (event.mask & 0x4000 != 0 || event.wd in l.table.byWd)
    ensures var r := Handled(cfg, v1Hints, l, OfEvent(event));
            && r.table.Valid()
            && (r.engine.status == Running ==>
                  forall p :: p in WatchedIn(r.table.byWd) <==>
                    && (p in WatchedIn(l.table.byWd) || p in event.addable)
                    && match r.engine.front.mode
                       case V2Only => p in cfg.roots
                       case Automatic(available) => p in v1Hints || (!available && p in cfg.roots))
  {
    hide Asked, Observe, Attempts, Sync, PathLess, SyncPaths, WatchedIn;
    var item := OfEvent(event);
    EventActs(l.table.byWd, event);
    var a := ActionOf(l.table.byWd, item).value;
    if l.engine.status == Running {
      StepSyncsAnswer(cfg, v1Hints, l.engine, a);
    }
    hide Step;
    var mode := Step(cfg, v1Hints, l.engine, a).front.mode;
    SyncWatchesHints(l.table, HintsOf(cfg, v1Hints, mode), event.addable);
    if mode.Automatic? {
      forall p ensures p in HintPaths(v1Hints, cfg.roots, mode.v1Available)
                       <==> p in v1Hints || (!mode.v1Available && p in cfg.roots) {
        HintsFollowAvailability(v1Hints, cfg.roots, mode.v1Available, p);
      }
    }
  }

  lemma RunsOn(cfg: Config, engine: Engine)
    requires Runs.EngineOk(cfg, engine) && WatchTableFacts.Unsaturated(engine.front.sys)
    ensures engine.status != ReactorFailed
  {
  }
}
