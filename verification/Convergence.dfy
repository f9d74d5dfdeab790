/** Event-driven convergence: whatever happens to the directories and however their
    notifications are delayed, dropped or interleaved with polls, the watch table catches up. */
module Convergence {
  import opened Basics
  import opened Paths
  import opened WatchTable
  import opened WatchTableFacts
  import opened WatchHandlers

  // ----- The source, the file system and the notification queue -----

  /** A queued notification. The kernel keeps a single overflow marker: the first loss queues
      it behind everything queued before, and further losses leave no trace while it waits. */
  datatype Note = Arrived(dir: Path, incarnation: nat) | Left(dir: Path, incarnation: nat) | Overflowed

  /** `clock` is the next incarnation and `lost` holds the dropped notifications. A directory
      is stranded from the drop of its arrival behind its own queued removal until it is noted
      again or a new marker is queued. */
  datatype Net = Net(sys: Sys, queue: seq<Note>, clock: nat, lost: set<Note>, stranded: set<Path>)

  datatype Action =
    | Make(dir: Path, isDir: bool, events: Option<EventsFile>, dropped: bool)
    | Delete(dir: Path, dropped: bool)
    | Rewrite(dir: Path, text: string)
    | Relist(order: seq<Path>)
    | Deliver(mask: bv32)
    | Poll
    | Priority(e: Path, reading: Result<string, EngineError>)
    | StaleFd(e: Path)
    | OtherEvent(path: Path, mask: bv32)

  function Enqueue(cfg: Config, net: Net, note: Note, dropped: bool): Net
    requires !note.Overflowed?
  {
    if !UnderRoot(cfg, note.dir) then net
    else if !dropped then net.(queue := net.queue + [note], stranded := net.stranded - {note.dir})
    else if Overflowed !in net.queue then
      net.(queue := net.queue + [Overflowed], lost := net.lost + {note}, stranded := {})
    else if note.Arrived? && LeftLast(net.queue, note.dir) then
      net.(lost := net.lost + {note}, stranded := net.stranded + {note.dir})
    else net.(lost := net.lost + {note}, stranded := net.stranded - {note.dir})
  }

  /** Some queued notification at or after `from` makes the engine look at `dir`. */
  predicate Promised(queue: seq<Note>, from: nat, dir: Path) {
    exists j :: from <= j < |queue| && Promises(queue[j], dir)
  }

  predicate Promises(note: Note, dir: Path) {
    note == Overflowed || (note.Arrived? && note.dir == dir)
  }

  /** The last queued word on `dir` is its removal: no arrival and no marker stand behind it. */
  predicate LeftLast(queue: seq<Note>, dir: Path) {
    exists i :: 0 <= i < |queue| && LeftLastAt(queue, dir, i)
  }

  predicate LeftLastAt(queue: seq<Note>, dir: Path, i: nat)
    requires i < |queue|
  {
    queue[i].Left? && queue[i].dir == dir && !Promised(queue, i + 1, dir)
  }

  function WithFs(net: Net, fs: Fs): Net {
    net.(sys := net.sys.(ker := net.sys.ker.(fs := fs)))
  }

  function MakeStep(cfg: Config, net: Net, a: Action): Net
    requires a.Make?
  {
    var fs := net.sys.ker.fs;
    if a.dir in fs.nodes then net
    else
      var node := Node(a.isDir, net.clock, a.events);
      var order := if a.dir in fs.order then fs.order else fs.order + [a.dir];
      var made := WithFs(net, fs.(nodes := fs.nodes[a.dir := node], order := order)).(clock := net.clock + 1);
      Enqueue(cfg, made, Arrived(a.dir, net.clock), a.dropped)
  }

  function DeleteStep(cfg: Config, net: Net, a: Action): Net
    requires a.Delete?
  {
    var fs := net.sys.ker.fs;
    if a.dir !in fs.nodes then net
    else
      Enqueue(cfg, WithFs(net, fs.(nodes := fs.nodes - {a.dir})),
              Left(a.dir, fs.nodes[a.dir].incarnation), a.dropped)
  }

  function RewriteStep(net: Net, a: Action): Net
    requires a.Rewrite?
  {
    var fs := net.sys.ker.fs;
    if a.dir in fs.nodes && fs.nodes[a.dir].events.Some? then
      var node := fs.nodes[a.dir];
      var file := node.events.value;
      WithFs(net, fs.(nodes := fs.nodes[a.dir := node.(events := Some(file.(text := a.text)))]))
    else net
  }

  /** The masks the kernel can put on a notification: a bit that says what happened, none that
      the handler tests before it, and any others, such as the one that marks a directory. */
  predicate Announces(note: Note, mask: bv32) {
    match note
    case Arrived(_, _) => mask & 0x0000_CE40 == 0 && mask & 0x0000_0180 != 0
    case Left(_, _) => mask & 0x0000_CC00 == 0 && mask & 0x0000_0240 != 0
    case Overflowed => mask & 0x0000_4000 != 0
  }

  function PathOf(note: Note): Path {
    if note.Overflowed? then Base("") else note.dir
  }

  /** The engine takes the first notification and hands it to the manager's retry loop. */
  function DeliverStep(cfg: Config, net: Net, mask: bv32): Net {
    if net.queue == [] || !Announces(net.queue[0], mask) then net
    else
      net.(sys := Retry(cfg, net.sys, PathOf(net.queue[0]), KindOf(mask), EVENT_RETRY_ATTEMPTS).0,
           queue := net.queue[1..])
  }

  function Step(cfg: Config, net: Net, a: Action): Net {
    match a
    case Make(_, _, _, _) => MakeStep(cfg, net, a)
    case Delete(_, _) => DeleteStep(cfg, net, a)
    case Rewrite(_, _) => RewriteStep(net, a)
    case Relist(order) =>
      var fs := net.sys.ker.fs;
      if forall p | p in fs.nodes :: p in order then WithFs(net, fs.(order := order)) else net
    case Deliver(mask) => DeliverStep(cfg, net, mask)
    case Poll => net.(sys := PollCurrent(cfg, net.sys).0)
    case Priority(e, reading) => net.(sys := HandleEventsPath(cfg, net.sys, e, reading).0)
    case StaleFd(e) => net.(sys := HandleStaleEventsPath(cfg, net.sys, e).0)
    case OtherEvent(path, mask) =>
      if mask & 0x0000_CC00 == 0 && mask & 0x0000_0240 != 0 then net
      else net.(sys := Retry(cfg, net.sys, path, KindOf(mask), EVENT_RETRY_ATTEMPTS).0)
  }

  function Run(cfg: Config, net: Net, actions: seq<Action>): Net
    decreases |actions|
  {
    if actions == [] then net else Run(cfg, Step(cfg, net, actions[0]), actions[1..])
  }

  /** A new source on a file system whose incarnations are all below `clock`. */
  function Start(cfg: Config, fs: Fs, clock: nat): Net {
    Net(Fresh(cfg, fs), [], clock, {}, {})
  }

  // ----- Invariant -----

  ghost predicate Doomed(queue: seq<Note>, dir: Path) {
    exists j :: 0 <= j < |queue| && Dooms(queue[j], dir)
  }

  predicate Dooms(note: Note, dir: Path) {
    note == Overflowed || (note.Left? && note.dir == dir)
  }

  /** The descriptor belongs to the directory that exists now. */
  predicate Current(fs: Fs, e: Path, w: UidWatch) {
    e.Join? && e.parent in fs.nodes && fs.nodes[e.parent].incarnation == w.incarnation
  }

  /** A directory that a scan would find is watched or promised, and no removal is the last
      word on it, unless it is stranded. */
  ghost predicate Covered(cfg: Config, net: Net) {
    forall e | Watchable(cfg, net.sys.ker.fs, e) && e.parent !in net.stranded :: CoveredAt(net, e)
  }

  ghost predicate CoveredAt(net: Net, e: Path)
    requires e.Join?
  {
    && (e in net.sys.src.watches || Promised(net.queue, 0, e.parent))
    && !LeftLast(net.queue, e.parent)
  }

  /** Watches of vanished directories have a queued notification that will remove them. */
  ghost predicate Grounded(net: Net) {
    forall e | e in net.sys.src.watches && net.sys.ker.fs.EventsAt(e).None? ::
      e.Join? && Doomed(net.queue, e.parent)
  }

  /** A descriptor of an older incarnation has the removal of that incarnation queued or lost,
      and only removals of dead incarnations are lost. */
  ghost predicate Tracked(net: Net) {
    && (forall p | p in net.sys.ker.fs.nodes :: net.sys.ker.fs.nodes[p].incarnation < net.clock)
    && (forall e | e in net.sys.src.watches :: TrackedWatch(net, e, net.sys.src.watches[e]))
    && (forall n | n in net.lost && n.Left? :: Dead(net, n.dir, n.incarnation))
  }

  ghost predicate TrackedWatch(net: Net, e: Path, w: UidWatch) {
    && w.incarnation < net.clock && e.Join?
    && if Current(net.sys.ker.fs, e, w) then net.sys.ker.fs.Openable(e)
       else Left(e.parent, w.incarnation) in net.queue || Left(e.parent, w.incarnation) in net.lost
  }

  predicate Dead(net: Net, dir: Path, incarnation: nat) {
    var nodes := net.sys.ker.fs.nodes;
    incarnation < net.clock && (dir in nodes ==> nodes[dir].incarnation != incarnation)
  }

  ghost predicate NetOk(cfg: Config, net: Net) {
    && TableOk(cfg, net.sys) && net.sys.ker.fs.Listed()
    && Covered(cfg, net) && Grounded(net) && Tracked(net)
  }

  // ----- Steps keep the invariant -----

  lemma StartOk(cfg: Config, fs: Fs, clock: nat)
    requires fs.Listed() && forall p | p in fs.nodes :: fs.nodes[p].incarnation < clock
    ensures NetOk(cfg, Start(cfg, fs, clock))
  {
    FreshFindsWatchable(cfg, fs);
    var empty := Sys(Source(map[], {}, 1), Kernel(fs, 0, map[], 0));
    ScanFinds(cfg, empty);
    var net := Start(cfg, fs, clock);
    forall e | e in net.sys.src.watches ensures TrackedWatch(net, e, net.sys.src.watches[e]) {
      assert Opened(cfg, empty, net.sys, e);
    }
  }

  /** Any handler that is tidy, or that leaves a complete table, keeps the invariant. */
  lemma HandlerKeepsNet(cfg: Config, net: Net, sys: Sys)
    requires NetOk(cfg, net) && Evolved(cfg, net.sys, sys)
    requires Tidy(cfg, net.sys, sys) || Complete(cfg, sys)
    ensures NetOk(cfg, net.(sys := sys))
  {
    var next := net.(sys := sys);
    assert Grounded(next) by {
      forall e | e in sys.src.watches && sys.ker.fs.EventsAt(e).None?
        ensures e.Join? && Doomed(next.queue, e.parent)
      {
        assert e in net.sys.src.watches;
      }
    }
    assert Tracked(next) by {
      forall e | e in sys.src.watches ensures TrackedWatch(next, e, sys.src.watches[e]) {
        if !Opened(cfg, net.sys, sys, e) {
          assert e in net.sys.src.watches && TrackedWatch(net, e, net.sys.src.watches[e]);
        }
      }
    }
  }

  /** Noting or losing a change of one directory. */
  lemma EnqueueKeeps(cfg: Config, net: Net, note: Note, dropped: bool)
    requires !note.Overflowed?
    ensures var r := Enqueue(cfg, net, note, dropped);
            && r.sys == net.sys && r.clock == net.clock && Grown(net, r, note.dir)
            && (note in r.lost || net.lost == r.lost) && r.lost <= net.lost + {note}
            && (UnderRoot(cfg, note.dir) ==>
                  && (note in r.queue || note in r.lost)
                  && (note in r.queue || Overflowed in r.queue)
                  && (note.Arrived? && note.dir !in r.stranded ==>
                        Promised(r.queue, 0, note.dir) && !LeftLast(r.queue, note.dir)))
  {
    var r := Enqueue(cfg, net, note, dropped);
    if UnderRoot(cfg, note.dir) {
      if !dropped {
        assert r.queue[|net.queue|] == note;
        if note.Arrived? {
          LastPromises(r.queue, note.dir);
        }
      } else if Overflowed !in net.queue {
        assert r.queue[|net.queue|] == Overflowed;
        LastPromises(r.queue, note.dir);
      } else {
        var j :| 0 <= j < |net.queue| && net.queue[j] == Overflowed;
        assert Promises(net.queue[j], note.dir);
      }
    }
  }

  lemma LastPromises(queue: seq<Note>, dir: Path)
    requires queue != [] && Promises(queue[|queue| - 1], dir)
    ensures Promised(queue, 0, dir) && !LeftLast(queue, dir)
  {
  }

  /** The queue grew at its end by at most one note, which is a marker or concerns `dir`; a
      directory other than `dir` stopped being stranded only by a new marker. */
  ghost predicate Grown(net: Net, r: Net, dir: Path) {
    && net.queue <= r.queue && net.lost <= r.lost
    && (forall i | |net.queue| <= i < |r.queue| :: r.queue[i].Overflowed? || r.queue[i].dir == dir)
    && (forall p | p in net.stranded && p !in r.stranded && p != dir ::
          r.queue != [] && r.queue[|r.queue| - 1] == Overflowed)
  }

  lemma PromisedMonotone(a: seq<Note>, b: seq<Note>, from: nat, dir: Path)
    requires a <= b && Promised(a, from, dir)
    ensures Promised(b, from, dir)
  {
  }

  lemma DoomedMonotone(a: seq<Note>, b: seq<Note>, dir: Path)
    requires a <= b && Doomed(a, dir)
    ensures Doomed(b, dir)
  {
  }

  lemma LeftLastShrinks(a: seq<Note>, b: seq<Note>, dir: Path)
    requires a <= b && LeftLast(b, dir)
    requires forall i | |a| <= i < |b| :: b[i].Overflowed? || b[i].dir != dir
    ensures LeftLast(a, dir)
  {
    var i :| 0 <= i < |b| && LeftLastAt(b, dir, i);
    assert !Promised(a, i + 1, dir);
    assert LeftLastAt(a, dir, i);
  }

  /** `r` is `net` after something happened to `dir` alone and was noted or lost. */
  ghost predicate ChangedAt(net: Net, r: Net, dir: Path) {
    && r.sys.src == net.sys.src && Grown(net, r, dir)
    && (forall p | p != dir && p in r.sys.ker.fs.nodes ::
          p in net.sys.ker.fs.nodes && r.sys.ker.fs.nodes[p] == net.sys.ker.fs.nodes[p])
    && (forall p | p != dir && p in net.sys.ker.fs.nodes :: p in r.sys.ker.fs.nodes)
    && r.sys.ker.fs.listable == net.sys.ker.fs.listable
  }

  lemma ChangeCovers(cfg: Config, net: Net, r: Net, dir: Path)
    requires Covered(cfg, net) && ChangedAt(net, r, dir)
    requires forall e | Watchable(cfg, r.sys.ker.fs, e) && e.parent == dir && dir !in r.stranded ::
               Promised(r.queue, 0, dir) && !LeftLast(r.queue, dir)
    ensures Covered(cfg, r)
  {
    forall e | Watchable(cfg, r.sys.ker.fs, e) && e.parent !in r.stranded ensures CoveredAt(r, e) {
      if e.parent != dir {
        assert Watchable(cfg, net.sys.ker.fs, e);
        if e.parent in net.stranded {
          LastPromises(r.queue, e.parent);
        } else {
          OthersStayCovered(net, r, dir, e);
        }
      }
    }
  }

  lemma OthersStayCovered(net: Net, r: Net, dir: Path, e: Path)
    requires e.Join? && e.parent != dir && Grown(net, r, dir) && r.sys.src == net.sys.src
    requires CoveredAt(net, e)
    ensures CoveredAt(r, e)
  {
    if e !in net.sys.src.watches {
      PromisedMonotone(net.queue, r.queue, 0, e.parent);
    }
    if LeftLast(r.queue, e.parent) {
      LeftLastShrinks(net.queue, r.queue, e.parent);
    }
  }

  lemma ChangeGrounds(cfg: Config, net: Net, r: Net, dir: Path)
    requires TableOk(cfg, net.sys) && Grounded(net) && ChangedAt(net, r, dir)
    requires dir in net.sys.ker.fs.nodes && dir !in r.sys.ker.fs.nodes && UnderRoot(cfg, dir) ==> Doomed(r.queue, dir)
    requires dir in net.sys.ker.fs.nodes ==> dir !in r.sys.ker.fs.nodes
    ensures Grounded(r)
  {
    forall e | e in r.sys.src.watches && r.sys.ker.fs.EventsAt(e).None?
      ensures e.Join? && Doomed(r.queue, e.parent)
    {
      assert WatchOk(cfg, net.sys, e);
      if net.sys.ker.fs.EventsAt(e).None? {
        DoomedMonotone(net.queue, r.queue, e.parent);
      }
    }
  }

  lemma ChangeTracks(cfg: Config, net: Net, r: Net, dir: Path)
    requires TableOk(cfg, net.sys) && Tracked(net) && ChangedAt(net, r, dir) && net.clock <= r.clock
    requires forall p | p in r.sys.ker.fs.nodes :: r.sys.ker.fs.nodes[p].incarnation < r.clock
    requires forall n | n in r.lost && n.Left? && (n !in net.lost || n.dir == dir) :: Dead(r, n.dir, n.incarnation)
    requires forall e | e in r.sys.src.watches && e == EventsPath(dir) ::
               TrackedWatch(r, e, r.sys.src.watches[e])
    ensures Tracked(r)
  {
    forall e | e in r.sys.src.watches ensures TrackedWatch(r, e, r.sys.src.watches[e]) {
      assert TrackedWatch(net, e, net.sys.src.watches[e]) && WatchOk(cfg, net.sys, e);
    }
    forall n | n in r.lost && n.Left? ensures Dead(r, n.dir, n.incarnation) {
      if n in net.lost && n.dir != dir {
        assert Dead(net, n.dir, n.incarnation);
      }
    }
  }

  lemma MakeIsNoted(cfg: Config, net: Net, a: Action)
    requires a.Make? && a.dir !in net.sys.ker.fs.nodes
    ensures var r := MakeStep(cfg, net, a);
            && ChangedAt(net, r, a.dir) && r.clock == net.clock + 1
            && r.sys == net.sys.(ker := net.sys.ker.(fs := r.sys.ker.fs))
            && (net.sys.ker.fs.Listed() ==> r.sys.ker.fs.Listed())
            && a.dir in r.sys.ker.fs.nodes && r.sys.ker.fs.nodes[a.dir].incarnation == net.clock
            && r.lost <= net.lost + {Arrived(a.dir, net.clock)}
            && (UnderRoot(cfg, a.dir) && a.dir !in r.stranded ==>
                  Promised(r.queue, 0, a.dir) && !LeftLast(r.queue, a.dir))
  {
    hide LeftLast, Promised;
    var fs := net.sys.ker.fs;
    var node := Node(a.isDir, net.clock, a.events);
    var order := if a.dir in fs.order then fs.order else fs.order + [a.dir];
    var made := WithFs(net, fs.(nodes := fs.nodes[a.dir := node], order := order)).(clock := net.clock + 1);
    EnqueueKeeps(cfg, made, Arrived(a.dir, net.clock), a.dropped);
  }

  lemma MakeKeepsNet(cfg: Config, net: Net, a: Action)
    requires NetOk(cfg, net) && a.Make?
    ensures NetOk(cfg, MakeStep(cfg, net, a))
  {
    hide Covered, Grounded, Promised, LeftLast, Doomed;
    if a.dir !in net.sys.ker.fs.nodes {
      var r, e := MakeStep(cfg, net, a), EventsPath(a.dir);
      MakeIsNoted(cfg, net, a);
      hide MakeStep, TableOk;
      FsChangeKeepsTable(cfg, net.sys, r.sys);
      ChangeCovers(cfg, net, r, a.dir);
      ChangeGrounds(cfg, net, r, a.dir);
      assert e in net.sys.src.watches ==> TrackedWatch(net, e, net.sys.src.watches[e]);
      ChangeTracks(cfg, net, r, a.dir);
    }
  }

  lemma DeleteIsNoted(cfg: Config, net: Net, a: Action)
    requires a.Delete? && a.dir in net.sys.ker.fs.nodes
    ensures var r, note := DeleteStep(cfg, net, a), Left(a.dir, net.sys.ker.fs.nodes[a.dir].incarnation);
            && ChangedAt(net, r, a.dir) && r.clock == net.clock && a.dir !in r.sys.ker.fs.nodes
            && r.sys == net.sys.(ker := net.sys.ker.(fs := r.sys.ker.fs))
            && (net.sys.ker.fs.Listed() ==> r.sys.ker.fs.Listed())
            && r.lost <= net.lost + {note}
            && (UnderRoot(cfg, a.dir) ==> (note in r.queue || note in r.lost) && Doomed(r.queue, a.dir))
  {
    hide LeftLast, Promised;
    var fs := net.sys.ker.fs;
    var note := Left(a.dir, fs.nodes[a.dir].incarnation);
    EnqueueKeeps(cfg, WithFs(net, fs.(nodes := fs.nodes - {a.dir})), note, a.dropped);
    var r := DeleteStep(cfg, net, a);
    if UnderRoot(cfg, a.dir) {
      var n := if note in r.queue then note else Overflowed;
      var j :| 0 <= j < |r.queue| && r.queue[j] == n;
      assert Dooms(r.queue[j], a.dir);
    }
  }

  lemma DeleteKeepsNet(cfg: Config, net: Net, a: Action)
    requires NetOk(cfg, net) && a.Delete?
    ensures NetOk(cfg, DeleteStep(cfg, net, a))
  {
    hide Covered, Grounded, Promised, LeftLast, Doomed;
    if a.dir in net.sys.ker.fs.nodes {
      var r, e := DeleteStep(cfg, net, a), EventsPath(a.dir);
      DeleteIsNoted(cfg, net, a);
      hide DeleteStep;
      FsChangeKeepsTable(cfg, net.sys, r.sys);
      ChangeCovers(cfg, net, r, a.dir);
      ChangeGrounds(cfg, net, r, a.dir);
      if e in net.sys.src.watches {
        assert WatchOk(cfg, net.sys, e) && TrackedWatch(net, e, net.sys.src.watches[e]);
      }
      ChangeTracks(cfg, net, r, a.dir);
    }
  }

  lemma RewriteChangesNothing(cfg: Config, net: Net, a: Action)
    requires a.Rewrite?
    ensures var r := RewriteStep(net, a);
            && r == net.(sys := net.sys.(ker := net.sys.ker.(fs := r.sys.ker.fs)))
            && (net.sys.ker.fs.Listed() ==> r.sys.ker.fs.Listed())
            && SameDirectories(cfg, net.sys.ker.fs, r.sys.ker.fs)
  {
  }

  /** The same directories with the same incarnations and equally readable events files. */
  ghost predicate SameDirectories(cfg: Config, a: Fs, b: Fs) {
    && (forall p :: p in a.nodes <==> p in b.nodes)
    && (forall p | p in a.nodes :: a.nodes[p].incarnation == b.nodes[p].incarnation)
    && (forall e :: Watchable(cfg, a, e) <==> Watchable(cfg, b, e))
    && (forall e :: a.EventsAt(e).None? <==> b.EventsAt(e).None?)
    && (forall e :: a.Openable(e) <==> b.Openable(e))
  }

  lemma SameDirectoriesKeepNet(cfg: Config, net: Net, r: Net)
    requires NetOk(cfg, net) && r == net.(sys := net.sys.(ker := net.sys.ker.(fs := r.sys.ker.fs)))
    requires r.sys.ker.fs.Listed() && SameDirectories(cfg, net.sys.ker.fs, r.sys.ker.fs)
    ensures NetOk(cfg, r)
  {
    hide TableOk, Watchable, Promised, LeftLast, Doomed;
    FsChangeKeepsTable(cfg, net.sys, r.sys);
    forall e | e in r.sys.src.watches ensures TrackedWatch(r, e, r.sys.src.watches[e]) {
      assert TrackedWatch(net, e, net.sys.src.watches[e]);
    }
    forall n | n in r.lost && n.Left? ensures Dead(r, n.dir, n.incarnation) {
      assert Dead(net, n.dir, n.incarnation);
    }
  }

  lemma RewriteKeepsNet(cfg: Config, net: Net, a: Action)
    requires NetOk(cfg, net) && a.Rewrite?
    ensures NetOk(cfg, RewriteStep(net, a))
  {
    hide RewriteStep, TableOk, Covered, Grounded, Tracked, SameDirectories;
    RewriteChangesNothing(cfg, net, a);
    SameDirectoriesKeepNet(cfg, net, RewriteStep(net, a));
  }

  lemma RelistKeepsNet(cfg: Config, net: Net, order: seq<Path>)
    requires NetOk(cfg, net) && forall p | p in net.sys.ker.fs.nodes :: p in order
    ensures NetOk(cfg, WithFs(net, net.sys.ker.fs.(order := order)))
  {
    hide TableOk, Covered, Grounded, Tracked;
    SameDirectoriesKeepNet(cfg, net, WithFs(net, net.sys.ker.fs.(order := order)));
  }

  // ----- Delivering notifications -----

  function ClassOf(note: Note): EventKind {
    match note
    case Arrived(_, _) => Arrival
    case Left(_, _) => Departure
    case Overflowed => Overflow
  }

  lemma AnnouncedKind(note: Note, mask: bv32)
    requires Announces(note, mask)
    ensures KindOf(mask) == ClassOf(note)
  {
    KindByBits(mask);
  }

  lemma PromisedInRest(queue: seq<Note>, from: nat, dir: Path)
    requires queue != [] && Promised(queue, from, dir)
    requires from > 0 || !Promises(queue[0], dir)
    ensures Promised(queue[1..], if from > 0 then from - 1 else 0, dir)
  {
  }

  lemma LeftLastInRest(queue: seq<Note>, dir: Path)
    requires queue != [] && LeftLast(queue[1..], dir)
    ensures LeftLast(queue, dir)
  {
    var rest := queue[1..];
    var i :| 0 <= i < |rest| && LeftLastAt(rest, dir, i);
    if Promised(queue, i + 2, dir) {
      PromisedInRest(queue, i + 2, dir);
    }
    assert LeftLastAt(queue, dir, i + 1);
  }

  lemma DoomedInRest(queue: seq<Note>, dir: Path)
    requires queue != [] && Doomed(queue, dir) && !Dooms(queue[0], dir)
    ensures Doomed(queue[1..], dir)
  {
  }

  /** Once the first notification is handled, its own directory is right and no other
      directory has lost a promise. */
  lemma DeliveredKeepsNet(cfg: Config, net: Net, sys: Sys, dir: Path)
    requires NetOk(cfg, net) && net.queue != [] && Evolved(cfg, net.sys, sys)
    requires !net.queue[0].Overflowed? && net.queue[0].dir == dir
    requires TidyExcept(cfg, net.sys, sys, dir)
    requires net.queue[0].Arrived? ==>
               && Tidy(cfg, net.sys, sys)
               && (Watchable(cfg, sys.ker.fs, EventsPath(dir)) ==> EventsPath(dir) in sys.src.watches)
    requires net.queue[0].Left? ==> EventsPath(dir) !in sys.src.watches
    ensures NetOk(cfg, net.(sys := sys, queue := net.queue[1..]))
  {
    var r := net.(sys := sys, queue := net.queue[1..]);
    var fs := sys.ker.fs;
    forall e | Watchable(cfg, fs, e) && e.parent !in r.stranded ensures CoveredAt(r, e) {
      assert CoveredAt(net, e);
      if LeftLast(r.queue, e.parent) {
        LeftLastInRest(net.queue, e.parent);
      }
      if e.parent == dir {
        assert e == EventsPath(dir);
        if net.queue[0].Left? {
          assert !LeftLastAt(net.queue, dir, 0);
          PromisedInRest(net.queue, 1, dir);
        }
      } else if e !in sys.src.watches {
        assert e !in net.sys.src.watches;
        PromisedInRest(net.queue, 0, e.parent);
      }
    }
    DeliveredStaysGrounded(cfg, net, sys, dir);
    DeliveredStaysTracked(cfg, net, sys, dir);
  }

  lemma DeliveredStaysGrounded(cfg: Config, net: Net, sys: Sys, dir: Path)
    requires Grounded(net) && net.queue != [] && Evolved(cfg, net.sys, sys)
    requires !net.queue[0].Overflowed? && net.queue[0].dir == dir
    requires net.queue[0].Left? ==> EventsPath(dir) !in sys.src.watches
    ensures Grounded(net.(sys := sys, queue := net.queue[1..]))
  {
    forall e | e in sys.src.watches && sys.ker.fs.EventsAt(e).None?
      ensures e.Join? && Doomed(net.queue[1..], e.parent)
    {
      assert e in net.sys.src.watches && WatchOk(cfg, sys, e);
      DoomedInRest(net.queue, e.parent);
    }
  }

  lemma DeliveredStaysTracked(cfg: Config, net: Net, sys: Sys, dir: Path)
    requires Tracked(net) && net.queue != [] && Evolved(cfg, net.sys, sys)
    requires !net.queue[0].Overflowed? && net.queue[0].dir == dir
    requires net.queue[0].Left? ==> EventsPath(dir) !in sys.src.watches
    ensures Tracked(net.(sys := sys, queue := net.queue[1..]))
  {
    var r := net.(sys := sys, queue := net.queue[1..]);
    assert forall n | n in net.queue :: n == net.queue[0] || n in r.queue;
    forall e | e in sys.src.watches ensures TrackedWatch(r, e, sys.src.watches[e]) {
      assert WatchOk(cfg, sys, e);
      if !Opened(cfg, net.sys, sys, e) {
        assert e in net.sys.src.watches && TrackedWatch(net, e, net.sys.src.watches[e]);
      }
    }
    forall n | n in r.lost && n.Left? ensures Dead(r, n.dir, n.incarnation) {
      assert Dead(net, n.dir, n.incarnation);
    }
  }

  lemma ArrivalCovers(cfg: Config, s: Sys, dir: Path)
    requires TableOk(cfg, s) && Watchable(cfg, s.ker.fs, EventsPath(dir))
    ensures EventsPath(dir) in HandleFsEvent(cfg, s, dir, Arrival).0.src.watches
  {
  }

  lemma DepartureRemoves(cfg: Config, s: Sys, dir: Path)
    requires TableOk(cfg, s) && UnderRoot(cfg, dir)
    ensures EventsPath(dir) !in HandleFsEvent(cfg, s, dir, Departure).0.src.watches
  {
  }

  lemma DeliverKeepsNet(cfg: Config, net: Net, mask: bv32)
    requires NetOk(cfg, net) && NotesUnderRoots(cfg, net.queue)
    ensures NetOk(cfg, DeliverStep(cfg, net, mask))
  {
    hide KindOf;
    if net.queue != [] && Announces(net.queue[0], mask) {
      AnnouncedKind(net.queue[0], mask);
      match net.queue[0]
      case Arrived(d, _) =>
        RetryIsOneCall(cfg, net.sys, d, Arrival, EVENT_RETRY_ATTEMPTS);
        FsEventIsTidy(cfg, net.sys, d, Arrival);
        if Watchable(cfg, net.sys.ker.fs, EventsPath(d)) {
          ArrivalCovers(cfg, net.sys, d);
        }
        DeliveredKeepsNet(cfg, net, HandleFsEvent(cfg, net.sys, d, Arrival).0, d);
      case Left(d, _) =>
        RetryIsOneCall(cfg, net.sys, d, Departure, EVENT_RETRY_ATTEMPTS);
        FsEventIsTidy(cfg, net.sys, d, Departure);
        DepartureRemoves(cfg, net.sys, d);
        DeliveredKeepsNet(cfg, net, HandleFsEvent(cfg, net.sys, d, Departure).0, d);
      case Overflowed =>
        RetryIsOneCall(cfg, net.sys, Base(""), Overflow, EVENT_RETRY_ATTEMPTS);
        FsEventIsTidy(cfg, net.sys, Base(""), Overflow);
        var sys := HandleFsEvent(cfg, net.sys, Base(""), Overflow).0;
        HandlerKeepsNet(cfg, net, sys);
        OverflowKeepsNet(cfg, net, sys);
    }
  }

  lemma OverflowKeepsNet(cfg: Config, net: Net, sys: Sys)
    requires NetOk(cfg, net.(sys := sys)) && Complete(cfg, sys)
    requires net.queue != [] && net.queue[0] == Overflowed
    ensures NetOk(cfg, net.(sys := sys, queue := net.queue[1..]))
  {
    hide TableOk, Watchable;
    var was, r := net.(sys := sys), net.(sys := sys, queue := net.queue[1..]);
    forall e | Watchable(cfg, sys.ker.fs, e) && e.parent !in r.stranded ensures CoveredAt(r, e) {
      assert CoveredAt(was, e);
      if LeftLast(r.queue, e.parent) {
        LeftLastInRest(was.queue, e.parent);
      }
    }
    assert forall n | n in was.queue :: n == Overflowed || n in r.queue;
    forall e | e in sys.src.watches ensures TrackedWatch(r, e, sys.src.watches[e]) {
      assert TrackedWatch(was, e, sys.src.watches[e]);
    }
    forall n | n in r.lost && n.Left? ensures Dead(r, n.dir, n.incarnation) {
      assert Dead(was, n.dir, n.incarnation);
    }
  }

  // ----- Runs -----

  /** Only directories under a root are noted. */
  ghost predicate NotesUnderRoots(cfg: Config, queue: seq<Note>) {
    forall n | n in queue :: n == Overflowed || UnderRoot(cfg, n.dir)
  }

  ghost predicate Good(cfg: Config, net: Net) {
    NetOk(cfg, net) && NotesUnderRoots(cfg, net.queue)
  }

  lemma NoDeparture(mask: bv32)
    requires mask & 0x0000_CC00 != 0 || mask & 0x0000_0240 == 0
    ensures KindOf(mask) != Departure
  {
    KindByBits(mask);
  }

  /** Polls, priority events, stale descriptors and any event that is not a removal, zero masks
      and arrivals out of nowhere included. */
  lemma EngineStepKeepsNet(cfg: Config, net: Net, a: Action)
    requires NetOk(cfg, net) && (a.Poll? || a.Priority? || a.StaleFd? || a.OtherEvent?)
    ensures NetOk(cfg, Step(cfg, net, a)) && Step(cfg, net, a).queue == net.queue
  {
    hide TableOk, Covered, Grounded, Tracked, Complete, Retry, PollFrom, KindOf;
    match a
    case Poll =>
      PollIsTidy(cfg, net.sys, SortedPaths(net.sys.src.watches.Keys));
      HandlerKeepsNet(cfg, net, PollCurrent(cfg, net.sys).0);
    case Priority(e, reading) =>
      EventsPathIsTidy(cfg, net.sys, e, reading);
      HandlerKeepsNet(cfg, net, HandleEventsPath(cfg, net.sys, e, reading).0);
    case StaleFd(e) =>
      StaleEventsPathCompletes(cfg, net.sys, e);
      HandlerKeepsNet(cfg, net, HandleStaleEventsPath(cfg, net.sys, e).0);
    case OtherEvent(path, mask) =>
      var kind := KindOf(mask);
      if !(mask & 0x0000_CC00 == 0 && mask & 0x0000_0240 != 0) {
        NoDeparture(mask);
        RetryIsOneCall(cfg, net.sys, path, kind, EVENT_RETRY_ATTEMPTS);
        FsEventIsTidy(cfg, net.sys, path, kind);
        HandlerKeepsNet(cfg, net, HandleFsEvent(cfg, net.sys, path, kind).0);
      }
  }

  /** Changes of the file system itself. */
  lemma WorldStepKeepsNet(cfg: Config, net: Net, a: Action)
    requires NetOk(cfg, net) && (a.Make? || a.Delete? || a.Rewrite? || a.Relist?)
    ensures NetOk(cfg, Step(cfg, net, a))
  {
    hide NetOk;
    match a
    case Make(_, _, _, _) => MakeKeepsNet(cfg, net, a);
    case Delete(_, _) => DeleteKeepsNet(cfg, net, a);
    case Rewrite(_, _) => RewriteKeepsNet(cfg, net, a);
    case Relist(order) =>
      if forall p | p in net.sys.ker.fs.nodes :: p in order {
        RelistKeepsNet(cfg, net, order);
      }
  }

  lemma StepKeepsNet(cfg: Config, net: Net, a: Action)
    requires Good(cfg, net)
    ensures Good(cfg, Step(cfg, net, a))
  {
    hide NetOk;
    match a
    case Make(_, _, _, _) => WorldStepKeepsNet(cfg, net, a);
    case Delete(_, _) => WorldStepKeepsNet(cfg, net, a);
    case Rewrite(_, _) => WorldStepKeepsNet(cfg, net, a);
    case Relist(_) => WorldStepKeepsNet(cfg, net, a);
    case Deliver(mask) => DeliverKeepsNet(cfg, net, mask);
    case Poll => EngineStepKeepsNet(cfg, net, a);
    case Priority(_, _) => EngineStepKeepsNet(cfg, net, a);
    case StaleFd(_) => EngineStepKeepsNet(cfg, net, a);
    case OtherEvent(_, _) => EngineStepKeepsNet(cfg, net, a);
  }

  lemma {:induction false} RunKeepsNet(cfg: Config, net: Net, actions: seq<Action>)
    requires Good(cfg, net)
    ensures Good(cfg, Run(cfg, net, actions))
    decreases |actions|
  {
    if actions == [] {
    } else {
      StepKeepsNet(cfg, net, actions[0]);
      RunKeepsNet(cfg, Step(cfg, net, actions[0]), actions[1..]);
    }
  }

  /** No notification concerns `dir` any more and no overflow is waiting to be handled. */
  ghost predicate Settled(queue: seq<Note>, dir: Path) {
    Overflowed !in queue && forall n | n in queue :: n.dir != dir
  }

  /** A directory that is not stranded is watched if a scan would find it. A watched one has
      its events file, and its descriptor belongs to the present incarnation exactly when the
      removal of the incarnation it was opened in was not lost. */
  ghost predicate Converged(cfg: Config, net: Net, dir: Path) {
    var e, watches, now := EventsPath(dir), net.sys.src.watches, net.sys.ker.fs;
    && (Watchable(cfg, now, e) && dir !in net.stranded ==> e in watches)
    && (e in watches ==> CorrectWatch(cfg, net, dir, watches[e]))
  }

  ghost predicate CorrectWatch(cfg: Config, net: Net, dir: Path, w: UidWatch) {
    var e, now := EventsPath(dir), net.sys.ker.fs;
    && now.EventsAt(e).Some? && Legit(cfg, e, w.uid)
    && (Current(now, e, w) <==> Left(dir, w.incarnation) !in net.lost)
    && (Current(now, e, w) ==> now.Openable(e) && (dir.parent in now.listable ==> Watchable(cfg, now, e)))
  }

  lemma GoodAndSettled(cfg: Config, net: Net, dir: Path)
    requires Good(cfg, net) && Settled(net.queue, dir)
    ensures Converged(cfg, net, dir)
  {
    var e := EventsPath(dir);
    if e in net.sys.src.watches {
      assert WatchOk(cfg, net.sys, e) && TrackedWatch(net, e, net.sys.src.watches[e]);
      assert Left(dir, net.sys.src.watches[e].incarnation) !in net.queue;
    }
  }

  /** In every run the table has converged on every settled directory. */
  lemma RunsConverge(cfg: Config, fs: Fs, clock: nat, actions: seq<Action>, dir: Path)
    requires fs.Listed() && forall p | p in fs.nodes :: fs.nodes[p].incarnation < clock
    requires Settled(Run(cfg, Start(cfg, fs, clock), actions).queue, dir)
    ensures Converged(cfg, Run(cfg, Start(cfg, fs, clock), actions), dir)
  {
    StartOk(cfg, fs, clock);
    RunKeepsNet(cfg, Start(cfg, fs, clock), actions);
    GoodAndSettled(cfg, Run(cfg, Start(cfg, fs, clock), actions), dir);
  }

  // ----- Losses accounted for -----

  /** Only a directory with a lost arrival is ever stranded. */
  ghost predicate Accounted(net: Net) {
    forall p | p in net.stranded :: exists k :: Arrived(p, k) in net.lost
  }

  lemma StepAccounts(cfg: Config, net: Net, a: Action)
    requires Accounted(net)
    ensures Accounted(Step(cfg, net, a))
  {
    hide PollCurrent, HandleEventsPath, HandleStaleEventsPath, Retry, LeftLast;
    var r := Step(cfg, net, a);
    forall p | p in r.stranded ensures exists k :: Arrived(p, k) in r.lost {
      if p in net.stranded {
        var k :| Arrived(p, k) in net.lost;
        assert Arrived(p, k) in r.lost;
      } else {
        assert Arrived(p, net.clock) in r.lost;
      }
    }
  }

  lemma {:induction false} RunAccounts(cfg: Config, net: Net, actions: seq<Action>)
    requires Accounted(net)
    ensures Accounted(Run(cfg, net, actions))
    decreases |actions|
  {
    hide Step;
    if actions == [] {
    } else {
      StepAccounts(cfg, net, actions[0]);
      RunAccounts(cfg, Step(cfg, net, actions[0]), actions[1..]);
    }
  }

  /** The exception of the convergence result is earned: in every run a stranded directory has
      a lost arrival. */
  lemma RunStrandsLostArrivals(cfg: Config, fs: Fs, clock: nat, actions: seq<Action>, dir: Path)
    requires dir in Run(cfg, Start(cfg, fs, clock), actions).stranded
    ensures exists k :: Arrived(dir, k) in Run(cfg, Start(cfg, fs, clock), actions).lost
  {
    RunAccounts(cfg, Start(cfg, fs, clock), actions);
  }

  predicate Drops(a: Action) {
    (a.Make? || a.Delete?) && a.dropped
  }

  ghost predicate Lossless(net: Net) {
    net.lost == {} && net.stranded == {} && Overflowed !in net.queue
  }

  lemma {:induction false} LosslessRuns(cfg: Config, net: Net, actions: seq<Action>)
    requires Lossless(net) && forall a | a in actions :: !Drops(a)
    ensures Lossless(Run(cfg, net, actions))
    decreases |actions|
  {
    hide PollCurrent, HandleEventsPath, HandleStaleEventsPath, Retry, LeftLast;
    if actions == [] {
    } else {
      assert !Drops(actions[0]);
      LosslessRuns(cfg, Step(cfg, net, actions[0]), actions[1..]);
    }
  }

  /** Without losses a directory with nothing pending is watched exactly when a scan would
      find it, through a descriptor of its present incarnation. */
  lemma LosslessRunsConverge(cfg: Config, fs: Fs, clock: nat, actions: seq<Action>, dir: Path)
    requires fs.Listed() && forall p | p in fs.nodes :: fs.nodes[p].incarnation < clock
    requires forall a | a in actions :: !Drops(a)
    requires forall n | n in Run(cfg, Start(cfg, fs, clock), actions).queue :: n.Overflowed? || n.dir != dir
    requires dir.Join? && dir.parent in Run(cfg, Start(cfg, fs, clock), actions).sys.ker.fs.listable
    ensures var net := Run(cfg, Start(cfg, fs, clock), actions);
            var e, watches, now := EventsPath(dir), net.sys.src.watches, net.sys.ker.fs;
            && (e in watches <==> Watchable(cfg, now, e))
            && (e in watches ==> Current(now, e, watches[e]))
  {
    hide Run, Watchable;
    LosslessRuns(cfg, Start(cfg, fs, clock), actions);
    RunsConverge(cfg, fs, clock, actions, dir);
  }

  lemma FsChangeKeepsTable(cfg: Config, a: Sys, b: Sys)
    requires TableOk(cfg, a) && b == a.(ker := a.ker.(fs := b.ker.fs))
    ensures TableOk(cfg, b)
  {
    forall fd | Held(a, fd) ensures Held(b, fd) {
      var e :| e in a.src.watches && a.src.watches[e].fd == fd;
      assert e in b.src.watches && b.src.watches[e].fd == fd;
    }
    forall e | e in b.src.watches ensures WatchOk(cfg, b, e) {
      assert WatchOk(cfg, a, e);
    }
  }
}
