/** What a lost notification costs, exactly: which descriptors outlive their directory and
    which directories stay unwatched, with runs that get there. */
module OverflowLosses {
  import opened Basics
  import opened Paths
  import opened WatchTable
  import opened WatchTableFacts
  import opened WatchHandlers
  import opened Convergence

  // ----- Old descriptors -----

  /** Handling the marker is one rescan. */
  lemma MarkerDelivered(cfg: Config, net: Net, mask: bv32)
    requires TableOk(cfg, net.sys) && net.sys.ker.fs.Listed()
    requires net.queue != [] && net.queue[0] == Overflowed && Announces(Overflowed, mask)
    ensures var r := Step(cfg, net, Deliver(mask));
            && r == net.(sys := RescanRoots(cfg, net.sys), queue := net.queue[1..])
            && TableOk(cfg, r.sys) && r.sys.ker.fs == net.sys.ker.fs
  {
    hide TableOk, RescanRoots, KindOf;
    AnnouncedKind(Overflowed, mask);
    RetryIsOneCall(cfg, net.sys, Base(""), Overflow, EVENT_RETRY_ATTEMPTS);
    RescanIsTidy(cfg, net.sys);
  }

  /** After the marker a watched file has a current descriptor exactly if it was not already
      watched through an old one: the rescan sees that the path exists and leaves it alone. */
  lemma MarkerKeepsOldDescriptors(cfg: Config, net: Net, mask: bv32, e: Path)
    requires TableOk(cfg, net.sys) && net.sys.ker.fs.Listed()
    requires net.queue != [] && net.queue[0] == Overflowed && Announces(Overflowed, mask)
    requires e in Step(cfg, net, Deliver(mask)).sys.src.watches
    ensures var before, after := net.sys, Step(cfg, net, Deliver(mask)).sys;
            Current(after.ker.fs, e, after.src.watches[e]) <==>
            !(e in before.src.watches && !Current(before.ker.fs, e, before.src.watches[e]))
  {
    hide Step, RescanRoots;
    MarkerDelivered(cfg, net, mask);
    RescanIsTidy(cfg, net.sys);
    if e !in net.sys.src.watches {
      assert Opened(cfg, net.sys, RescanRoots(cfg, net.sys), e);
    }
  }

  lemma RunUnfolds(cfg: Config, net: Net, a: Action, rest: seq<Action>)
    ensures Run(cfg, net, [a] + rest) == Run(cfg, Step(cfg, net, a), rest)
  {
    assert ([a] + rest)[1..] == rest;
  }

  /** `dir` is removed and made again, both times unnoticed but for one marker. */
  function Replaced(cfg: Config, fs: Fs, clock: nat, dir: Path): Net
    requires dir in fs.nodes
  {
    Step(cfg, Step(cfg, Start(cfg, fs, clock), Delete(dir, true)), Make(dir, true, fs.nodes[dir].events, true))
  }

  lemma ReplacedWorld(cfg: Config, fs: Fs, clock: nat, dir: Path)
    requires Watchable(cfg, fs, EventsPath(dir))
    ensures var net := Replaced(cfg, fs, clock, dir);
            && net.queue == [Overflowed] && net.clock == clock + 1
            && dir in net.sys.ker.fs.nodes && net.sys.ker.fs.nodes[dir].incarnation == clock
            && net.sys.ker.fs.nodes[dir].isDir && net.sys.ker.fs.nodes[dir].events == fs.nodes[dir].events
            && Watchable(cfg, net.sys.ker.fs, EventsPath(dir))
            && net.sys.src == Fresh(cfg, fs).src
  {
    hide Fresh;
    assert Fresh(cfg, fs).ker.fs == fs by { FreshKeepsFs(cfg, fs); }
    var gone := Step(cfg, Start(cfg, fs, clock), Delete(dir, true));
    assert gone.queue == [Overflowed] && !LeftLast([Overflowed], dir);
  }

  lemma FreshKeepsFs(cfg: Config, fs: Fs)
    ensures Fresh(cfg, fs).ker.fs == fs
  {
    AddEntriesKeepsFs(cfg, Sys(Source(map[], {}, 1), Kernel(fs, 0, map[], 0)), Entries(fs, cfg.roots));
  }

  lemma {:induction false} AddEntriesKeepsFs(cfg: Config, s: Sys, dirs: seq<Path>)
    ensures AddEntries(cfg, s, dirs).ker.fs == s.ker.fs
    decreases |dirs|
  {
    if dirs == [] {
    } else {
      AddEntriesKeepsFs(cfg, AddEntry(cfg, s, dirs[0]), dirs[1..]);
    }
  }

  lemma ReplacedUnnoticed(cfg: Config, fs: Fs, clock: nat, dir: Path)
    requires fs.Listed() && forall p | p in fs.nodes :: fs.nodes[p].incarnation < clock
    requires Watchable(cfg, fs, EventsPath(dir))
    ensures var net, e := Replaced(cfg, fs, clock, dir), EventsPath(dir);
            && Good(cfg, net)
            && e in net.sys.src.watches && !Current(net.sys.ker.fs, e, net.sys.src.watches[e])
  {
    var start, e := Start(cfg, fs, clock), EventsPath(dir);
    var events := fs.nodes[dir].events;
    ReplacedWorld(cfg, fs, clock, dir);
    StartOk(cfg, fs, clock);
    FreshFindsWatchable(cfg, fs);
    assert TrackedWatch(start, e, start.sys.src.watches[e]);
    hide NetOk, Step, Fresh;
    StepKeepsNet(cfg, start, Delete(dir, true));
    StepKeepsNet(cfg, Step(cfg, start, Delete(dir, true)), Make(dir, true, events, true));
  }

  const MARKER: bv32 := 0x0000_4000
  const DIRECTORY_LEFT: bv32 := 0x4000_0200

  lemma OldDescriptorStays(cfg: Config, net: Net, e: Path)
    requires TableOk(cfg, net.sys) && net.sys.ker.fs.Listed() && net.queue == [Overflowed]
    requires Watchable(cfg, net.sys.ker.fs, e)
    requires e in net.sys.src.watches && !Current(net.sys.ker.fs, e, net.sys.src.watches[e])
    ensures var r := Step(cfg, net, Deliver(MARKER));
            && r.queue == [] && Watchable(cfg, r.sys.ker.fs, e)
            && e in r.sys.src.watches && !Current(r.sys.ker.fs, e, r.sys.src.watches[e])
  {
    WatchableExists(cfg, net.sys.ker.fs, e);
    hide Step, RescanRoots, TableOk, Watchable;
    MarkerDelivered(cfg, net, MARKER);
    RescanKeepsSurvivors(cfg, net.sys, e);
  }

  lemma ThreeSteps(cfg: Config, net: Net, a: Action, b: Action, c: Action)
    ensures Run(cfg, net, [a, b, c]) == Step(cfg, Step(cfg, Step(cfg, net, a), b), c)
  {
    hide Step;
    assert [a, b, c][1..] == [b, c] && [b, c][1..] == [c] && [c][1..] == [];
    assert Run(cfg, net, [a, b, c]) == Run(cfg, Step(cfg, net, a), [b, c]);
    assert Run(cfg, Step(cfg, net, a), [b, c]) == Run(cfg, Step(cfg, Step(cfg, net, a), b), [c]);
  }

  /** From any watched directory a run reaches a state with nothing pending in which the
      directory exists and is watched through the descriptor of its former incarnation. */
  lemma OldDescriptorRun(cfg: Config, fs: Fs, clock: nat, dir: Path)
    requires fs.Listed() && forall p | p in fs.nodes :: fs.nodes[p].incarnation < clock
    requires Watchable(cfg, fs, EventsPath(dir))
    ensures var actions := [Delete(dir, true), Make(dir, true, fs.nodes[dir].events, true), Deliver(MARKER)];
            var net, e := Run(cfg, Start(cfg, fs, clock), actions), EventsPath(dir);
            && net.queue == [] && Watchable(cfg, net.sys.ker.fs, e)
            && e in net.sys.src.watches && !Current(net.sys.ker.fs, e, net.sys.src.watches[e])
  {
    var net, make := Replaced(cfg, fs, clock, dir), Make(dir, true, fs.nodes[dir].events, true);
    hide Step, Watchable, Run, Covered, Grounded, Tracked;
    ReplacedWorld(cfg, fs, clock, dir);
    ReplacedUnnoticed(cfg, fs, clock, dir);
    OldDescriptorStays(cfg, net, EventsPath(dir));
    ThreeSteps(cfg, Start(cfg, fs, clock), Delete(dir, true), make, Deliver(MARKER));
  }

  lemma WatchableExists(cfg: Config, fs: Fs, e: Path)
    requires Watchable(cfg, fs, e)
    ensures fs.EventsAt(e).Some?
  {
  }

  // ----- Lost directories -----

  function Deliveries(masks: seq<bv32>): seq<Action> {
    if masks == [] then [] else [Deliver(masks[0])] + Deliveries(masks[1..])
  }

  /** One possible mask for each queued notification. */
  predicate Fits(queue: seq<Note>, masks: seq<bv32>) {
    |queue| == |masks| && forall i | 0 <= i < |queue| :: Announces(queue[i], masks[i])
  }

  /** The engine handles everything queued while nothing else happens. */
  function Drained(cfg: Config, net: Net, masks: seq<bv32>): Net {
    Run(cfg, net, Deliveries(masks))
  }

  lemma DrainUnfolds(cfg: Config, net: Net, masks: seq<bv32>)
    requires masks != []
    ensures Drained(cfg, net, masks) == Drained(cfg, Step(cfg, net, Deliver(masks[0])), masks[1..])
  {
    hide Step;
    RunUnfolds(cfg, net, Deliver(masks[0]), Deliveries(masks[1..]));
  }

  lemma DeliveryKeepsWorld(cfg: Config, net: Net, mask: bv32)
    requires Good(cfg, net) && net.queue != [] && Announces(net.queue[0], mask)
    ensures var r := Step(cfg, net, Deliver(mask));
            && r.queue == net.queue[1..] && r.stranded == net.stranded && r.sys.ker.fs == net.sys.ker.fs
  {
    hide Retry, HandleFsEvent, TableOk, KindOf;
    AnnouncedKind(net.queue[0], mask);
    var path, kind := PathOf(net.queue[0]), KindOf(mask);
    RetryIsOneCall(cfg, net.sys, path, kind, EVENT_RETRY_ATTEMPTS);
    FsEventIsTidy(cfg, net.sys, path, kind);
  }

  lemma {:induction false} DrainEmpties(cfg: Config, net: Net, masks: seq<bv32>)
    requires Good(cfg, net) && Fits(net.queue, masks)
    ensures var r := Drained(cfg, net, masks);
            && Good(cfg, r) && r.queue == [] && r.stranded == net.stranded && r.sys.ker.fs == net.sys.ker.fs
    decreases |masks|
  {
    hide Good, Step, Announces;
    if masks == [] {
    } else {
      DeliveryKeepsWorld(cfg, net, masks[0]);
      StepKeepsNet(cfg, net, Deliver(masks[0]));
      DrainUnfolds(cfg, net, masks);
      DrainEmpties(cfg, Step(cfg, net, Deliver(masks[0])), masks[1..]);
    }
  }

  /** A notification of `dir` adds no watch but the one of `dir`, and only if it arrived. */
  lemma NoteTouchesOwn(cfg: Config, s: Sys, dir: Path, kind: EventKind, e: Path)
    requires kind == Arrival || kind == Departure
    requires e !in s.src.watches && (kind == Arrival ==> e != EventsPath(dir))
    ensures e !in HandleFsEvent(cfg, s, dir, kind).0.src.watches
  {
  }

  /** What nothing queued promises stays unwatched. */
  lemma DeliveryPromisesNothing(cfg: Config, net: Net, mask: bv32, dir: Path)
    requires Good(cfg, net) && net.queue != [] && !Promises(net.queue[0], dir) && Announces(net.queue[0], mask)
    requires EventsPath(dir) !in net.sys.src.watches || (net.queue[0].Left? && net.queue[0].dir == dir)
    ensures EventsPath(dir) !in Step(cfg, net, Deliver(mask)).sys.src.watches
  {
    hide Retry, HandleFsEvent, TableOk, KindOf;
    AnnouncedKind(net.queue[0], mask);
    assert net.queue[0] in net.queue;
    var path, kind := PathOf(net.queue[0]), KindOf(mask);
    RetryIsOneCall(cfg, net.sys, path, kind, EVENT_RETRY_ATTEMPTS);
    if path == dir {
      DepartureRemoves(cfg, net.sys, dir);
    } else {
      NoteTouchesOwn(cfg, net.sys, path, kind, EventsPath(dir));
    }
  }

  lemma NotPromisedInRest(queue: seq<Note>, from: nat, dir: Path)
    requires queue != [] && !Promised(queue, from, dir)
    ensures !Promised(queue[1..], if from > 0 then from - 1 else 0, dir)
  {
    assert forall j | 0 <= j < |queue[1..]| :: queue[1..][j] == queue[j + 1];
  }

  lemma {:induction false} DrainPromisesNothing(cfg: Config, net: Net, masks: seq<bv32>, dir: Path)
    requires Good(cfg, net) && Fits(net.queue, masks)
    requires EventsPath(dir) !in net.sys.src.watches && !Promised(net.queue, 0, dir)
    ensures EventsPath(dir) !in Drained(cfg, net, masks).sys.src.watches
    decreases |masks|
  {
    hide Good, Step, Announces;
    if masks == [] {
    } else {
      NotPromisedInRest(net.queue, 0, dir);
      DeliveryPromisesNothing(cfg, net, masks[0], dir);
      DeliveryKeepsWorld(cfg, net, masks[0]);
      StepKeepsNet(cfg, net, Deliver(masks[0]));
      DrainUnfolds(cfg, net, masks);
      DrainPromisesNothing(cfg, Step(cfg, net, Deliver(masks[0])), masks[1..], dir);
    }
  }

  /** A directory whose removal is the last queued word on it ends up unwatched. */
  lemma {:induction false} DrainLoses(cfg: Config, net: Net, masks: seq<bv32>, dir: Path)
    requires Good(cfg, net) && Fits(net.queue, masks) && LeftLast(net.queue, dir)
    ensures EventsPath(dir) !in Drained(cfg, net, masks).sys.src.watches
    decreases |masks|
  {
    hide Good, Step, Announces;
    var i :| 0 <= i < |net.queue| && LeftLastAt(net.queue, dir, i);
    DeliveryKeepsWorld(cfg, net, masks[0]);
    StepKeepsNet(cfg, net, Deliver(masks[0]));
    DrainUnfolds(cfg, net, masks);
    NotPromisedInRest(net.queue, i + 1, dir);
    if i == 0 {
      DeliveryPromisesNothing(cfg, net, masks[0], dir);
      DrainPromisesNothing(cfg, Step(cfg, net, Deliver(masks[0])), masks[1..], dir);
    } else {
      assert LeftLastAt(net.queue[1..], dir, i - 1);
      DrainLoses(cfg, Step(cfg, net, Deliver(masks[0])), masks[1..], dir);
    }
  }

  /** The exact condition at the drop of an arrival: once everything queued is handled, with
      whatever masks, the new directory is watched unless the kernel's one marker was still
      queued and the removal of the former directory was the last word behind it. */
  lemma DropLosesIff(cfg: Config, net: Net, a: Action, masks: seq<bv32>)
    requires Good(cfg, net) && a.Make? && a.dropped && a.dir !in net.sys.ker.fs.nodes
    requires Watchable(cfg, Step(cfg, net, a).sys.ker.fs, EventsPath(a.dir))
    requires Fits(Step(cfg, net, a).queue, masks)
    ensures var r, e := Drained(cfg, Step(cfg, net, a), masks), EventsPath(a.dir);
            && r.queue == [] && Watchable(cfg, r.sys.ker.fs, e)
            && (e in r.sys.src.watches <==> !(Overflowed in net.queue && LeftLast(net.queue, a.dir)))
  {
    var next := Step(cfg, net, a);
    StepKeepsNet(cfg, net, a);
    DrainEmpties(cfg, next, masks);
    hide Good, LeftLast, Watchable, Fits;
    assert UnderRoot(cfg, a.dir) by { WatchableIsUnderRoot(cfg, next.sys.ker.fs, a.dir); }
    if Overflowed in net.queue && LeftLast(net.queue, a.dir) {
      DrainLoses(cfg, next, masks, a.dir);
    } else {
      GoodAndSettled(cfg, Drained(cfg, next, masks), a.dir);
    }
  }

  lemma WatchableIsUnderRoot(cfg: Config, fs: Fs, dir: Path)
    requires Watchable(cfg, fs, EventsPath(dir))
    ensures UnderRoot(cfg, dir)
  {
  }

  /** From any watched directory a run reaches a state with nothing pending in which the
      directory exists, a scan would find it, and it is not watched. */
  lemma LostDirectoryRun(cfg: Config, fs: Fs, clock: nat, dir: Path)
    requires fs.Listed() && forall p | p in fs.nodes :: fs.nodes[p].incarnation < clock
    requires Watchable(cfg, fs, EventsPath(dir))
    ensures var make := Make(dir, true, fs.nodes[dir].events, true);
            var actions :=
              [Delete(dir, true), make, Delete(dir, false), make, Deliver(MARKER), Deliver(DIRECTORY_LEFT)];
            var net, e := Run(cfg, Start(cfg, fs, clock), actions), EventsPath(dir);
            && net.queue == [] && Watchable(cfg, net.sys.ker.fs, e) && e !in net.sys.src.watches
            && dir in net.stranded
  {
    var replaced := Replaced(cfg, fs, clock, dir);
    var make := Make(dir, true, fs.nodes[dir].events, true);
    ReplacedWorld(cfg, fs, clock, dir);
    ReplacedUnnoticed(cfg, fs, clock, dir);
    LossIsReached(cfg, replaced, make);
    var before := Step(cfg, replaced, Delete(dir, false));
    StepKeepsNet(cfg, replaced, Delete(dir, false));
    DropLosesIff(cfg, before, make, [MARKER, DIRECTORY_LEFT]);
    StepKeepsNet(cfg, before, make);
    DrainEmpties(cfg, Step(cfg, before, make), [MARKER, DIRECTORY_LEFT]);
    hide Step, Good, Watchable;
    SixSteps(cfg, Start(cfg, fs, clock), Delete(dir, true), make, Delete(dir, false));
  }

  lemma SixSteps(cfg: Config, net: Net, a: Action, b: Action, c: Action)
    ensures Run(cfg, net, [a, b, c, b, Deliver(MARKER), Deliver(DIRECTORY_LEFT)]) ==
            Drained(cfg, Step(cfg, Step(cfg, Step(cfg, Step(cfg, net, a), b), c), b), [MARKER, DIRECTORY_LEFT])
  {
    hide Step;
    var tail := [Deliver(MARKER), Deliver(DIRECTORY_LEFT)];
    var masks := [MARKER, DIRECTORY_LEFT];
    assert masks[1..] == [DIRECTORY_LEFT] && masks[1..][1..] == [];
    assert Deliveries(masks[1..]) == [Deliver(DIRECTORY_LEFT)] + Deliveries([]);
    assert Deliveries(masks) == [Deliver(MARKER)] + Deliveries(masks[1..]) == tail;
    assert [a, b, c, b, Deliver(MARKER), Deliver(DIRECTORY_LEFT)] == [a] + ([b] + ([c] + ([b] + tail)));
    RunUnfolds(cfg, net, a, [b] + ([c] + ([b] + tail)));
    RunUnfolds(cfg, Step(cfg, net, a), b, [c] + ([b] + tail));
    RunUnfolds(cfg, Step(cfg, Step(cfg, net, a), b), c, [b] + tail);
    RunUnfolds(cfg, Step(cfg, Step(cfg, Step(cfg, net, a), b), c), b, tail);
  }

  lemma LossIsReached(cfg: Config, net: Net, make: Action)
    requires net.queue == [Overflowed] && make.Make? && make.dropped && UnderRoot(cfg, make.dir)
    requires make.dir in net.sys.ker.fs.nodes && make.isDir
    requires net.sys.ker.fs.nodes[make.dir].isDir && net.sys.ker.fs.nodes[make.dir].events == make.events
    ensures var before := Step(cfg, net, Delete(make.dir, false));
            var after := Step(cfg, before, make);
            && make.dir !in before.sys.ker.fs.nodes
            && Overflowed in before.queue && LeftLast(before.queue, make.dir)
            && Fits(after.queue, [MARKER, DIRECTORY_LEFT]) && make.dir in after.stranded
            && (Watchable(cfg, net.sys.ker.fs, EventsPath(make.dir)) ==>
                  Watchable(cfg, after.sys.ker.fs, EventsPath(make.dir)))
  {
    var k := net.sys.ker.fs.nodes[make.dir].incarnation;
    var before := Step(cfg, net, Delete(make.dir, false));
    assert before.queue == [Overflowed, Left(make.dir, k)];
    assert LeftLastAt(before.queue, make.dir, 1);
  }
}
