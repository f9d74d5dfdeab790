/** An inotify overflow behind the automatic source is answered by polling. When that repairs
    the watch table, and when it does not. */
module AutomaticOverflow {
  import opened Basics
  import opened Paths
  import opened CgroupEvents
  import opened WatchTable
  import opened WatchTableFacts
  import opened WatchHandlers
  import opened Reconciliation
  import opened EngineRuns
  import Runs = ReconciliationRuns

  // ----- What a poll completes -----

  /** Polling meets a vanished file before any verdict stops it. */
  ghost predicate MeetsVanished(cfg: Config, s: Sys, paths: seq<Path>)
    requires forall p | p in paths :: p in s.src.watches
  {
    exists i :: 0 <= i < |paths| && VanishedAt(cfg, s, paths, i)
  }

  ghost predicate VanishedAt(cfg: Config, s: Sys, paths: seq<Path>, i: nat)
    requires i < |paths| && forall p | p in paths :: p in s.src.watches
  {
    s.ker.fs.EventsAt(paths[i]).None? && forall j | 0 <= j < i :: Verdict(cfg, s, paths[j]) == Ok(None)
  }

  lemma MeetsVanishedUnfolds(cfg: Config, s: Sys, paths: seq<Path>)
    requires paths != [] && forall p | p in paths :: p in s.src.watches
    ensures MeetsVanished(cfg, s, paths) <==>
            || s.ker.fs.EventsAt(paths[0]).None?
            || (Verdict(cfg, s, paths[0]) == Ok(None) && MeetsVanished(cfg, s, paths[1..]))
  {
    var rest := paths[1..];
    assert forall j | 1 <= j < |paths| :: paths[j] == rest[j - 1];
    if s.ker.fs.EventsAt(paths[0]).None? {
      assert VanishedAt(cfg, s, paths, 0);
    }
    if MeetsVanished(cfg, s, paths) && s.ker.fs.EventsAt(paths[0]).Some? {
      var i :| 0 <= i < |paths| && VanishedAt(cfg, s, paths, i);
      assert VanishedAt(cfg, s, rest, i - 1);
    }
    if Verdict(cfg, s, paths[0]) == Ok(None) && MeetsVanished(cfg, s, rest) {
      var i :| 0 <= i < |rest| && VanishedAt(cfg, s, rest, i);
      assert VanishedAt(cfg, s, paths, i + 1);
    }
  }

  lemma RelabelledComplete(cfg: Config, s: Sys, r: Sys)
    requires Relabelled(s, r)
    ensures Complete(cfg, s) <==> Complete(cfg, r)
  {
    assert forall e :: e in s.src.watches <==> e in r.src.watches;
  }

  lemma SetPopulatedRelabels(s: Sys, e: Path, populated: Populated)
    ensures Relabelled(s, SetPopulated(s, e, populated))
  {
  }

  lemma RelabelledTransitive(a: Sys, b: Sys, c: Sys)
    requires Relabelled(a, b) && Relabelled(b, c)
    ensures Relabelled(a, c)
  {
  }

  /** What polling does at its first path. */
  lemma PollFirst(cfg: Config, s: Sys, now: Sys, paths: seq<Path>)
    requires Relabelled(s, now) && paths != [] && paths[0] in s.src.watches
    ensures var e, r := paths[0], PollFrom(cfg, now, paths);
            match s.ker.fs.EventsAt(e)
            case None => r == PollFrom(cfg, RescanRoots(cfg, Remove(now, {e})), paths[1..])
            case Some(file) =>
              var next := SetPopulated(now, e, ParsePopulated(file.text));
              if Verdict(cfg, s, e) == Ok(None) then r == PollFrom(cfg, next, paths[1..])
              else (r.0 == now || r.0 == next) && r.1 == Verdict(cfg, s, e)
  {
    hide RescanRoots, CandidateForUid;
    assert SameWatch(s.src.watches[paths[0]], now.src.watches[paths[0]]);
  }

  lemma {:induction false} PollKeepsComplete(cfg: Config, now: Sys, paths: seq<Path>)
    requires Complete(cfg, now)
    ensures Complete(cfg, PollFrom(cfg, now, paths).0)
    decreases |paths|
  {
    hide RescanRoots;
    if paths == [] {
    } else if paths[0] !in now.src.watches {
      PollKeepsComplete(cfg, now, paths[1..]);
    } else {
      var next := SetPopulated(now, paths[0], ParsePopulated(now.ker.fs.EventsAt(paths[0]).value.text));
      SetPopulatedRelabels(now, paths[0], ParsePopulated(now.ker.fs.EventsAt(paths[0]).value.text));
      RelabelledComplete(cfg, now, next);
      PollKeepsComplete(cfg, next, paths[1..]);
    }
  }

  lemma {:induction false} PollFromCompletes(cfg: Config, s: Sys, now: Sys, paths: seq<Path>)
    requires TableOk(cfg, now) && s.ker.fs.Listed() && Relabelled(s, now)
    requires forall p | p in paths :: p in s.src.watches
    ensures Complete(cfg, PollFrom(cfg, now, paths).0) <==> Complete(cfg, s) || MeetsVanished(cfg, s, paths)
    decreases |paths|
  {
    hide Complete, Verdict, PollFrom, RescanRoots, SetPopulated, TableOk;
    RelabelledComplete(cfg, s, now);
    if paths == [] {
      assert !MeetsVanished(cfg, s, paths);
      assert PollFrom(cfg, now, paths).0 == now by { PollNothing(cfg, now); }
    } else {
      var e := paths[0];
      PollFirst(cfg, s, now, paths);
      MeetsVanishedUnfolds(cfg, s, paths);
      match s.ker.fs.EventsAt(e)
      case None =>
        RemovedIsOk(cfg, now, e);
        RescanIsTidy(cfg, Remove(now, {e}));
        PollKeepsComplete(cfg, RescanRoots(cfg, Remove(now, {e})), paths[1..]);
      case Some(file) =>
        var next := SetPopulated(now, e, ParsePopulated(file.text));
        SetPopulatedRelabels(now, e, ParsePopulated(file.text));
        RelabelledTransitive(s, now, next);
        RelabelledComplete(cfg, s, next);
        if Verdict(cfg, s, e) == Ok(None) {
          RelabelledIsOk(cfg, now, next);
          PollFromCompletes(cfg, s, next, paths[1..]);
        }
    }
  }

  lemma PollNothing(cfg: Config, now: Sys)
    ensures PollFrom(cfg, now, []) == (now, Ok(None))
  {
  }

  lemma RelabelledIsOk(cfg: Config, s: Sys, r: Sys)
    requires TableOk(cfg, s) && Relabelled(s, r)
    ensures TableOk(cfg, r)
  {
    RelabelledIsTidy(cfg, s, r);
  }

  lemma RemovedIsOk(cfg: Config, s: Sys, e: Path)
    requires TableOk(cfg, s)
    ensures TableOk(cfg, Remove(s, {e})) && Remove(s, {e}).ker.fs == s.ker.fs
  {
    RemoveEvolves(cfg, s, {e});
  }

  /** A poll leaves a complete table exactly if the table was complete or the poll meets a
      vanished file before a candidate or an error ends it. */
  lemma PollCompletesIff(cfg: Config, s: Sys)
    requires TableOk(cfg, s) && s.ker.fs.Listed()
    ensures Complete(cfg, PollCurrent(cfg, s).0) <==>
            Complete(cfg, s) || MeetsVanished(cfg, s, SortedPaths(s.src.watches.Keys))
  {
    hide TableOk, Complete, PollFrom, MeetsVanished;
    PollFromCompletes(cfg, s, s, SortedPaths(s.src.watches.Keys));
  }

  // ----- Overflow behind the automatic source -----

  /** The v2 source on its own always repairs the table after an overflow. Behind the automatic
      source one attempt repairs it exactly if it was complete before, or v1 does not answer and
      the poll then meets a vanished file in time; otherwise it opens and closes nothing. */
  lemma OverflowCompletesIff(cfg: Config, v1Hints: seq<Path>, front: Front, o: Oracle)
    requires TableOk(cfg, front.sys) && front.sys.ker.fs.Listed() && front.mode.Automatic?
    requires Base("") !in cfg.roots
    ensures Complete(cfg, FsEventFront(cfg, v1Hints, front, Base(""), Overflow, o).0.sys) <==>
            || Complete(cfg, front.sys)
            || (o.v1.Err? && MeetsVanished(cfg, front.sys, SortedPaths(front.sys.src.watches.Keys)))
    ensures !(o.v1.Err? && MeetsVanished(cfg, front.sys, SortedPaths(front.sys.src.watches.Keys))) ==>
              FsEventFront(cfg, v1Hints, front, Base(""), Overflow, o).0.sys.src.watches.Keys
              == front.sys.src.watches.Keys
    ensures Complete(cfg, HandleFsEvent(cfg, front.sys, Base(""), Overflow).0)
  {
    hide TableOk, Complete, PollCurrent, MeetsVanished, HandleFsEvent;
    PollCompletesIff(cfg, front.sys);
    FsEventIsTidy(cfg, front.sys, Base(""), Overflow);
    if !(o.v1.Err? && MeetsVanished(cfg, front.sys, SortedPaths(front.sys.src.watches.Keys))) {
      UnrepairedRelabels(cfg, v1Hints, front, o);
    }
  }

  /** The first attempt that v1 does not answer decides what polling sees; before it v1 must
      have had nothing to say, or there would be no further attempt. */
  ghost predicate FallsToPoll(os: seq<Oracle>) {
    exists k :: 0 <= k < |os| && FallsAt(os, k)
  }

  ghost predicate FallsAt(os: seq<Oracle>, k: nat)
    requires k < |os|
  {
    os[k].v1.Err? && forall j | 0 <= j < k :: os[j].v1 == Ok(None)
  }

  lemma FallsUnfolds(os: seq<Oracle>)
    requires os != []
    ensures FallsToPoll(os) <==> os[0].v1.Err? || (os[0].v1 == Ok(None) && FallsToPoll(os[1..]))
  {
    var rest := os[1..];
    assert forall j | 1 <= j < |os| :: os[j] == rest[j - 1];
    if os[0].v1.Err? {
      assert FallsAt(os, 0);
    }
    if FallsToPoll(os) && os[0].v1.Ok? {
      var k :| 0 <= k < |os| && FallsAt(os, k);
      assert FallsAt(rest, k - 1);
    }
    if os[0].v1 == Ok(None) && FallsToPoll(rest) {
      var k :| 0 <= k < |rest| && FallsAt(rest, k);
      assert FallsAt(os, k + 1);
    }
  }

  /** Verdicts only look at files and uids, so relabelling changes none. */
  lemma RelabelledMeets(cfg: Config, s: Sys, r: Sys, paths: seq<Path>)
    requires Relabelled(s, r) && forall p | p in paths :: p in s.src.watches
    ensures forall p | p in paths :: p in r.src.watches
    ensures MeetsVanished(cfg, s, paths) <==> MeetsVanished(cfg, r, paths)
  {
    forall p | p in s.src.watches ensures p in r.src.watches && Verdict(cfg, s, p) == Verdict(cfg, r, p) {
      assert SameWatch(s.src.watches[p], r.src.watches[p]);
    }
    forall i | 0 <= i < |paths| ensures VanishedAt(cfg, s, paths, i) <==> VanishedAt(cfg, r, paths, i) {
    }
  }

  lemma {:induction false} PollRelabels(cfg: Config, s: Sys, now: Sys, paths: seq<Path>)
    requires Relabelled(s, now) && forall p | p in paths :: p in s.src.watches
    requires !MeetsVanished(cfg, s, paths)
    ensures Relabelled(s, PollFrom(cfg, now, paths).0)
    decreases |paths|
  {
    hide Verdict, MeetsVanished, SetPopulated, Relabelled;
    if paths == [] {
      PollNothing(cfg, now);
    } else {
      var e := paths[0];
      MeetsVanishedUnfolds(cfg, s, paths);
      PollFirst(cfg, s, now, paths);
      hide PollFrom;
      var next := SetPopulated(now, e, ParsePopulated(s.ker.fs.EventsAt(e).value.text));
      SetPopulatedRelabels(now, e, ParsePopulated(s.ker.fs.EventsAt(e).value.text));
      RelabelledTransitive(s, now, next);
      if Verdict(cfg, s, e) == Ok(None) {
        PollRelabels(cfg, s, next, paths[1..]);
      }
    }
  }

  lemma {:induction false} AttemptsKeepComplete(cfg: Config, v1Hints: seq<Path>, front: Front, os: seq<Oracle>)
    requires front.mode.Automatic? && Base("") !in cfg.roots && Complete(cfg, front.sys)
    ensures Complete(cfg, Attempts(cfg, v1Hints, front, Base(""), Overflow, os).0.sys)
    decreases |os|
  {
    hide Complete, PollFrom, HandleFsEvent;
    if os == [] {
    } else {
      PollKeepsComplete(cfg, front.sys, SortedPaths(front.sys.src.watches.Keys));
      AttemptsKeepComplete(cfg, v1Hints, FsEventFront(cfg, v1Hints, front, Base(""), Overflow, os[0]).0, os[1..]);
    }
  }

  /** All attempts the manager makes at one overflow repair the table exactly if it was
      complete before, or some attempt falls to polling and polling meets a vanished file. */
  lemma {:induction false} AttemptsCompleteIff(cfg: Config, v1Hints: seq<Path>, front: Front, os: seq<Oracle>)
    requires TableOk(cfg, front.sys) && front.sys.ker.fs.Listed() && front.mode.Automatic?
    requires Base("") !in cfg.roots
    ensures Complete(cfg, Attempts(cfg, v1Hints, front, Base(""), Overflow, os).0.sys) <==>
            || Complete(cfg, front.sys)
            || (FallsToPoll(os) && MeetsVanished(cfg, front.sys, SortedPaths(front.sys.src.watches.Keys)))
    decreases |os|
  {
    hide Complete, PollFrom, HandleFsEvent, TableOk, MeetsVanished, FallsToPoll;
    var s, paths := front.sys, SortedPaths(front.sys.src.watches.Keys);
    if os == [] {
      assert !FallsToPoll(os) by { NoAttempts(); }
    } else {
      var r := FsEventFront(cfg, v1Hints, front, Base(""), Overflow, os[0]);
      FallsUnfolds(os);
      OverflowCompletesIff(cfg, v1Hints, front, os[0]);
      if Complete(cfg, r.0.sys) {
        AttemptsKeepComplete(cfg, v1Hints, r.0, os[1..]);
      } else {
        UnrepairedRelabels(cfg, v1Hints, front, os[0]);
        RelabelledMeets(cfg, s, r.0.sys, paths);
        assert r.0.sys.src.watches.Keys == s.src.watches.Keys;
        RelabelledIsOk(cfg, s, r.0.sys);
        RelabelledComplete(cfg, s, r.0.sys);
        AttemptsCompleteIff(cfg, v1Hints, r.0, os[1..]);
      }
    }
  }

  lemma NoAttempts()
    ensures !FallsToPoll([])
  {
  }

  lemma UnrepairedRelabels(cfg: Config, v1Hints: seq<Path>, front: Front, o: Oracle)
    requires front.mode.Automatic? && Base("") !in cfg.roots
    requires o.v1.Err? ==> !MeetsVanished(cfg, front.sys, SortedPaths(front.sys.src.watches.Keys))
    ensures var r := FsEventFront(cfg, v1Hints, front, Base(""), Overflow, o).0;
            Relabelled(front.sys, r.sys) && r.mode.Automatic?
  {
    hide MeetsVanished, PollFrom;
    if o.v1.Err? {
      PollRelabels(cfg, front.sys, front.sys, SortedPaths(front.sys.src.watches.Keys));
    }
  }

  // ----- A run that misses a directory -----

  function WithDirectory(fs: Fs, dir: Path, node: Node): Fs {
    fs.(nodes := fs.nodes[dir := node], order := fs.order + [dir])
  }

  /** Nothing that existed before a directory appears vanishes with it. */
  lemma DirectoryAppears(cfg: Config, fs: Fs, dir: Path, node: Node)
    requires fs.Listed() && dir !in fs.nodes
    ensures WithDirectory(fs, dir, node).Listed()
    ensures forall e | Watchable(cfg, fs, e) :: WithDirectory(fs, dir, node).EventsAt(e).Some?
    ensures !Watchable(cfg, fs, EventsPath(dir))
  {
  }

  /** In a run that begins in step, a directory whose arrival is lost in an overflow exists
      afterwards, would be found by a scan, and is not watched, whatever v1 and the fallback
      answer. */
  lemma OverflowMissesDirectory(
      cfg: Config, v1Hints: seq<Path>, fs: Fs, available: bool, dir: Path, node: Node, os: seq<Oracle>)
    requires fs.Listed() && dir !in fs.nodes && Base("") !in cfg.roots
    requires Watchable(cfg, WithDirectory(fs, dir, node), EventsPath(dir))
    requires Unsaturated(Begin(cfg, fs, Automatic(available)).front.sys)
    ensures var later := WithDirectory(fs, dir, node);
            var engine := Run(cfg, v1Hints, Begin(cfg, fs, Automatic(available)),
                              [World(later), FsEvent(Base(""), IN_Q_OVERFLOW, os)]);
            && engine.front.sys.ker.fs == later && Watchable(cfg, later, EventsPath(dir))
            && EventsPath(dir) !in engine.front.sys.src.watches
  {
    hide Begin, Step, Watchable, Run;
    var later, begun := WithDirectory(fs, dir, node), Begin(cfg, fs, Automatic(available));
    BegunTable(cfg, fs, Automatic(available));
    DirectoryAppears(cfg, fs, dir, node);
    WorldStep(cfg, v1Hints, begun, later);
    OverflowStep(cfg, v1Hints, WithWorld(begun, later), os);
    TwoSteps(cfg, v1Hints, begun, World(later), FsEvent(Base(""), IN_Q_OVERFLOW, os));
  }

  lemma OverflowStep(cfg: Config, v1Hints: seq<Path>, engine: Engine, os: seq<Oracle>)
    requires engine.status == Running && engine.front.mode.Automatic? && Base("") !in cfg.roots
    requires TableOk(cfg, engine.front.sys)
    requires forall e | e in engine.front.sys.src.watches :: engine.front.sys.ker.fs.EventsAt(e).Some?
    ensures var r := Step(cfg, v1Hints, engine, FsEvent(Base(""), IN_Q_OVERFLOW, os));
            && r.front.sys.src.watches.Keys == engine.front.sys.src.watches.Keys
            && r.front.sys.ker.fs == engine.front.sys.ker.fs
  {
    hide Sync, TableOk;
    var after := Attempts(cfg, v1Hints, engine.front, Base(""), Overflow, os);
    OverflowKinds();
    OverflowsRelabel(cfg, v1Hints, engine.front, os);
    RelabelledIsOk(cfg, engine.front.sys, after.0.sys);
    Runs.SyncKeepsTable(cfg, after.0.sys, engine.w, Hidden(after.0.mode));
  }

  lemma OverflowKinds()
    ensures KindOf(IN_Q_OVERFLOW) == Overflow
  {
  }

  lemma {:induction false} OverflowsRelabel(cfg: Config, v1Hints: seq<Path>, front: Front, os: seq<Oracle>)
    requires front.mode.Automatic? && Base("") !in cfg.roots
    requires forall e | e in front.sys.src.watches :: front.sys.ker.fs.EventsAt(e).Some?
    ensures Relabelled(front.sys, Attempts(cfg, v1Hints, front, Base(""), Overflow, os).0.sys)
    decreases |os|
  {
    hide PollFrom;
    if os == [] {
    } else {
      var paths := SortedPaths(front.sys.src.watches.Keys);
      assert !MeetsVanished(cfg, front.sys, paths);
      UnrepairedRelabels(cfg, v1Hints, front, os[0]);
      var next := FsEventFront(cfg, v1Hints, front, Base(""), Overflow, os[0]).0;
      OverflowsRelabel(cfg, v1Hints, next, os[1..]);
      RelabelledTransitive(front.sys, next.sys, Attempts(cfg, v1Hints, next, Base(""), Overflow, os[1..]).0.sys);
    }
  }
}
