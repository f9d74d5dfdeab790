/** Short runs of the engine: what it begins with, one change of the world, and a run that
    separates a rescan from a new source. */
module EngineRuns {
  import opened Basics
  import opened Paths
  import opened WatchTable
  import opened WatchTableFacts
  import opened WatchHandlers
  import opened Reconciliation
  import Runs = ReconciliationRuns

  /** What the engine starts with. */
  lemma BegunTable(cfg: Config, fs: Fs, mode: Mode)
    requires fs.Listed() && Unsaturated(Begin(cfg, fs, mode).front.sys)
    ensures var engine := Begin(cfg, fs, mode);
            && engine.status == Running && engine.front.mode.Automatic? == mode.Automatic?
            && TableOk(cfg, engine.front.sys)
            && engine.front.sys.ker.fs == fs
            && forall e :: e in engine.front.sys.src.watches <==> Watchable(cfg, fs, e)
  {
    FreshFindsWatchable(cfg, fs);
    Runs.BeginOk(cfg, fs, mode);
    Runs.SyncKeepsTable(cfg, Fresh(cfg, fs), EmptyWatcher, Hidden(mode));
  }

  function WithWorld(engine: Engine, fs: Fs): Engine {
    engine.(front := engine.front.(sys := engine.front.sys.(ker := engine.front.sys.ker.(fs := fs))))
  }

  lemma WorldStep(cfg: Config, v1Hints: seq<Path>, engine: Engine, fs: Fs)
    requires engine.status == Running && fs.Listed() && TableOk(cfg, engine.front.sys)
    ensures Step(cfg, v1Hints, engine, World(fs)) == WithWorld(engine, fs)
    ensures TableOk(cfg, WithWorld(engine, fs).front.sys)
  {
    hide TableOk;
    Runs.WorldKeepsSynced(cfg, engine.front.sys, WithWorld(engine, fs).front.sys, engine.w, false);
  }

  lemma TwoSteps(cfg: Config, v1Hints: seq<Path>, engine: Engine, a: Action, b: Action)
    ensures Run(cfg, v1Hints, engine, [a, b]) == Step(cfg, v1Hints, Step(cfg, v1Hints, engine, a), b)
  {
    hide Step;
    assert [a, b][1..] == [b] && [b][1..] == [];
    assert Run(cfg, v1Hints, engine, [a, b]) == Run(cfg, v1Hints, Step(cfg, v1Hints, engine, a), [b]);
  }

  lemma RootHidden(cfg: Config, fs: Fs, e: Path)
    requires fs.Listed() && Watchable(cfg, fs, e)
    ensures var later := fs.(listable := fs.listable - {e.parent.parent});
            later.Listed() && later.EventsAt(e).Some? && !Watchable(cfg, later, e)
  {
  }

  lemma HeldUnfindable(cfg: Config, s: Sys, e: Path)
    requires TableOk(cfg, s) && s.ker.fs.Listed()
    requires e in s.src.watches && s.ker.fs.EventsAt(e).Some? && !Watchable(cfg, s.ker.fs, e)
    ensures UidTable(RescanRoots(cfg, s)) != UidTable(Fresh(cfg, s.ker.fs))
  {
    hide TableOk, RescanRoots, Fresh, Watchable, UidTable;
    RescanMatchesFresh(cfg, s);
  }

  lemma OneStep(cfg: Config, v1Hints: seq<Path>, engine: Engine, a: Action)
    ensures Run(cfg, v1Hints, engine, [a]) == Step(cfg, v1Hints, engine, a)
  {
    hide Step;
    assert [a][1..] == [];
  }

  /** A root that can no longer be listed: its watches survive a rescan although a new source
      would not find them. */
  lemma UnlistableRootKeepsWatch(cfg: Config, v1Hints: seq<Path>, fs: Fs, mode: Mode, e: Path)
    requires fs.Listed() && Watchable(cfg, fs, e)
    requires Unsaturated(Begin(cfg, fs, mode).front.sys)
    ensures var later := fs.(listable := fs.listable - {e.parent.parent});
            var s := Run(cfg, v1Hints, Begin(cfg, fs, mode), [World(later)]).front.sys;
            && s.ker.fs == later && TableOk(cfg, s)
            && e in s.src.watches && later.EventsAt(e).Some? && !Watchable(cfg, later, e)
            && UidTable(RescanRoots(cfg, s)) != UidTable(Fresh(cfg, later))
  {
    var later, begun := fs.(listable := fs.listable - {e.parent.parent}), Begin(cfg, fs, mode);
    RootHidden(cfg, fs, e);
    hide Begin, Step, Run, Watchable, TableOk, RescanRoots, Fresh, UidTable;
    BegunTable(cfg, fs, mode);
    WorldStep(cfg, v1Hints, begun, later);
    HeldUnfindable(cfg, WithWorld(begun, later).front.sys, e);
    OneStep(cfg, v1Hints, begun, World(later));
  }
}
