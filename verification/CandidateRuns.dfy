/** Every candidate any run of the engine produces is justified. */
module CandidateRuns {
  import opened Basics
  import opened Paths
  import opened WatchTable
  import opened WatchTableFacts
  import opened WatchHandlers
  import opened Reconciliation
  import Runs = ReconciliationRuns

  /** What the source answers to an action, before the registrations are synced. */
  function Asked(cfg: Config, v1Hints: seq<Path>, engine: Engine, a: Action): (Front, Answer) {
    if engine.status != Running then (engine.front, Ok(None))
    else
      match a
      case World(_) => (engine.front, Ok(None))
      case FsEvent(path, mask, attempts) => Attempts(cfg, v1Hints, engine.front, path, KindOf(mask), attempts)
      case Ready(token, error, priority, reading, o) =>
        if token !in engine.w.tokens then (engine.front, Ok(None))
        else if error then StaleFront(cfg, engine.front, engine.w.tokens[token], o)
        else if priority then PriorityFront(cfg, engine.front, engine.w.tokens[token], reading, o)
        else (engine.front, Ok(None))
      case PollNow(o) => PollFront(cfg, engine.front, o)
  }

  function OraclesOf(a: Action): seq<Oracle> {
    match a
    case World(_) => []
    case FsEvent(_, _, attempts) => attempts
    case Ready(_, _, _, _, o) => [o]
    case PollNow(o) => [o]
  }

  /** A candidate comes from a held, valid, populated watch with an exact package, or it is
      what v1 or the activity fallback answered to the automatic source. */
  ghost predicate Vouched(cfg: Config, os: seq<Oracle>, r: (Front, Answer)) {
    r.1.Ok? && r.1.value.Some? ==>
      || Justified(cfg, r.0.sys, r.1.value.value)
      || (r.0.mode.Automatic? && exists o :: o in os && (r.1 == o.v1 || r.1 == o.activity))
  }

  lemma PollVouched(cfg: Config, front: Front, o: Oracle)
    requires TableOk(cfg, front.sys) && front.sys.ker.fs.Listed()
    ensures Vouched(cfg, [o], PollFront(cfg, front, o))
  {
    hide Justified, TableOk, PollCurrent;
    PollIsFirstVerdict(cfg, front.sys);
    assert o in [o];
  }

  lemma PriorityVouched(cfg: Config, front: Front, e: Path, reading: Result<string, EngineError>, o: Oracle)
    requires TableOk(cfg, front.sys)
    ensures Vouched(cfg, [o], PriorityFront(cfg, front, e, reading, o))
    ensures Vouched(cfg, [o], StaleFront(cfg, front, e, o))
  {
    hide Justified, TableOk, HandleEventsPath, HandleStaleEventsPath;
    PriorityCandidateJustified(cfg, front.sys, e, reading);
    assert o in [o];
  }

  lemma FsEventVouched(cfg: Config, v1Hints: seq<Path>, front: Front, path: Path, kind: EventKind, o: Oracle)
    requires TableOk(cfg, front.sys) && front.sys.ker.fs.Listed()
    ensures Vouched(cfg, [o], FsEventFront(cfg, v1Hints, front, path, kind, o))
  {
    hide Justified, TableOk, HandleFsEvent, PollFront;
    FsCandidateJustified(cfg, front.sys, path, kind);
    PollVouched(cfg, front, o);
    assert o in [o];
  }

  lemma MoreOracles(cfg: Config, o: Oracle, os: seq<Oracle>, r: (Front, Answer))
    requires o in os && Vouched(cfg, [o], r)
    ensures Vouched(cfg, os, r)
  {
    hide Justified;
  }

  lemma FsEventKeepsTable(cfg: Config, v1Hints: seq<Path>, front: Front, path: Path, kind: EventKind, o: Oracle)
    requires TableOk(cfg, front.sys) && front.sys.ker.fs.Listed()
    ensures var next := FsEventFront(cfg, v1Hints, front, path, kind, o).0;
            TableOk(cfg, next.sys) && next.sys.ker.fs == front.sys.ker.fs
  {
    hide TableOk, FsEventFront;
    var os := [o];
    assert os[1..] == [];
    assert Attempts(cfg, v1Hints, front, path, kind, os).0 == FsEventFront(cfg, v1Hints, front, path, kind, o).0;
    Runs.AttemptsChange(cfg, v1Hints, front, path, kind, os);
  }

  lemma {:induction false} AttemptsVouched(
      cfg: Config, v1Hints: seq<Path>, front: Front, path: Path, kind: EventKind, os: seq<Oracle>)
    requires TableOk(cfg, front.sys) && front.sys.ker.fs.Listed()
    ensures Vouched(cfg, os, Attempts(cfg, v1Hints, front, path, kind, os))
    decreases |os|
  {
    hide Justified, TableOk, FsEventFront;
    if os == [] {
    } else {
      var r := FsEventFront(cfg, v1Hints, front, path, kind, os[0]);
      FsEventVouched(cfg, v1Hints, front, path, kind, os[0]);
      MoreOracles(cfg, os[0], os, r);
      FsEventKeepsTable(cfg, v1Hints, front, path, kind, os[0]);
      AttemptsVouched(cfg, v1Hints, r.0, path, kind, os[1..]);
    }
  }

  lemma AskedVouched(cfg: Config, v1Hints: seq<Path>, engine: Engine, a: Action)
    requires TableOk(cfg, engine.front.sys) && engine.front.sys.ker.fs.Listed()
    ensures Vouched(cfg, OraclesOf(a), Asked(cfg, v1Hints, engine, a))
  {
    hide Justified, TableOk, Attempts, StaleFront, PriorityFront, PollFront;
    match a
    case World(_) =>
    case FsEvent(path, mask, attempts) =>
      AttemptsVouched(cfg, v1Hints, engine.front, path, KindOf(mask), attempts);
    case Ready(token, error, priority, reading, o) =>
      if token in engine.w.tokens {
        PriorityVouched(cfg, engine.front, engine.w.tokens[token], reading, o);
      }
    case PollNow(o) => PollVouched(cfg, engine.front, o);
  }

  /** An action that asks the source leaves what a sync makes of the source's answer. */
  lemma StepSyncsAnswer(cfg: Config, v1Hints: seq<Path>, engine: Engine, a: Action)
    requires engine.status == Running
    requires a.FsEvent? || a.PollNow? || (a.Ready? && a.token in engine.w.tokens && (a.error || a.priority))
    ensures Step(cfg, v1Hints, engine, a) == AfterHandler(engine, Asked(cfg, v1Hints, engine, a))
  {
  }

  // ----- A source never changes its kind -----

  lemma {:induction false} AttemptsKeepKind(
      cfg: Config, v1Hints: seq<Path>, front: Front, path: Path, kind: EventKind, os: seq<Oracle>)
    ensures Attempts(cfg, v1Hints, front, path, kind, os).0.mode.Automatic? == front.mode.Automatic?
    decreases |os|
  {
    hide HandleFsEvent, PollCurrent;
    if os == [] {
    } else {
      AttemptsKeepKind(cfg, v1Hints, FsEventFront(cfg, v1Hints, front, path, kind, os[0]).0, path, kind, os[1..]);
    }
  }

  lemma AskedKeepsKind(cfg: Config, v1Hints: seq<Path>, engine: Engine, a: Action)
    ensures Asked(cfg, v1Hints, engine, a).0.mode.Automatic? == engine.front.mode.Automatic?
  {
    hide Attempts, PollCurrent, HandleEventsPath, HandleStaleEventsPath;
    if a.FsEvent? {
      AttemptsKeepKind(cfg, v1Hints, engine.front, a.path, KindOf(a.mask), a.attempts);
    }
  }

  lemma StepKeepsKind(cfg: Config, v1Hints: seq<Path>, engine: Engine, a: Action)
    ensures Step(cfg, v1Hints, engine, a).front.mode.Automatic? == engine.front.mode.Automatic?
  {
    hide Asked, Attempts, StaleFront, PriorityFront, PollFront, Sync;
    AskedKeepsKind(cfg, v1Hints, engine, a);
    if engine.status == Running
       && (a.FsEvent? || a.PollNow? || (a.Ready? && a.token in engine.w.tokens && (a.error || a.priority))) {
      StepSyncsAnswer(cfg, v1Hints, engine, a);
    }
  }

  lemma {:induction false} RunKeepsKind(cfg: Config, v1Hints: seq<Path>, engine: Engine, actions: seq<Action>)
    ensures Run(cfg, v1Hints, engine, actions).front.mode.Automatic? == engine.front.mode.Automatic?
    decreases |actions|
  {
    hide Step;
    if actions == [] {
    } else {
      StepKeepsKind(cfg, v1Hints, engine, actions[0]);
      RunKeepsKind(cfg, v1Hints, Step(cfg, v1Hints, engine, actions[0]), actions[1..]);
    }
  }

  /** In every run, whatever the source answers to the next action is vouched for, and a v2
      source on its own answers only with justified candidates. */
  lemma RunCandidatesVouched(cfg: Config, v1Hints: seq<Path>, fs: Fs, mode: Mode, actions: seq<Action>, a: Action)
    requires fs.Listed()
    ensures var r := Asked(cfg, v1Hints, Run(cfg, v1Hints, Begin(cfg, fs, mode), actions), a);
            && Vouched(cfg, OraclesOf(a), r)
            && (mode.V2Only? && r.1.Ok? && r.1.value.Some? ==> Justified(cfg, r.0.sys, r.1.value.value))
  {
    hide Asked, TableOk, Run, Justified;
    var engine := Run(cfg, v1Hints, Begin(cfg, fs, mode), actions);
    Runs.BeginOk(cfg, fs, mode);
    Runs.RunOk(cfg, v1Hints, Begin(cfg, fs, mode), actions);
    AskedVouched(cfg, v1Hints, engine, a);
    RunKeepsKind(cfg, v1Hints, Begin(cfg, fs, mode), actions);
    AskedKeepsKind(cfg, v1Hints, engine, a);
  }
}
