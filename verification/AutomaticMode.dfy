/** Which source the automatic one listens to: v1 is available exactly when it answered the
    last time it was asked. */
module AutomaticMode {
  import opened Basics
  import opened Paths
  import opened WatchTable
  import opened Reconciliation

  // ----- One call -----

  /** v1 is asked about its own paths and about paths outside the v2 roots; below the v2 roots
      it is asked only while it is unavailable. */
  predicate AsksV1(cfg: Config, v1Hints: seq<Path>, mode: Mode, path: Path) {
    mode == Automatic(false) || (mode == Automatic(true) && !(LeftToV2(cfg, path) && path !in v1Hints))
  }

  predicate LeftToV2(cfg: Config, path: Path) {
    path in cfg.roots || (path.Join? && path.parent in cfg.roots)
  }

  /** The answer and the state v2 gives, with the fallback's answer in place of an error. */
  ghost predicate FromV2(front: Front, answer: Answer, v2: (Sys, Answer), o: Oracle) {
    front.sys == v2.0 && answer == if v2.1.Ok? then v2.1 else o.activity
  }

  lemma PollFollowsV1(cfg: Config, front: Front, o: Oracle)
    requires front.mode.Automatic?
    ensures var (next, answer) := PollFront(cfg, front, o);
            && next.mode == Automatic(o.v1.Ok?)
            && (o.v1.Ok? ==> answer == o.v1 && next.sys == front.sys)
            && (o.v1.Err? ==> FromV2(next, answer, PollCurrent(cfg, front.sys), o))
  {
    hide PollCurrent;
  }

  lemma FsEventFollowsV1(cfg: Config, v1Hints: seq<Path>, front: Front, path: Path, kind: EventKind, o: Oracle)
    requires front.mode.Automatic?
    ensures var (next, answer) := FsEventFront(cfg, v1Hints, front, path, kind, o);
            if AsksV1(cfg, v1Hints, front.mode, path) then
              && next.mode == Automatic(o.v1.Ok?)
              && (o.v1.Ok? ==> answer == o.v1 && next.sys == front.sys)
              && (o.v1.Err? ==>
                    FromV2(next, answer,
                           if LeftToV2(cfg, path) && path !in v1Hints then HandleFsEvent(cfg, front.sys, path, kind)
                           else PollCurrent(cfg, front.sys), o))
            else next == front && next.mode == Automatic(true) && answer == Ok(None)
  {
    hide PollCurrent, HandleFsEvent;
  }

  lemma PriorityFollowsV1(cfg: Config, front: Front, e: Path, reading: Result<string, EngineError>, o: Oracle)
    requires front.mode.Automatic?
    ensures var (next, answer) := PriorityFront(cfg, front, e, reading, o);
            if front.mode == Automatic(true) then next == front && answer == Ok(None)
            else
              && next.mode == Automatic(o.v1.Ok?)
              && (o.v1.Ok? ==> answer == o.v1 && next.sys == front.sys)
              && (o.v1.Err? ==> FromV2(next, answer, HandleEventsPath(cfg, front.sys, e, reading), o))
  {
    hide HandleEventsPath;
  }

  lemma StaleFollowsV1(cfg: Config, front: Front, e: Path, o: Oracle)
    requires front.mode.Automatic?
    ensures var (next, answer) := StaleFront(cfg, front, e, o);
            if front.mode == Automatic(true) then next == front && answer == Ok(None)
            else
              && next.mode == Automatic(o.v1.Ok?)
              && (o.v1.Ok? ==> answer == o.v1 && next.sys == front.sys)
              && (o.v1.Err? ==> FromV2(next, answer, HandleStaleEventsPath(cfg, front.sys, e), o))
  {
    hide HandleStaleEventsPath;
  }

  // ----- What v1 was asked in a run -----

  /** The answers v1 gave to the attempts at one notification that were made and asked it. */
  function AttemptAnswers(cfg: Config, v1Hints: seq<Path>, front: Front, path: Path, kind: EventKind, os: seq<Oracle>)
    : seq<Answer>
    decreases |os|
  {
    if os == [] then []
    else
      var (next, answer) := FsEventFront(cfg, v1Hints, front, path, kind, os[0]);
      (if AsksV1(cfg, v1Hints, front.mode, path) then [os[0].v1] else [])
      + (if answer == Ok(None) then AttemptAnswers(cfg, v1Hints, next, path, kind, os[1..]) else [])
  }

  function V1Answers(cfg: Config, v1Hints: seq<Path>, engine: Engine, a: Action): seq<Answer> {
    if engine.status != Running || engine.front.mode == V2Only then []
    else
      match a
      case World(_) => []
      case FsEvent(path, mask, attempts) =>
        AttemptAnswers(cfg, v1Hints, engine.front, path, KindOf(mask), attempts)
      case Ready(token, error, priority, _, o) =>
        if token in engine.w.tokens && (error || priority) && engine.front.mode == Automatic(false) then [o.v1] else []
      case PollNow(o) => [o.v1]
  }

  /** Everything v1 answered in a run, in order. */
  function V1History(cfg: Config, v1Hints: seq<Path>, engine: Engine, actions: seq<Action>): seq<Answer>
    decreases |actions|
  {
    if actions == [] then []
    else
      V1Answers(cfg, v1Hints, engine, actions[0])
      + V1History(cfg, v1Hints, Step(cfg, v1Hints, engine, actions[0]), actions[1..])
  }

  /** Whether the last answer was one; `before` when nothing was asked. */
  function LastOk(answers: seq<Answer>, before: bool): bool {
    if answers == [] then before else answers[|answers| - 1].Ok?
  }

  lemma LastOkConcat(a: seq<Answer>, b: seq<Answer>, before: bool)
    ensures LastOk(a + b, before) == LastOk(b, LastOk(a, before))
  {
  }

  lemma {:induction false} AttemptsFollowV1(
      cfg: Config, v1Hints: seq<Path>, front: Front, path: Path, kind: EventKind, os: seq<Oracle>, available: bool)
    requires front.mode == Automatic(available)
    ensures Attempts(cfg, v1Hints, front, path, kind, os).0.mode ==
            Automatic(LastOk(AttemptAnswers(cfg, v1Hints, front, path, kind, os), available))
    decreases |os|
  {
    hide FsEventFront, LastOk;
    if os == [] {
      assert LastOk([], available) == available by { LastOkOfNone(available); }
    } else {
      FsEventFollowsV1(cfg, v1Hints, front, path, kind, os[0]);
      var (next, answer) := FsEventFront(cfg, v1Hints, front, path, kind, os[0]);
      var asked := if AsksV1(cfg, v1Hints, front.mode, path) then [os[0].v1] else [];
      LastOkOfOne(os[0].v1, available);
      LastOkOfNone(available);
      LastOkOfNone(LastOk(asked, available));
      var later := if answer == Ok(None) then AttemptAnswers(cfg, v1Hints, next, path, kind, os[1..]) else [];
      LastOkConcat(asked, later, available);
      if answer == Ok(None) {
        AttemptsFollowV1(cfg, v1Hints, next, path, kind, os[1..], LastOk(asked, available));
      }
    }
  }

  lemma LastOkOfNone(before: bool)
    ensures LastOk([], before) == before
  {
  }

  lemma LastOkOfOne(answer: Answer, before: bool)
    ensures LastOk([answer], before) == answer.Ok?
  {
  }

  lemma SyncKeepsMode(engine: Engine, r: (Front, Answer))
    ensures AfterHandler(engine, r).front.mode == r.0.mode
  {
  }

  lemma StepFollowsV1(cfg: Config, v1Hints: seq<Path>, engine: Engine, a: Action, available: bool)
    requires engine.front.mode == Automatic(available)
    ensures Step(cfg, v1Hints, engine, a).front.mode ==
            Automatic(LastOk(V1Answers(cfg, v1Hints, engine, a), available))
  {
    hide Attempts, AttemptAnswers, PriorityFront, StaleFront, PollFront, AfterHandler;
    var front := engine.front;
    if engine.status == Running {
      match a
      case World(_) =>
      case FsEvent(path, mask, attempts) =>
        AttemptsFollowV1(cfg, v1Hints, front, path, KindOf(mask), attempts, available);
        SyncKeepsMode(engine, Attempts(cfg, v1Hints, front, path, KindOf(mask), attempts));
      case Ready(token, error, priority, reading, o) =>
        if token in engine.w.tokens {
          var e := engine.w.tokens[token];
          StaleFollowsV1(cfg, front, e, o);
          SyncKeepsMode(engine, StaleFront(cfg, front, e, o));
          PriorityFollowsV1(cfg, front, e, reading, o);
          SyncKeepsMode(engine, PriorityFront(cfg, front, e, reading, o));
        }
      case PollNow(o) =>
        PollFollowsV1(cfg, front, o);
        SyncKeepsMode(engine, PollFront(cfg, front, o));
    }
  }

  lemma {:induction false} RunFollows(
      cfg: Config, v1Hints: seq<Path>, engine: Engine, actions: seq<Action>, available: bool)
    requires engine.front.mode == Automatic(available)
    ensures Run(cfg, v1Hints, engine, actions).front.mode ==
            Automatic(LastOk(V1History(cfg, v1Hints, engine, actions), available))
    decreases |actions|
  {
    hide Step, V1Answers, LastOk;
    if actions == [] {
      LastOkOfNone(available);
    } else {
      var first := V1Answers(cfg, v1Hints, engine, actions[0]);
      var next := Step(cfg, v1Hints, engine, actions[0]);
      StepFollowsV1(cfg, v1Hints, engine, actions[0], available);
      RunFollows(cfg, v1Hints, next, actions[1..], LastOk(first, available));
      LastOkConcat(first, V1History(cfg, v1Hints, next, actions[1..]), available);
    }
  }

  /** In every run v1 is available if and only if it answered the last time it was asked, or,
      before it was ever asked, if it was available at the start. */
  lemma RunFollowsV1(cfg: Config, v1Hints: seq<Path>, fs: Fs, available: bool, actions: seq<Action>)
    ensures var begun := Begin(cfg, fs, Automatic(available));
            Run(cfg, v1Hints, begun, actions).front.mode ==
            Automatic(LastOk(V1History(cfg, v1Hints, begun, actions), available))
  {
    var front := Front(Automatic(available), NewSource(cfg, Kernel(fs, 0, map[], 0)));
    SyncKeepsMode(Engine(front, EmptyWatcher, Running), (front, Ok(None)));
    RunFollows(cfg, v1Hints, Begin(cfg, fs, Automatic(available)), actions, available);
  }
}
