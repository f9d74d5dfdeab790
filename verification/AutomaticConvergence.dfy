/** Convergence behind the automatic source while v1 never answers and no notification is
    lost: every handler call is then one the v2 source could have been given directly. */
module AutomaticConvergence {
  import opened Basics
  import opened Paths
  import opened WatchTable
  import WatchTableFacts
  import opened WatchHandlers
  import opened Reconciliation
  import N = Convergence

  datatype AutoNet = AutoNet(mode: Mode, net: N.Net)

  function Answered(net: N.Net, front: Front): AutoNet {
    AutoNet(front.mode, net.(sys := front.sys))
  }

  /** One action, with the engine's part of it going through the automatic source. `os` holds
      what v1 and the fallback answer to each attempt. */
  function AutoStep(cfg: Config, v1Hints: seq<Path>, an: AutoNet, a: N.Action, os: seq<Oracle>): AutoNet
    requires os != []
  {
    var net, front := an.net, Front(an.mode, an.net.sys);
    match a
    case Deliver(mask) =>
      if net.queue == [] || !N.Announces(net.queue[0], mask) then an
      else
        Answered(net.(queue := net.queue[1..]),
                 Attempts(cfg, v1Hints, front, N.PathOf(net.queue[0]), KindOf(mask), os).0)
    case Poll => Answered(net, PollFront(cfg, front, os[0]).0)
    case Priority(e, reading) => Answered(net, PriorityFront(cfg, front, e, reading, os[0]).0)
    case StaleFd(e) => Answered(net, StaleFront(cfg, front, e, os[0]).0)
    case OtherEvent(path, mask) =>
      if mask & 0x0000_CC00 == 0 && mask & 0x0000_0240 != 0 then an
      else Answered(net, Attempts(cfg, v1Hints, front, path, KindOf(mask), os).0)
    case _ => an.(net := N.Step(cfg, net, a))
  }

  datatype Asked = Asked(action: N.Action, os: seq<Oracle>)

  predicate V1Down(os: seq<Oracle>) {
    |os| == EVENT_RETRY_ATTEMPTS && forall o | o in os :: o.v1.Err?
  }

  function AutoRun(cfg: Config, v1Hints: seq<Path>, an: AutoNet, asked: seq<Asked>): AutoNet
    requires forall x | x in asked :: V1Down(x.os)
    decreases |asked|
  {
    if asked == [] then an
    else
      assert V1Down(asked[0].os);
      AutoRun(cfg, v1Hints, AutoStep(cfg, v1Hints, an, asked[0].action, asked[0].os), asked[1..])
  }

  // ----- Attempts at one event -----

  /** On a file system that stands still the v2 source never fails on a notification. */
  lemma FsEventAnswers(cfg: Config, s: Sys, path: Path, kind: EventKind)
    ensures HandleFsEvent(cfg, s, path, kind).1.Ok?
  {
  }

  predicate Polled(cfg: Config, v1Hints: seq<Path>, path: Path) {
    path in v1Hints || !(path in cfg.roots || UnderRoot(cfg, path))
  }

  /** Events below a root reach the v2 source as if it were alone. */
  lemma {:induction false} AttemptsAreRetries(
      cfg: Config, v1Hints: seq<Path>, s: Sys, path: Path, kind: EventKind, os: seq<Oracle>)
    requires !Polled(cfg, v1Hints, path) && forall o | o in os :: o.v1.Err?
    ensures Attempts(cfg, v1Hints, Front(Automatic(false), s), path, kind, os).0 ==
            Front(Automatic(false), Retry(cfg, s, path, kind, |os|).0)
    decreases |os|
  {
    hide HandleFsEvent;
    if os == [] {
    } else {
      assert os[0].v1.Err?;
      FsEventAnswers(cfg, s, path, kind);
      AttemptsAreRetries(cfg, v1Hints, HandleFsEvent(cfg, s, path, kind).0, path, kind, os[1..]);
    }
  }

  function Polls(n: nat): seq<N.Action> {
    if n == 0 then [] else [N.Poll] + Polls(n - 1)
  }

  lemma {:induction false} PollsDropNothing(n: nat)
    ensures forall a | a in Polls(n) :: !N.Drops(a)
  {
    if n == 0 {
    } else {
      PollsDropNothing(n - 1);
    }
  }

  /** Other events are answered by polling, once for each attempt made. */
  lemma {:induction false} AttemptsArePolls(
      cfg: Config, v1Hints: seq<Path>, net: N.Net, path: Path, kind: EventKind, os: seq<Oracle>)
    returns (n: nat)
    requires Polled(cfg, v1Hints, path) && forall o | o in os :: o.v1.Err?
    ensures Attempts(cfg, v1Hints, Front(Automatic(false), net.sys), path, kind, os).0.mode == Automatic(false)
    ensures N.Run(cfg, net, Polls(n)) ==
            net.(sys := Attempts(cfg, v1Hints, Front(Automatic(false), net.sys), path, kind, os).0.sys)
    decreases |os|
  {
    hide PollCurrent;
    if os == [] {
      n := 0;
    } else {
      assert os[0].v1.Err?;
      var next := net.(sys := PollCurrent(cfg, net.sys).0);
      assert N.Step(cfg, net, N.Poll) == next;
      var r := FsEventFront(cfg, v1Hints, Front(Automatic(false), net.sys), path, kind, os[0]);
      var later := 0;
      if r.1 == Ok(None) {
        later := AttemptsArePolls(cfg, v1Hints, next, path, kind, os[1..]);
      }
      n := later + 1;
      assert Polls(n)[1..] == Polls(later);
    }
  }

  // ----- Runs -----

  lemma {:induction false} RunConcat(cfg: Config, net: N.Net, a: seq<N.Action>, b: seq<N.Action>)
    ensures N.Run(cfg, net, a + b) == N.Run(cfg, N.Run(cfg, net, a), b)
    decreases |a|
  {
    hide N.Step;
    if a == [] {
      assert a + b == b;
    } else {
      assert (a + b)[1..] == a[1..] + b;
      RunConcat(cfg, N.Step(cfg, net, a[0]), a[1..], b);
    }
  }

  /** `actions` is what the v2 source alone would have done in place of the automatic one. */
  ghost predicate Stands(cfg: Config, net: N.Net, an: AutoNet, actions: seq<N.Action>) {
    && an == AutoNet(Automatic(false), N.Run(cfg, net, actions))
    && forall a | a in actions :: !N.Drops(a)
  }

  lemma OneStep(cfg: Config, net: N.Net, a: N.Action)
    ensures N.Run(cfg, net, [a]) == N.Step(cfg, net, a)
  {
    hide N.Step;
    assert [a][1..] == [];
  }

  lemma DeliverStands(cfg: Config, v1Hints: seq<Path>, net: N.Net, mask: bv32, os: seq<Oracle>)
    requires V1Down(os) && forall h | h in v1Hints :: !UnderRoot(cfg, h)
    requires N.NotesUnderRoots(cfg, net.queue) && Overflowless(net)
    ensures AutoStep(cfg, v1Hints, AutoNet(Automatic(false), net), N.Deliver(mask), os) ==
            AutoNet(Automatic(false), N.Step(cfg, net, N.Deliver(mask)))
  {
    hide Attempts, Retry, KindOf, N.Announces;
    if net.queue != [] {
      assert net.queue[0] in net.queue;
      AttemptsAreRetries(cfg, v1Hints, net.sys, N.PathOf(net.queue[0]), KindOf(mask), os);
    }
  }

  predicate Overflowless(net: N.Net) {
    N.Overflowed !in net.queue
  }

  lemma PollStands(cfg: Config, v1Hints: seq<Path>, net: N.Net, a: N.Action, os: seq<Oracle>)
    requires V1Down(os) && (a.Poll? || a.Priority? || a.StaleFd?)
    ensures AutoStep(cfg, v1Hints, AutoNet(Automatic(false), net), a, os) ==
            AutoNet(Automatic(false), N.Step(cfg, net, a))
  {
    hide PollCurrent, HandleEventsPath, HandleStaleEventsPath;
    assert os[0] in os;
  }

  lemma AutoStepStands(cfg: Config, v1Hints: seq<Path>, net: N.Net, a: N.Action, os: seq<Oracle>)
    returns (actions: seq<N.Action>)
    requires V1Down(os) && !N.Drops(a) && forall h | h in v1Hints :: !UnderRoot(cfg, h)
    requires N.NotesUnderRoots(cfg, net.queue) && Overflowless(net)
    ensures Stands(cfg, net, AutoStep(cfg, v1Hints, AutoNet(Automatic(false), net), a, os), actions)
  {
    hide Attempts, Retry, N.MakeStep, N.DeleteStep, N.RewriteStep, PollCurrent, HandleEventsPath, HandleStaleEventsPath;
    actions := [a];
    OneStep(cfg, net, a);
    match a
    case Deliver(mask) => DeliverStands(cfg, v1Hints, net, mask, os);
    case Poll => PollStands(cfg, v1Hints, net, a, os);
    case Priority(_, _) => PollStands(cfg, v1Hints, net, a, os);
    case StaleFd(_) => PollStands(cfg, v1Hints, net, a, os);
    case OtherEvent(path, mask) =>
      if !(mask & 0x0000_CC00 == 0 && mask & 0x0000_0240 != 0) {
        if Polled(cfg, v1Hints, path) {
          var n := AttemptsArePolls(cfg, v1Hints, net, path, KindOf(mask), os);
          actions := Polls(n);
          PollsDropNothing(n);
        } else {
          AttemptsAreRetries(cfg, v1Hints, net.sys, path, KindOf(mask), os);
        }
      }
    case _ =>
  }

  lemma {:induction false} AutoRunStands(cfg: Config, v1Hints: seq<Path>, net: N.Net, asked: seq<Asked>)
    returns (actions: seq<N.Action>)
    requires forall x | x in asked :: V1Down(x.os) && !N.Drops(x.action)
    requires forall h | h in v1Hints :: !UnderRoot(cfg, h)
    requires N.Good(cfg, net) && N.Lossless(net)
    ensures Stands(cfg, net, AutoRun(cfg, v1Hints, AutoNet(Automatic(false), net), asked), actions)
    decreases |asked|
  {
    hide AutoStep, N.NetOk, N.Drops, V1Down;
    if asked == [] {
      actions := [];
    } else {
      var x := asked[0];
      assert V1Down(x.os) && !N.Drops(x.action);
      var first := AutoStepStands(cfg, v1Hints, net, x.action, x.os);
      var next := N.Run(cfg, net, first);
      N.RunKeepsNet(cfg, net, first);
      N.LosslessRuns(cfg, net, first);
      var rest := AutoRunStands(cfg, v1Hints, next, asked[1..]);
      actions := first + rest;
      RunConcat(cfg, net, first, rest);
    }
  }

  /** While v1 never answers and nothing is lost, v1 stays unavailable and a directory with
      nothing pending is watched exactly when a scan would find it, through a descriptor of its
      present incarnation, whatever the fallback answers. */
  lemma AutoRunsConverge(cfg: Config, v1Hints: seq<Path>, fs: Fs, clock: nat, asked: seq<Asked>, dir: Path)
    requires fs.Listed() && forall p | p in fs.nodes :: fs.nodes[p].incarnation < clock
    requires forall x | x in asked :: V1Down(x.os) && !N.Drops(x.action)
    requires forall h | h in v1Hints :: !UnderRoot(cfg, h)
    requires var net := AutoRun(cfg, v1Hints, AutoNet(Automatic(false), N.Start(cfg, fs, clock)), asked).net;
             && (forall n | n in net.queue :: n.Overflowed? || n.dir != dir)
             && dir.Join? && dir.parent in net.sys.ker.fs.listable
    ensures var an := AutoRun(cfg, v1Hints, AutoNet(Automatic(false), N.Start(cfg, fs, clock)), asked);
            var e, watches, now := EventsPath(dir), an.net.sys.src.watches, an.net.sys.ker.fs;
            && an.mode == Automatic(false)
            && (e in watches <==> WatchTableFacts.Watchable(cfg, now, e))
            && (e in watches ==> N.Current(now, e, watches[e]))
  {
    hide N.Run, AutoRun, WatchTableFacts.Watchable;
    N.StartOk(cfg, fs, clock);
    var actions := AutoRunStands(cfg, v1Hints, N.Start(cfg, fs, clock), asked);
    N.LosslessRunsConverge(cfg, fs, clock, actions, dir);
  }
}
