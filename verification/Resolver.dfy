/** The pull-style resolver (`services/foreground/resolver.rs`): a package cache kept coherent
    by a marker file, and the report over a v1 payload. */
module Resolver {
  import opened Basics
  import opened Text
  import opened PackageIndex
  import Quotients
  import UidDirs

  // ----- Marker-driven rebuilding -----

  datatype FileStat = FileStat(mtimeSec: int, mtimeNsec: int, size: nat)

  datatype ResolverState = ResolverState(
    cache: Index,
    blockedPackages: set<string>,
    accessibilityUids: set<nat>,
    appFilter: UidDirs.RemainderFilter,
    rebuilds: nat,
    changes: nat,
    marker: Option<FileStat>)

  datatype Outcome = Skipped | Rebuilt | Kept | StatFailed

  predicate ChecksAt(changes: nat, interval: nat) {
    interval != 0 && changes % interval == 0
  }

  /** `foreground_changed`: every `interval` changes the marker file is examined, and a marker
      that differs from the recorded one rebuilds the cache. */
  function Changed(
      s: ResolverState, stat: Result<FileStat, EngineError>, load: Result<Snapshot, EngineError>, interval: nat)
    : (ResolverState, Result<Outcome, EngineError>)
  {
    var counted := s.(changes := s.changes + 1);
    if !ChecksAt(counted.changes, interval) then (counted, Ok(Skipped))
    else
      match stat
      case Err(_) => (counted, Ok(StatFailed))
      case Ok(current) =>
        if counted.marker.Some? && counted.marker.value != current then
          match load
          case Err(e) => (counted, Err(e))
          case Ok(snapshot) =>
            var rebuilt := counted.(rebuilds := counted.rebuilds + 1, marker := Some(current));
            (rebuilt.(cache := IndexFor(snapshot)), Ok(Rebuilt))
        else (counted.(marker := Some(current)), Ok(Kept))
  }

  /** The mutable resolver state; it owns a package cache object. */
  class ForegroundResolverState {
    const cache: UidPackageCache
    const blockedPackages: set<string>
    const accessibilityUids: set<nat>
    const appFilter: UidDirs.RemainderFilter
    var rebuilds: nat
    var changes: nat
    var marker: Option<FileStat>

    function View(): ResolverState
      reads this, cache
    {
      ResolverState(cache.View(), blockedPackages, accessibilityUids, appFilter, rebuilds, changes, marker)
    }

    constructor (cache: UidPackageCache, blockedPackages: set<string>, accessibilityUids: set<nat>,
                 appFilter: UidDirs.RemainderFilter, marker: Option<FileStat>)
      ensures this.cache == cache
      ensures View() == ResolverState(cache.View(), blockedPackages, accessibilityUids, appFilter, 1, 0, marker)
    {
      this.cache, this.blockedPackages, this.accessibilityUids := cache, blockedPackages, accessibilityUids;
      this.appFilter, this.marker, rebuilds, changes := appFilter, marker, 1, 0;
    }

    method ForegroundChanged(stat: Result<FileStat, EngineError>, load: Result<Snapshot, EngineError>, interval: nat)
      returns (r: Result<Outcome, EngineError>)
      modifies this, cache
      ensures (View(), r) == Changed(old(View()), stat, load, interval)
    {
      changes := changes + 1;
      if interval == 0 || changes % interval != 0 {
        return Ok(Skipped);
      }
      match stat
      case Err(_) => return Ok(StatFailed);
      case Ok(current) =>
        if marker.Some? && marker.value != current {
          if load.Err? {
            return Err(load.error);
          }
          cache.UpdateFromSnapshot(load.value);
          rebuilds := rebuilds + 1;
          marker := Some(current);
          return Ok(Rebuilt);
        }
        marker := Some(current);
        return Ok(Kept);
    }
  }

  // ----- Runs -----

  /** One foreground change: what a stat and a load would return at that moment. */
  datatype Change = Change(stat: Result<FileStat, EngineError>, load: Result<Snapshot, EngineError>)

  /** State and number of stats after a run. */
  datatype Progress = Progress(state: ResolverState, stats: nat)

  function Advance(p: Progress, c: Change, interval: nat): Progress {
    Progress(Changed(p.state, c.stat, c.load, interval).0,
             if ChecksAt(p.state.changes + 1, interval) then p.stats + 1 else p.stats)
  }

  function AdvanceAll(p: Progress, cs: seq<Change>, interval: nat): Progress {
    if cs == [] then p else Advance(AdvanceAll(p, cs[..|cs| - 1], interval), cs[|cs| - 1], interval)
  }

  /** Loads that happen return the snapshot the marker stands for. */
  ghost predicate Faithful(snapshotOf: FileStat -> Snapshot, cs: seq<Change>) {
    forall c | c in cs && c.stat.Ok? && c.load.Ok? :: c.load.value == snapshotOf(c.stat.value)
  }

  ghost predicate Coherent(snapshotOf: FileStat -> Snapshot, s: ResolverState) {
    s.marker.Some? && s.cache == IndexFor(snapshotOf(s.marker.value))
  }

  /** Once coherent, the cache stays the index of the snapshot its recorded marker stands
      for, whatever stats and loads fail on the way. */
  lemma {:induction false} RunsStayCoherent(
      snapshotOf: FileStat -> Snapshot, p: Progress, cs: seq<Change>, interval: nat)
    requires Coherent(snapshotOf, p.state) && Faithful(snapshotOf, cs)
    ensures Coherent(snapshotOf, AdvanceAll(p, cs, interval).state)
  {
    if cs == [] {
    } else {
      var init, last := cs[..|cs| - 1], cs[|cs| - 1];
      assert last in cs && forall c | c in init :: c in cs;
      RunsStayCoherent(snapshotOf, p, init, interval);
    }
  }

  /** A due check with a good stat and load catches up: the marker is the one just seen and the
      cache is the index of its snapshot. It loads only if the marker differs. */
  lemma DueCheckCatchesUp(snapshotOf: FileStat -> Snapshot, s: ResolverState, c: Change, interval: nat)
    requires Coherent(snapshotOf, s) && interval > 0 && (s.changes + 1) % interval == 0
    requires c.stat.Ok? && c.load.Ok? && c.load.value == snapshotOf(c.stat.value)
    ensures var (r, outcome) := Changed(s, c.stat, c.load, interval);
            && r.marker == Some(c.stat.value) && r.cache == IndexFor(snapshotOf(c.stat.value))
            && (s.marker == Some(c.stat.value) ==> outcome == Ok(Kept) && r.rebuilds == s.rebuilds)
            && (s.marker != Some(c.stat.value) ==> outcome == Ok(Rebuilt) && r.rebuilds == s.rebuilds + 1)
  {
  }

  /** Any other change leaves marker and cache alone; only a failed load is an error. */
  lemma OtherChangesKeep(s: ResolverState, c: Change, interval: nat)
    requires || interval == 0 || (s.changes + 1) % interval != 0 || c.stat.Err?
             || (c.load.Err? && s.marker.Some? && s.marker != Some(c.stat.value))
    ensures var (r, outcome) := Changed(s, c.stat, c.load, interval);
            && r == s.(changes := s.changes + 1)
            && (outcome.Err? <==> interval > 0 && (s.changes + 1) % interval == 0 && c.stat.Ok?)
  {
  }

  /** A first marker is recorded without a rebuild, so a state without a marker becomes
      coherent at its first successful stat exactly when its cache happens to match. */
  lemma FirstMarkerTrustsCache(snapshotOf: FileStat -> Snapshot, s: ResolverState, c: Change, interval: nat)
    requires s.marker.None? && c.stat.Ok? && ChecksAt(s.changes + 1, interval)
    ensures var r := Changed(s, c.stat, c.load, interval).0;
            Coherent(snapshotOf, r) <==> s.cache == IndexFor(snapshotOf(c.stat.value))
  {
  }

  /** The marker file is examined once every `interval` changes. */
  lemma {:induction false} StatsAreQuotient(s: ResolverState, cs: seq<Change>, interval: nat)
    requires s.changes == 0 && interval > 0
    ensures var p := AdvanceAll(Progress(s, 0), cs, interval);
            p.state.changes == |cs| && p.stats == |cs| / interval
  {
    if cs == [] {
      Quotients.DivUnique(0, interval, 0, 0);
    } else {
      StatsAreQuotient(s, cs[..|cs| - 1], interval);
      Quotients.QuotientSteps(|cs| - 1, interval);
    }
  }

  // ----- The report over a v1 payload -----

  datatype Line =
    | PidUidFailed(pid: int)
    | NonApp(uid: nat)
    | Accessibility(uid: nat)
    | Blocked(package: string)
    | Resolved(uid: nat, package: string)
    | AmbiguousUid(uid: nat, packages: nat)
    | Unmapped(uid: nat)
    | NothingFound

  datatype Report = Report(package: Option<string>, lines: seq<Line>)

  /** `resolve_v2_uid_with_state`. */
  function ResolveUid(s: ResolverState, uid: nat): Report {
    if !s.appFilter.Accepts(uid) then Report(None, [NonApp(uid)])
    else if uid in s.accessibilityUids then Report(None, [Accessibility(uid)])
    else
      match s.cache.UidState(uid)
      case Exact(package) =>
        if package in s.blockedPackages then Report(None, [Blocked(package)])
        else Report(Some(package), [Resolved(uid, package)])
      case Ambiguous(packages) => Report(None, [AmbiguousUid(uid, |packages|)])
      case Missing => Report(None, [Unmapped(uid)])
  }

  /** The pids a payload lists; lines that are not numbers are skipped. */
  function PidsOf(lines: seq<string>): seq<int> {
    if lines == [] then []
    else (match ParseI32(Trim(lines[0])) case Some(pid) => [pid] case None => []) + PidsOf(lines[1..])
  }

  /** Line by line: a number with white space around it is a pid, any other line is passed over. */
  lemma PidsLineByLine(before: string, word: string, after: string, rest: seq<string>)
    requires (forall c | c in before + after :: IsWhitespace(c)) && (word == "" || IsWord(word))
    ensures PidsOf([before + word + after] + rest) ==
            (if ParseI32(word).Some? then [ParseI32(word).value] else []) + PidsOf(rest)
  {
    TrimAround(before, word, after);
    assert ([before + word + after] + rest)[1..] == rest;
  }

  /** What one pid contributes to the report. */
  function ResolvePid(s: ResolverState, uids: map<int, nat>, pid: int): Report {
    if pid in uids then ResolveUid(s, uids[pid]) else Report(None, [PidUidFailed(pid)])
  }

  /** The lines written so far: one for each pid passed over, none of which resolved. */
  ghost predicate PassedOver(s: ResolverState, uids: map<int, nat>, pids: seq<int>, lines: seq<Line>) {
    |lines| <= |pids| && forall k | 0 <= k < |lines| :: ResolvePid(s, uids, pids[k]) == Report(None, [lines[k]])
  }

  lemma NextPid(pids: seq<int>, n: nat, texts: seq<string>, i: nat)
    requires n <= |pids| && i < |texts| && pids[n..] == PidsOf(texts[i..])
    ensures match ParseI32(Trim(texts[i]))
            case None => pids[n..] == PidsOf(texts[i + 1..])
            case Some(pid) => n < |pids| && pids[n] == pid && pids[n + 1..] == PidsOf(texts[i + 1..])
  {
    assert texts[i..][1..] == texts[i + 1..];
    if ParseI32(Trim(texts[i])).Some? {
      assert pids[n..][1..] == pids[n + 1..];
    }
  }

  /** `resolve_v1_payload_with_uid_resolver`, with the loop and its early return. */
  method ResolveV1Payload(payload: string, s: ResolverState, uids: map<int, nat>) returns (report: Report)
    ensures FirstResolved(s, uids, PidsOf(Lines(payload)), report)
  {
    var texts := Lines(payload);
    ghost var pids := PidsOf(texts);
    var lines: seq<Line> := [];
    var i := 0;
    while i < |texts|
      invariant 0 <= i <= |texts| && PassedOver(s, uids, pids, lines)
      invariant pids[|lines|..] == PidsOf(texts[i..])
    {
      NextPid(pids, |lines|, texts, i);
      var parsed := ParseI32(Trim(texts[i]));
      i := i + 1;
      if parsed.None? {
        continue;
      }
      var line, package := ReportPid(s, uids, parsed.value);
      OneMoreLine(s, uids, pids, lines, line, package);
      lines := lines + [line];
      if package.Some? {
        return Report(package, lines);
      }
    }
    assert texts[i..] == [];
    NothingResolved(s, uids, pids, lines);
    report := Report(None, lines + [NothingFound]);
  }

  method ReportPid(s: ResolverState, uids: map<int, nat>, pid: int) returns (line: Line, package: Option<string>)
    ensures Report(package, [line]) == ResolvePid(s, uids, pid)
  {
    if pid !in uids {
      return PidUidFailed(pid), None;
    }
    line, package := ReportUid(s, uids[pid]);
  }

  /** The tests of one uid, in the order the source makes them. */
  method ReportUid(s: ResolverState, uid: nat) returns (line: Line, package: Option<string>)
    ensures Report(package, [line]) == ResolveUid(s, uid)
  {
    if !s.appFilter.Accepts(uid) {
      return NonApp(uid), None;
    }
    if uid in s.accessibilityUids {
      return Accessibility(uid), None;
    }
    match s.cache.UidState(uid)
    case Exact(found) =>
      if found in s.blockedPackages {
        return Blocked(found), None;
      }
      return Resolved(uid, found), Some(found);
    case Ambiguous(packages) => return AmbiguousUid(uid, |packages|), None;
    case Missing => return Unmapped(uid), None;
  }

  /** A report resolves to the first pid whose uid resolves, with one line for each pid up to
      it; without such a pid every pid has its line and a closing line follows. */
  ghost predicate FirstResolved(s: ResolverState, uids: map<int, nat>, pids: seq<int>, report: Report) {
    match report.package
    case Some(package) =>
      var n := |report.lines|;
      && 0 < n <= |pids|
      && ResolvePid(s, uids, pids[n - 1]) == Report(Some(package), [report.lines[n - 1]])
      && forall k | 0 <= k < n - 1 ::
           ResolvePid(s, uids, pids[k]) == Report(None, [report.lines[k]])
    case None =>
      && |report.lines| == |pids| + 1 && report.lines[|pids|] == NothingFound
      && forall k | 0 <= k < |pids| :: ResolvePid(s, uids, pids[k]) == Report(None, [report.lines[k]])
  }

  /** A report names a package exactly when some listed pid resolves. */
  lemma NamedIffSomePidResolves(s: ResolverState, uids: map<int, nat>, pids: seq<int>, report: Report)
    requires FirstResolved(s, uids, pids, report)
    ensures report.package.Some? <==> exists pid :: pid in pids && ResolvePid(s, uids, pid).package.Some?
  {
  }

  /** A uid resolves exactly to the one package of an application uid that is neither an
      accessibility service's nor blocked, and each reason not to has its own line. */
  lemma UidResolvesIff(s: ResolverState, uid: nat)
    ensures var listed := if uid in s.cache.uidToPackages then s.cache.uidToPackages[uid] else [];
            var application := s.appFilter.modulus > 0 && uid % s.appFilter.modulus >= s.appFilter.minRemainder;
            ResolveUid(s, uid) ==
            if !application then Report(None, [NonApp(uid)])
            else if uid in s.accessibilityUids then Report(None, [Accessibility(uid)])
            else if |listed| == 0 then Report(None, [Unmapped(uid)])
            else if |listed| > 1 then Report(None, [AmbiguousUid(uid, |listed|)])
            else if listed[0] in s.blockedPackages then Report(None, [Blocked(listed[0])])
            else Report(Some(listed[0]), [Resolved(uid, listed[0])])
  {
  }

  lemma OneMoreLine(s: ResolverState, uids: map<int, nat>, pids: seq<int>, lines: seq<Line>, line: Line,
      package: Option<string>)
    requires PassedOver(s, uids, pids, lines) && |lines| < |pids|
    requires Report(package, [line]) == ResolvePid(s, uids, pids[|lines|])
    ensures package.None? ==> PassedOver(s, uids, pids, lines + [line])
    ensures package.Some? ==> FirstResolved(s, uids, pids, Report(package, lines + [line]))
  {
  }

  lemma NothingResolved(s: ResolverState, uids: map<int, nat>, pids: seq<int>, lines: seq<Line>)
    requires PassedOver(s, uids, pids, lines) && pids[|lines|..] == []
    ensures FirstResolved(s, uids, pids, Report(None, lines + [NothingFound]))
  {
  }

  /** At most one report fits a payload. */
  lemma ReportIsDetermined(s: ResolverState, uids: map<int, nat>, pids: seq<int>, a: Report, b: Report)
    requires FirstResolved(s, uids, pids, a) && FirstResolved(s, uids, pids, b)
    ensures a == b
  {
  }
}
