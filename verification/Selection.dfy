/** Choosing the foreground process from a cgroup v1 pid list (`services/foreground/cgroup_v1.rs`). */
module Selection {
  import opened Basics
  import opened Text
  import opened Candidates
  import opened PackageIndex

  // ----- Judging one process -----

  /** What `/proc` and the uid resolver say while one payload is resolved. */
  datatype ProcTable = ProcTable(uids: map<int, nat>, failing: set<int>, cmdlines: map<int, string>)

  datatype Config = Config(filter: Filter, cache: Option<Index>, proc: ProcTable)

  const FIRST_PID: int := 100

  const TERMUX := "com.termux"

  /** The first word of a command line, up to a colon, if it looks like a package. */
  function PackageFromCmdline(cmdline: string): Option<string> {
    var words := Words(cmdline);
    if words == [] then None
    else
      var process := Split(words[0], ':')[0];
      if process != "" && '.' in process && '/' !in process then Some(process) else None
  }

  predicate IsUi(cmdline: string) {
    Contains(cmdline, ":") && !Contains(cmdline, "remote") && !Contains(cmdline, "service")
  }

  /** Does the cache contradict this package for this uid? */
  predicate Contradicts(cache: Index, uid: nat, package: string) {
    match cache.UidState(uid)
    case Exact(cached) => cached != package
    case Ambiguous(packages) => package !in packages
    case Missing => false
  }

  function CmdlineInfo(cfg: Config, pid: int, uid: nat): Option<(Candidate, bool)> {
    if !cfg.filter.IsValidUid(uid) || pid !in cfg.proc.cmdlines then None
    else
      var cmdline := cfg.proc.cmdlines[pid];
      match PackageFromCmdline(cmdline)
      case None => None
      case Some(package) =>
        if package in cfg.filter.blockedPackages then None
        else if cfg.cache.Some? && uid >= FIRST_APP_UID && Contradicts(cfg.cache.value, uid, package) then None
        else Some((Candidate(CgroupV1, Some(pid), Some(uid), Some(package), true), IsUi(cmdline)))
  }

  predicate CacheListsPackage(cfg: Config, uid: nat, package: string) {
    cfg.cache.Some? &&
    match cfg.cache.value.UidState(uid)
    case Exact(cached) => cached == package
    case Ambiguous(packages) => package in packages
    case Missing => false
  }

  predicate TermuxNonPackage(cfg: Config, pid: int, uid: nat) {
    && CacheListsPackage(cfg, uid, TERMUX)
    && pid in cfg.proc.cmdlines
    && Words(cfg.proc.cmdlines[pid]) != []
    && PackageFromCmdline(cfg.proc.cmdlines[pid]).None?
  }

  function FallbackInfo(cfg: Config, pid: int, uid: nat): Option<(Candidate, bool)> {
    match cfg.filter.CandidateForUid(CgroupV1, Some(pid), uid, cfg.cache)
    case Some(c) => if c.identityResolved then Some((c, false)) else None
    case None => None
  }

  /** What one pid contributes: a candidate and whether it is a UI process, nothing, or the
      resolver's error. */
  function Judge(cfg: Config, pid: int): Result<Option<(Candidate, bool)>, EngineError> {
    if pid < FIRST_PID then Ok(None)
    else if pid in cfg.proc.failing then Err(Failed)
    else if pid !in cfg.proc.uids then Ok(None)
    else
      var uid := cfg.proc.uids[pid];
      var info := CmdlineInfo(cfg, pid, uid);
      if info.Some? then Ok(info)
      else if TermuxNonPackage(cfg, pid, uid) then Ok(None)
      else Ok(FallbackInfo(cfg, pid, uid))
  }

  // ----- The reverse fold -----

  datatype Best = Best(pid: int, candidate: Candidate, ui: bool)

  /** UI processes beat others; among equals the larger pid wins. */
  predicate Beats(a: Best, b: Best) {
    if a.ui != b.ui then a.ui else a.pid > b.pid
  }

  function Improve(best: Option<Best>, next: Best): Best {
    if best.None? || Beats(next, best.value) then next else best.value
  }

  /** One line of the payload. */
  function ReadLine(line: string): Result<Option<int>, EngineError> {
    var text := Trim(line);
    if text == "" then Ok(None)
    else
      match ParseI32(text)
      case None => Err(InvalidData)
      case Some(pid) => Ok(Some(pid))
  }

  function Contribution(cfg: Config, line: string): Result<Option<Best>, EngineError> {
    match ReadLine(line)
    case Err(e) => Err(e)
    case Ok(None) => Ok(None)
    case Ok(Some(pid)) =>
      match Judge(cfg, pid)
      case Err(e) => Err(e)
      case Ok(None) => Ok(None)
      case Ok(Some((candidate, ui))) => Ok(Some(Best(pid, candidate, ui)))
  }

  /** The fold, from the last line to the first. */
  function Fold(cfg: Config, lines: seq<string>, best: Option<Best>): Result<Option<Best>, EngineError>
    decreases |lines|
  {
    if lines == [] then Ok(best)
    else
      var init := lines[..|lines| - 1];
      match Contribution(cfg, lines[|lines| - 1])
      case Err(e) => Err(e)
      case Ok(None) => Fold(cfg, init, best)
      case Ok(Some(next)) => Fold(cfg, init, Some(Improve(best, next)))
  }

  function ResolvePayload(cfg: Config, payload: string): Result<Option<Candidate>, EngineError> {
    match Fold(cfg, Lines(payload), None)
    case Err(e) => Err(e)
    case Ok(None) => Ok(None)
    case Ok(Some(best)) => Ok(Some(best.candidate))
  }

  class CgroupV1CpusetSource {
    const cfg: Config
    const procsPath: string
    var lastPayload: Option<string>
    var lastCandidate: Option<Candidate>

    constructor (cfg: Config, procsPath: string)
      ensures this.cfg == cfg && this.procsPath == procsPath && lastPayload == None && lastCandidate == None
    {
      this.cfg, this.procsPath, lastPayload, lastCandidate := cfg, procsPath, None, None;
    }

    /** `V1PayloadCache::observe`. */
    method Observe(payload: string) returns (changed: Option<string>)
      modifies this`lastPayload
      ensures lastPayload == Some(payload)
      ensures changed == if old(lastPayload) == Some(payload) then None else Some(payload)
    {
      if lastPayload == Some(payload) {
        return None;
      }
      lastPayload := Some(payload);
      changed := Some(payload);
    }

    /** `read` is what reading the pid list returns. */
    method PollCurrent(read: Result<string, EngineError>) returns (answer: Result<Option<Candidate>, EngineError>)
      modifies this
      ensures answer == match read case Err(e) => Err(e) case Ok(payload) => ResolvePayload(cfg, payload)
      ensures lastPayload == match read case Err(_) => old(lastPayload) case Ok(payload) => Some(payload)
    {
      if read.Err? {
        return Err(read.error);
      }
      lastPayload := Some(read.value);
      answer := Resolve(read.value);
    }

    /** An event on the pid list answers what polling would, whether or not the list changed
        since it was last read; other paths answer nothing. */
    method HandleFsEvent(path: string, read: Result<string, EngineError>)
      returns (answer: Result<Option<Candidate>, EngineError>)
      modifies this
      ensures path == procsPath ==>
                answer == match read case Err(e) => Err(e) case Ok(payload) => ResolvePayload(cfg, payload)
      ensures path != procsPath ==> answer == Ok(None) && unchanged(this)
    {
      if path != procsPath {
        return Ok(None);
      }
      if read.Err? {
        return Err(read.error);
      }
      var changed := Observe(read.value);
      var payload := if changed.Some? then changed.value else if lastPayload.Some? then lastPayload.value else "";
      answer := Resolve(payload);
    }

    /** Remembers the answer on success and leaves the memory alone on an error. */
    method Resolve(payload: string) returns (answer: Result<Option<Candidate>, EngineError>)
      modifies this`lastCandidate
      ensures answer == ResolvePayload(cfg, payload)
      ensures lastCandidate == if answer.Ok? then answer.value else old(lastCandidate)
    {
      var lines := Lines(payload);
      var best: Option<Best> := None;
      var i := |lines|;
      assert lines[..i] == lines;
      while i > 0
        invariant 0 <= i <= |lines|
        invariant Fold(cfg, lines[..i], best) == Fold(cfg, lines, None)
        invariant lastCandidate == old(lastCandidate)
      {
        assert lines[..i][..i - 1] == lines[..i - 1];
        i := i - 1;
        var contribution := Contribution(cfg, lines[i]);
        if contribution.Err? {
          return Err(contribution.error);
        }
        if contribution.value.Some? {
          best := Some(Improve(best, contribution.value.value));
        }
      }
      assert lines[..i] == [];
      lastCandidate := if best.Some? then Some(best.value.candidate) else None;
      answer := Ok(lastCandidate);
    }
  }

  // ----- The greatest candidate -----

  /** The pids a payload lists. */
  function Pids(lines: seq<string>): set<int> {
    set l | l in lines && ReadLine(l).Ok? && ReadLine(l).value.Some? :: ReadLine(l).value.value
  }

  predicate Malformed(lines: seq<string>) {
    exists l :: l in lines && ReadLine(l).Err?
  }

  predicate AnyFails(cfg: Config, pids: set<int>) {
    exists pid :: pid in pids && Judge(cfg, pid).Err?
  }

  ghost predicate Acceptable(cfg: Config, pids: set<int>, b: Best) {
    b.pid in pids && Judge(cfg, b.pid) == Ok(Some((b.candidate, b.ui)))
  }

  /** `b` is acceptable; it is a user interface if anything acceptable is; and no acceptable
      process of the same kind has a larger pid. */
  ghost predicate Greatest(cfg: Config, pids: set<int>, b: Best) {
    && Acceptable(cfg, pids, b)
    && forall o | Acceptable(cfg, pids, o) :: (o.ui ==> b.ui) && (o.ui == b.ui ==> o.pid <= b.pid)
  }

  lemma GreatestUnique(cfg: Config, pids: set<int>, a: Best, b: Best)
    requires Greatest(cfg, pids, a) && Greatest(cfg, pids, b)
    ensures a == b
  {
  }

  /** The fold keeps the greatest of what it started with and what the lines add. */
  ghost predicate FoldAnswer(cfg: Config, pids: set<int>, best: Option<Best>, answer: Option<Best>) {
    match answer
    case None => best.None? && forall o :: !Acceptable(cfg, pids, o)
    case Some(b) =>
      && (Acceptable(cfg, pids, b) || best == Some(b))
      && (forall o | Acceptable(cfg, pids, o) :: !Beats(o, b))
      && (best.Some? ==> !Beats(best.value, b))
  }

  lemma LinesSplit(lines: seq<string>)
    requires lines != []
    ensures var init, last := lines[..|lines| - 1], lines[|lines| - 1];
            && (Malformed(lines) <==> Malformed(init) || ReadLine(last).Err?)
            && Pids(lines) == Pids(init)
               + (if ReadLine(last).Ok? && ReadLine(last).value.Some? then {ReadLine(last).value.value} else {})
  {
  }

  lemma {:induction false} FoldIsGreatest(cfg: Config, lines: seq<string>, best: Option<Best>)
    ensures Fold(cfg, lines, best).Err? <==> Malformed(lines) || AnyFails(cfg, Pids(lines))
    ensures Fold(cfg, lines, best).Ok? ==> FoldAnswer(cfg, Pids(lines), best, Fold(cfg, lines, best).value)
    decreases |lines|
  {
    if lines == [] {
    } else {
      var init, last := lines[..|lines| - 1], lines[|lines| - 1];
      LinesSplit(lines);
      var line := ReadLine(last);
      var next := match Contribution(cfg, last) case Ok(Some(b)) => Some(Improve(best, b)) case _ => best;
      FoldIsGreatest(cfg, init, next);
      if line.Ok? && line.value.Some? {
        var pid := line.value.value;
        assert AnyFails(cfg, Pids(lines)) <==> AnyFails(cfg, Pids(init)) || Judge(cfg, pid).Err?;
        assert Pids(lines) == Pids(init) + {pid};
        if Fold(cfg, lines, best).Ok? {
          assert Fold(cfg, lines, best) == Fold(cfg, init, next);
          CombineAnswer(cfg, Pids(init), pid, best, Fold(cfg, init, next).value);
        }
      } else {
        assert Pids(lines) == Pids(init);
      }
    }
  }

  lemma CombineAnswer(cfg: Config, pids: set<int>, pid: int, best: Option<Best>, answer: Option<Best>)
    requires Judge(cfg, pid).Ok?
    requires var judged := Judge(cfg, pid).value;
             var next := if judged.Some? then Some(Improve(best, Best(pid, judged.value.0, judged.value.1))) else best;
             FoldAnswer(cfg, pids, next, answer)
    ensures FoldAnswer(cfg, pids + {pid}, best, answer)
  {
    var all := pids + {pid};
    forall o ensures Acceptable(cfg, all, o) <==>
                     Acceptable(cfg, pids, o) || (o.pid == pid && Judge(cfg, pid) == Ok(Some((o.candidate, o.ui)))) {
    }
  }

  /** Resolving a payload fails exactly when a line is malformed or a uid lookup fails, and
      otherwise answers with the greatest acceptable process of its pid set. */
  lemma ResolvesToGreatest(cfg: Config, payload: string)
    ensures var pids := Pids(Lines(payload));
            match ResolvePayload(cfg, payload)
            case Err(_) => Malformed(Lines(payload)) || AnyFails(cfg, pids)
            case Ok(None) => !Malformed(Lines(payload)) && !AnyFails(cfg, pids) && forall b :: !Acceptable(cfg, pids, b)
            case Ok(Some(c)) =>
              && !Malformed(Lines(payload)) && !AnyFails(cfg, pids)
              && exists b :: Greatest(cfg, pids, b) && b.candidate == c
  {
    FoldIsGreatest(cfg, Lines(payload), None);
    var r := Fold(cfg, Lines(payload), None);
    if r.Ok? && r.value.Some? {
      assert Greatest(cfg, Pids(Lines(payload)), r.value.value);
    }
  }

  /** The answer depends only on the set of pids listed, not on their order or repetition. */
  lemma AnswerDependsOnPidSet(cfg: Config, a: string, b: string)
    requires !Malformed(Lines(a)) && !Malformed(Lines(b)) && Pids(Lines(a)) == Pids(Lines(b))
    ensures ResolvePayload(cfg, a).Ok? == ResolvePayload(cfg, b).Ok?
    ensures ResolvePayload(cfg, a).Ok? ==> ResolvePayload(cfg, a) == ResolvePayload(cfg, b)
  {
    ResolvesToGreatest(cfg, a);
    ResolvesToGreatest(cfg, b);
    var pids := Pids(Lines(a));
    match (ResolvePayload(cfg, a), ResolvePayload(cfg, b))
    case (Ok(Some(c)), Ok(Some(d))) =>
      var x :| Greatest(cfg, pids, x) && x.candidate == c;
      var y :| Greatest(cfg, pids, y) && y.candidate == d;
      GreatestUnique(cfg, pids, x, y);
    case _ =>
  }

  // ----- Process names -----

  /** What a package name read from a command line looks like. */
  predicate ProcessName(p: string) {
    IsWord(p) && '.' in p && '/' !in p && ':' !in p
  }

  lemma {:induction false} FirstWordIsWord(t: string)
    requires Words(t) != []
    ensures IsWord(Words(t)[0])
    decreases |t|
  {
    if IsWhitespace(t[0]) {
      FirstWordIsWord(t[1..]);
    } else {
      var n := WordLength(t);
      assert Words(t)[0] == t[..n] && n > 0;
    }
  }

  /** Whatever the command line, only such a name is ever taken from it. */
  lemma CmdlineGivesProcessName(cmdline: string)
    requires PackageFromCmdline(cmdline).Some?
    ensures ProcessName(PackageFromCmdline(cmdline).value)
  {
    var word := Words(cmdline)[0];
    FirstWordIsWord(cmdline);
    var p := Split(word, ':')[0];
    assert p == word[..IndexOf(word, ':')];
    assert forall c | c in p :: c in word;
  }

  /** Every such name is read back from its own process and from its named services. */
  lemma ProcessNameIsRead(p: string, service: string, arguments: string)
    requires ProcessName(p) && IsWord(service)
    ensures PackageFromCmdline(p) == Some(p)
    ensures PackageFromCmdline(p + ":" + service + " " + arguments) == Some(p)
  {
    WordsOfWord(p);
    SplitWhole(p, ':');
    var word := p + ":" + service;
    assert forall c | c in word :: c in p || c == ':' || c in service;
    WordsFirst(word, arguments);
    SplitFirst(p, ':', service);
  }

  // ----- Payload lines -----

  /** A line is a pid with white space around it, or nothing but white space, or malformed. */
  lemma LineByText(before: string, word: string, after: string)
    requires (forall c | c in before + after :: IsWhitespace(c)) && (word == "" || IsWord(word))
    ensures ReadLine(before + word + after) ==
            if word == "" then Ok(None)
            else if ParseI32(word).Some? then Ok(Some(ParseI32(word).value))
            else Err(InvalidData)
  {
    TrimAround(before, word, after);
  }

  function PrintPids(pids: seq<nat>): seq<string> {
    if pids == [] then [] else [Decimal(pids[0])] + PrintPids(pids[1..])
  }

  lemma PrintedPidRead(pid: nat)
    requires pid <= I32_MAX
    ensures ReadLine(Decimal(pid)) == Ok(Some(pid)) && PlainLine(Decimal(pid))
  {
    DigitsAreWords(Decimal(pid));
    LineByText("", Decimal(pid), "");
    assert "" + Decimal(pid) + "" == Decimal(pid);
    I32ByDigits(Decimal(pid));
    DecimalValue(pid);
  }

  lemma {:induction false} PrintedPidsRead(pids: seq<nat>)
    requires forall p | p in pids :: p <= I32_MAX
    ensures var lines := PrintPids(pids);
            && (forall l | l in lines :: PlainLine(l) && ReadLine(l).Ok?)
            && (forall p :: p in Pids(lines) <==> p >= 0 && p in pids)
  {
    hide ReadLine, PlainLine;
    if pids == [] {
    } else {
      assert pids[0] in pids && forall p | p in pids[1..] :: p in pids;
      PrintedPidRead(pids[0]);
      PrintedPidsRead(pids[1..]);
      var line, rest := Decimal(pids[0]), PrintPids(pids[1..]);
      assert pids == [pids[0]] + pids[1..];
      forall p ensures p in Pids([line] + rest) <==> p == pids[0] || p in Pids(rest) {
        assert line in [line] + rest;
      }
    }
  }

  /** A printed pid list is well formed and lists exactly its pids. */
  lemma PayloadListsPids(pids: seq<nat>)
    requires forall p | p in pids :: p <= I32_MAX
    ensures var lines := Lines(Terminated(PrintPids(pids)));
            !Malformed(lines) && forall p :: p in Pids(lines) <==> p >= 0 && p in pids
  {
    PrintedPidsRead(pids);
    LinesOfTerminated(PrintPids(pids));
  }

  // ----- Judging by cases -----

  /** The first word of the command line is the process name, alone or before a colon. */
  ghost predicate FromProcess(cmdline: string, p: string) {
    && ProcessName(p) && Words(cmdline) != []
    && (Words(cmdline)[0] == p || exists rest :: Words(cmdline)[0] == p + ":" + rest)
  }

  /** A package is read from a command line exactly if it is the name of its process. */
  lemma PackageIffProcess(cmdline: string, p: string)
    ensures PackageFromCmdline(cmdline) == Some(p) <==> FromProcess(cmdline, p)
  {
    if FromProcess(cmdline, p) {
      if Words(cmdline)[0] == p {
        SplitWhole(p, ':');
      } else {
        var rest :| Words(cmdline)[0] == p + ":" + rest;
        SplitFirst(p, ':', rest);
      }
    }
    if PackageFromCmdline(cmdline) == Some(p) {
      CmdlineGivesProcessName(cmdline);
      var word := Words(cmdline)[0];
      var n := IndexOf(word, ':');
      if n < |word| {
        assert word == p + ":" + word[n + 1..];
      }
    }
  }

  /** A process is taken for one with a user interface exactly if its command line has a colon
      and neither `remote` nor `service` starts anywhere in it. */
  lemma UiByPositions(cmdline: string)
    ensures IsUi(cmdline) <==>
            && (exists i :: 0 <= i < |cmdline| && cmdline[i] == ':')
            && (forall i | 0 <= i <= |cmdline| :: !("remote" <= cmdline[i..]) && !("service" <= cmdline[i..]))
  {
    ContainsIff(cmdline, ":");
    ContainsIff(cmdline, "remote");
    ContainsIff(cmdline, "service");
    if i :| 0 <= i <= |cmdline| && ":" <= cmdline[i..] {
      assert cmdline[i] == ':';
    }
    if i :| 0 <= i < |cmdline| && cmdline[i] == ':' {
      assert ":" <= cmdline[i..];
    }
  }

  function Listing(cache: Index, uid: nat): seq<string> {
    if uid in cache.uidToPackages then cache.uidToPackages[uid] else []
  }

  /** The command line names an unblocked package the cache has no other idea about. */
  ghost predicate ReadFromCmdline(cfg: Config, pid: int, uid: nat, p: string) {
    && pid in cfg.proc.cmdlines && FromProcess(cfg.proc.cmdlines[pid], p)
    && p !in cfg.filter.blockedPackages
    && (cfg.cache.Some? && uid >= 10_000 && Listing(cfg.cache.value, uid) != [] ==> p in Listing(cfg.cache.value, uid))
  }

  /** A process of the uid that also runs Termux whose command line names no package. */
  ghost predicate TermuxHelper(cfg: Config, pid: int, uid: nat) {
    && cfg.cache.Some? && "com.termux" in Listing(cfg.cache.value, uid)
    && pid in cfg.proc.cmdlines && Words(cfg.proc.cmdlines[pid]) != []
    && forall p :: !FromProcess(cfg.proc.cmdlines[pid], p)
  }

  /** Small pids contribute nothing, a failing uid lookup fails, and a process without a uid or
      with an invalid one contributes nothing. */
  lemma JudgeRejects(cfg: Config, pid: int)
    ensures pid < 100 ==> Judge(cfg, pid) == Ok(None)
    ensures pid >= 100 ==> (Judge(cfg, pid).Err? <==> pid in cfg.proc.failing)
    ensures pid >= 100 && pid !in cfg.proc.failing && pid !in cfg.proc.uids ==> Judge(cfg, pid) == Ok(None)
    ensures pid >= 100 && pid !in cfg.proc.failing && pid in cfg.proc.uids ==>
              (!cfg.filter.IsValidUid(cfg.proc.uids[pid]) ==> Judge(cfg, pid) == Ok(None))
  {
  }

  /** A process read from its command line is accepted under that name, flagged by the
      positions in the command line. */
  lemma JudgeReadsCmdline(cfg: Config, pid: int, p: string)
    requires pid >= 100 && pid !in cfg.proc.failing && pid in cfg.proc.uids
    requires cfg.filter.IsValidUid(cfg.proc.uids[pid]) && ReadFromCmdline(cfg, pid, cfg.proc.uids[pid], p)
    ensures var cmdline := cfg.proc.cmdlines[pid];
            var ui :=
              && (exists i :: 0 <= i < |cmdline| && cmdline[i] == ':')
              && (forall i | 0 <= i <= |cmdline| :: !("remote" <= cmdline[i..]) && !("service" <= cmdline[i..]));
            Judge(cfg, pid) == Ok(Some((Candidate(CgroupV1, Some(pid), Some(cfg.proc.uids[pid]), Some(p), true), ui)))
  {
    var cmdline := cfg.proc.cmdlines[pid];
    PackageIffProcess(cmdline, p);
    UiByPositions(cmdline);
    hide FromProcess, PackageFromCmdline, IsUi;
  }

  /** Any other process of a valid uid falls back to the one unblocked package of its uid,
      never flagged, unless it is a Termux helper. */
  lemma JudgeFallsBack(cfg: Config, pid: int)
    requires pid >= 100 && pid !in cfg.proc.failing && pid in cfg.proc.uids
    requires cfg.filter.IsValidUid(cfg.proc.uids[pid])
    requires forall p :: !ReadFromCmdline(cfg, pid, cfg.proc.uids[pid], p)
    ensures var uid := cfg.proc.uids[pid];
            Judge(cfg, pid) ==
            if !TermuxHelper(cfg, pid, uid) && cfg.cache.Some? && |Listing(cfg.cache.value, uid)| == 1
               && Listing(cfg.cache.value, uid)[0] !in cfg.filter.blockedPackages
            then
              var package := Listing(cfg.cache.value, uid)[0];
              Ok(Some((Candidate(CgroupV1, Some(pid), Some(uid), Some(package), true), false)))
            else Ok(None)
  {
    var uid := cfg.proc.uids[pid];
    if pid in cfg.proc.cmdlines {
      var cmdline := cfg.proc.cmdlines[pid];
      forall p ensures PackageFromCmdline(cmdline) == Some(p) <==> FromProcess(cmdline, p) {
        PackageIffProcess(cmdline, p);
      }
      hide FromProcess, PackageFromCmdline, IsUi;
      if PackageFromCmdline(cmdline).Some? {
        assert !ReadFromCmdline(cfg, pid, uid, PackageFromCmdline(cmdline).value);
      }
    }
  }

  // ----- Soundness -----

  /** Every candidate satisfies the filter, names its pid and uid, and does not contradict
      what the cache knows about an application uid. */
  lemma CandidatesAreSound(cfg: Config, pid: int)
    requires Judge(cfg, pid).Ok? && Judge(cfg, pid).value.Some?
    ensures var c := Judge(cfg, pid).value.value.0;
            && cfg.filter.Admits(c) && c.source == CgroupV1
            && pid >= FIRST_PID && c.pid == Some(pid)
            && pid in cfg.proc.uids && c.uid == Some(cfg.proc.uids[pid])
            && (cfg.cache.Some? && c.uid.value >= FIRST_APP_UID ==>
                  !Contradicts(cfg.cache.value, c.uid.value, c.package.value))
  {
  }

  /** The candidate's package is one the cache lists for its uid exactly when the cache
      knows that uid at all. */
  lemma ListedIffKnown(cfg: Config, pid: int)
    requires Judge(cfg, pid).Ok? && Judge(cfg, pid).value.Some?
    requires cfg.cache.Some? && cfg.proc.uids[pid] >= FIRST_APP_UID
    ensures var c := Judge(cfg, pid).value.value.0;
            CacheListsPackage(cfg, c.uid.value, c.package.value) <==> !cfg.cache.value.UidState(c.uid.value).Missing?
  {
  }

  /** Whatever a payload resolves to is one listed process's sound candidate. */
  lemma ResolvedCandidateIsSound(cfg: Config, payload: string)
    requires ResolvePayload(cfg, payload).Ok? && ResolvePayload(cfg, payload).value.Some?
    ensures var c := ResolvePayload(cfg, payload).value.value;
            && cfg.filter.Admits(c) && c.source == CgroupV1
            && c.pid.Some? && c.pid.value in Pids(Lines(payload)) && c.pid.value >= FIRST_PID
            && c.pid.value in cfg.proc.uids && c.uid == Some(cfg.proc.uids[c.pid.value])
            && (cfg.cache.Some? && c.uid.value >= FIRST_APP_UID ==>
                  (CacheListsPackage(cfg, c.uid.value, c.package.value)
                   <==> !cfg.cache.value.UidState(c.uid.value).Missing?))
  {
    hide Judge, ResolvePayload;
    ResolvesToGreatest(cfg, payload);
    var b :| Greatest(cfg, Pids(Lines(payload)), b) && b.candidate == ResolvePayload(cfg, payload).value.value;
    CandidatesAreSound(cfg, b.pid);
    if cfg.cache.Some? && cfg.proc.uids[b.pid] >= FIRST_APP_UID {
      ListedIffKnown(cfg, b.pid);
    }
  }

  /** For a uid the cache does not know, any package-like command line is published. */
  lemma UnknownUidTakesCmdline(cfg: Config, pid: int, package: string)
    requires pid >= FIRST_PID && pid in cfg.proc.uids && pid !in cfg.proc.failing && pid in cfg.proc.cmdlines
    requires cfg.filter.IsValidUid(cfg.proc.uids[pid]) && package !in cfg.filter.blockedPackages
    requires PackageFromCmdline(cfg.proc.cmdlines[pid]) == Some(package)
    requires cfg.cache.Some? && cfg.cache.value.UidState(cfg.proc.uids[pid]).Missing?
    ensures Judge(cfg, pid).Ok? && Judge(cfg, pid).value.Some?
    ensures Judge(cfg, pid).value.value.0 ==
            Candidate(CgroupV1, Some(pid), Some(cfg.proc.uids[pid]), Some(package), true)
    ensures !CacheListsPackage(cfg, cfg.proc.uids[pid], package)
  {
  }
}
