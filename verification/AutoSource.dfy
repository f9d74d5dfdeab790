/** The automatic source (`services/foreground/auto.rs`): v1 when it answers, otherwise v2,
    otherwise the activity fallback. What v1 and the fallback answer is passed in. */
module AutoSource {
  import opened Basics
  import opened Paths
  import opened WatchTable
  import opened CgroupV2Source
  import R = Reconciliation

  /** `acc` with the roots it does not have yet, in order. */
  function AppendMissing(acc: seq<Path>, roots: seq<Path>): seq<Path>
    decreases |roots|
  {
    if roots == [] then acc
    else AppendMissing(if roots[0] in acc then acc else acc + [roots[0]], roots[1..])
  }

  /** The directories to watch: the v1 hints, and the v2 roots only while v1 is unavailable. */
  function HintPaths(v1Hints: seq<Path>, roots: seq<Path>, v1Available: bool): seq<Path> {
    if v1Available then v1Hints else AppendMissing(v1Hints, roots)
  }

  lemma {:induction false} AppendMissingIsUnion(acc: seq<Path>, roots: seq<Path>, p: Path)
    ensures p in AppendMissing(acc, roots) <==> p in acc || p in roots
    decreases |roots|
  {
    if roots == [] {
    } else {
      AppendMissingIsUnion(if roots[0] in acc then acc else acc + [roots[0]], roots[1..], p);
      assert roots == [roots[0]] + roots[1..];
    }
  }

  /** While v1 answers only its own paths are hinted; otherwise the v2 roots are hinted too. */
  lemma HintsFollowAvailability(v1Hints: seq<Path>, roots: seq<Path>, v1Available: bool, p: Path)
    ensures p in HintPaths(v1Hints, roots, v1Available) <==> p in v1Hints || (!v1Available && p in roots)
  {
    AppendMissingIsUnion(v1Hints, roots, p);
  }

  class AutoForegroundSource {
    const v2: CgroupV2EventsSource
    const v1Hints: seq<Path>
    var v1Available: bool
    var watchHintPaths: seq<Path>

    /** The hints always belong to the present availability. */
    ghost predicate Valid()
      reads this
    {
      watchHintPaths == HintPaths(v1Hints, v2.cfg.roots, v1Available)
    }

    function View(): R.Front
      reads this, v2, v2.kernel
    {
      R.Front(R.Automatic(v1Available), v2.View())
    }

    constructor (v2: CgroupV2EventsSource, v1Hints: seq<Path>, v1Available: bool)
      ensures Valid() && this.v2 == v2 && this.v1Hints == v1Hints && this.v1Available == v1Available
    {
      this.v2, this.v1Hints, this.v1Available := v2, v1Hints, v1Available;
      watchHintPaths := [];
      new;
      RefreshWatchHintPaths();
    }

    method RefreshWatchHintPaths()
      modifies this`watchHintPaths
      ensures Valid()
    {
      watchHintPaths := v1Hints;
      if v1Available {
        return;
      }
      var roots := v2.cfg.roots;
      var i := 0;
      while i < |roots|
        invariant 0 <= i <= |roots|
        invariant AppendMissing(watchHintPaths, roots[i..]) == AppendMissing(v1Hints, roots)
      {
        assert roots[i..][1..] == roots[i + 1..];
        if roots[i] !in watchHintPaths {
          watchHintPaths := watchHintPaths + [roots[i]];
        }
        i := i + 1;
      }
      assert roots[i..] == [];
    }

    method SetV1Available(available: bool)
      requires Valid()
      modifies this
      ensures Valid() && v1Available == available
      ensures forall p :: p in watchHintPaths <==> p in v1Hints || (!v1Available && p in v2.cfg.roots)
    {
      if v1Available == available {
        HintsAreExact();
        return;
      }
      v1Available := available;
      RefreshWatchHintPaths();
      HintsAreExact();
    }

    lemma HintsAreExact()
      requires Valid()
      ensures forall p :: p in watchHintPaths <==> p in v1Hints || (!v1Available && p in v2.cfg.roots)
    {
      forall p ensures p in watchHintPaths <==> p in v1Hints || (!v1Available && p in v2.cfg.roots) {
        HintsFollowAvailability(v1Hints, v2.cfg.roots, v1Available, p);
      }
    }

    method PollCurrent(o: R.Oracle) returns (answer: Answer)
      requires Valid()
      modifies this, v2, v2.kernel
      ensures Valid() && (View(), answer) == R.PollFront(v2.cfg, old(View()), o)
      ensures v1Available == o.v1.Ok?
      ensures forall p :: p in watchHintPaths <==> p in v1Hints || (!v1Available && p in v2.cfg.roots)
    {
      if o.v1.Ok? {
        SetV1Available(true);
        return o.v1;
      }
      SetV1Available(false);
      answer := v2.PollCurrent();
      if answer.Err? {
        answer := o.activity;
      }
    }

    method RecoverV1IfAvailable(o: R.Oracle) returns (answer: Option<Answer>)
      requires Valid()
      modifies this
      ensures Valid()
      ensures match R.Recover(old(View()), o)
              case None => answer == None && View() == old(View())
              case Some(r) => answer == Some(r.1) && View() == r.0
      ensures v1Available == (old(v1Available) || o.v1.Ok?)
      ensures forall p :: p in watchHintPaths <==> p in v1Hints || (!v1Available && p in v2.cfg.roots)
    {
      HintsAreExact();
      if v1Available {
        return Some(Ok(None));
      }
      if o.v1.Err? {
        return None;
      }
      SetV1Available(true);
      return Some(o.v1);
    }

    method HandleFsEventWithMask(path: Path, mask: bv32, o: R.Oracle) returns (answer: Answer)
      requires Valid()
      modifies this, v2, v2.kernel
      ensures Valid()
      ensures (View(), answer) == R.FsEventFront(v2.cfg, v1Hints, old(View()), path, KindOf(mask), o)
      ensures v1Available ==
              (o.v1.Ok? || (old(v1Available) && path !in v1Hints && (path in v2.cfg.roots || UnderRoot(v2.cfg, path))))
      ensures forall p :: p in watchHintPaths <==> p in v1Hints || (!v1Available && p in v2.cfg.roots)
    {
      if path in v1Hints || !(path in v2.cfg.roots || UnderRoot(v2.cfg, path)) {
        answer := PollCurrent(o);
        return;
      }
      var recovered := RecoverV1IfAvailable(o);
      if recovered.Some? {
        return recovered.value;
      }
      answer := v2.HandleFsEventWithMask(path, mask);
      if answer.Err? {
        answer := o.activity;
      }
    }

    method HandlePriorityEvent(path: Path, reading: Result<string, EngineError>, o: R.Oracle) returns (answer: Answer)
      requires Valid()
      modifies this, v2, v2.kernel
      ensures Valid() && (View(), answer) == R.PriorityFront(v2.cfg, old(View()), path, reading, o)
      ensures v1Available == (old(v1Available) || o.v1.Ok?)
      ensures forall p :: p in watchHintPaths <==> p in v1Hints || (!v1Available && p in v2.cfg.roots)
    {
      var recovered := RecoverV1IfAvailable(o);
      if recovered.Some? {
        return recovered.value;
      }
      answer := v2.HandleEventsPath(path, reading);
      if answer.Err? {
        answer := o.activity;
      }
    }

    method HandleStalePriorityEvent(path: Path, o: R.Oracle) returns (answer: Answer)
      requires Valid()
      modifies this, v2, v2.kernel
      ensures Valid() && (View(), answer) == R.StaleFront(v2.cfg, old(View()), path, o)
      ensures v1Available == (old(v1Available) || o.v1.Ok?)
      ensures forall p :: p in watchHintPaths <==> p in v1Hints || (!v1Available && p in v2.cfg.roots)
    {
      var recovered := RecoverV1IfAvailable(o);
      if recovered.Some? {
        return recovered.value;
      }
      answer := v2.HandleStaleEventsPath(path);
      if answer.Err? {
        answer := o.activity;
      }
    }
  }
}
