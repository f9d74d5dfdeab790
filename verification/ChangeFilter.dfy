/** Deduplicating observations into changes (`foreground/manager.rs`) and counting the changes
    that trigger a check of the package file (`identity_cache.rs`). */
module ChangeFilter {
  import opened Basics
  import opened Candidates
  import opened Quotients

  // ----- filter_changed and event_for_candidate -----

  datatype Update = Update(last: Option<Candidate>, emitted: Option<Candidate>, countsAsChange: bool)

  function Filtered(last: Option<Candidate>, seen: Option<Candidate>): Update {
    if seen.None? || last == seen then Update(last, None, false)
    else Update(seen, seen, last.Some?)
  }

  class ForegroundManager {
    var lastPayload: Option<Candidate>

    constructor ()
      ensures lastPayload == None
    {
      lastPayload := None;
    }

    method FilterChanged(seen: Option<Candidate>) returns (emitted: Option<Candidate>, countsAsChange: bool)
      modifies this
      ensures Update(lastPayload, emitted, countsAsChange) == Filtered(old(lastPayload), seen)
    {
      if seen.None? {
        return None, false;
      }
      if lastPayload.Some?
         && lastPayload.value.source == seen.value.source && lastPayload.value.pid == seen.value.pid
         && lastPayload.value.uid == seen.value.uid && lastPayload.value.package == seen.value.package
         && lastPayload.value.identityResolved == seen.value.identityResolved
      {
        return None, false;
      }
      countsAsChange := lastPayload.Some?;
      lastPayload := seen;
      emitted := seen;
    }
  }

  // ----- The invalidator -----

  datatype Fingerprint = Fingerprint(dev: nat, inode: nat, size: nat, mtimeSec: int, mtimeNsec: int)

  /** `enabled` is false when no package file is configured. */
  datatype Invalidator = Invalidator(
    enabled: bool, interval: nat, count: nat, fingerprint: Option<Fingerprint>, dirty: bool)

  predicate ChecksNow(inv: Invalidator) {
    inv.interval != 0 && inv.count % inv.interval == 0
  }

  /** `check_packages_xml`; a failed stat changes nothing. */
  function Check(inv: Invalidator, stat: Option<Fingerprint>): Invalidator {
    if stat.None? then inv
    else inv.(fingerprint := stat, dirty := inv.dirty || inv.fingerprint != stat)
  }

  /** `mark_foreground_candidate`, and whether it looked at the package file. */
  function Mark(inv: Invalidator, stat: Option<Fingerprint>): (Invalidator, bool) {
    if !inv.enabled then (inv, false)
    else
      var counted := inv.(count := SaturatingAdd(inv.count, 1));
      if ChecksNow(counted) then (Check(counted, stat), true) else (counted, false)
  }

  class IdentityCacheInvalidator {
    const enabled: bool
    const interval: nat
    var count: nat
    var fingerprint: Option<Fingerprint>
    var dirty: bool

    function View(): Invalidator
      reads this
    {
      Invalidator(enabled, interval, count, fingerprint, dirty)
    }

    constructor (enabled: bool, interval: nat, stat: Option<Fingerprint>)
      ensures View() == Invalidator(enabled, interval, 0, if enabled then stat else None, false)
    {
      this.enabled, this.interval := enabled, interval;
      count, fingerprint, dirty := 0, if enabled then stat else None, false;
    }

    method MarkForegroundCandidate(stat: Option<Fingerprint>) returns (checked: bool)
      modifies this
      ensures (View(), checked) == Mark(old(View()), stat)
    {
      if !enabled {
        return false;
      }
      count := SaturatingAdd(count, 1);
      checked := interval != 0 && count % interval == 0;
      if checked {
        var _ := CheckPackagesXml(stat);
      }
    }

    method CheckPackagesXml(stat: Option<Fingerprint>) returns (changed: bool)
      modifies this
      ensures View() == Check(old(View()), stat)
      ensures changed <==> stat.Some? && old(fingerprint) != stat
    {
      if stat.None? {
        return false;
      }
      changed := fingerprint.None? || fingerprint.value != stat.value;
      fingerprint := stat;
      if changed {
        dirty := true;
      }
    }

    method ConsumeDirty() returns (was: bool)
      modifies this
      ensures was == old(dirty) && View() == old(View()).(dirty := false)
    {
      was := dirty;
      dirty := false;
    }
  }

  // ----- Whole runs -----

  /** One pipeline operation: what the source reported, and what a look at the package file
      would find at that moment. */
  datatype Observation = Observation(seen: Option<Candidate>, stat: Option<Fingerprint>)

  /** `checks` counts the looks at the package file. */
  datatype Pipe = Pipe(last: Option<Candidate>, inv: Invalidator, emitted: seq<Candidate>, checks: nat)

  function Observe(p: Pipe, o: Observation): Pipe {
    var u := Filtered(p.last, o.seen);
    var (inv, checked) := if u.countsAsChange then Mark(p.inv, o.stat) else (p.inv, false);
    Pipe(u.last, inv,
         if u.emitted.Some? then p.emitted + [u.emitted.value] else p.emitted,
         if checked then p.checks + 1 else p.checks)
  }

  function ObserveAll(p: Pipe, os: seq<Observation>): Pipe {
    if os == [] then p else Observe(ObserveAll(p, os[..|os| - 1]), os[|os| - 1])
  }

  function StartPipe(enabled: bool, interval: nat, fingerprint: Option<Fingerprint>): Pipe {
    Pipe(None, Invalidator(enabled, interval, 0, fingerprint, false), [], 0)
  }

  /** The candidates a run of observations contains. */
  function Seen(os: seq<Observation>): seq<Candidate> {
    if os == [] then []
    else
      var o := os[|os| - 1];
      Seen(os[..|os| - 1]) + (if o.seen.Some? then [o.seen.value] else [])
  }

  /** A sequence without the elements that equal their immediate predecessor. */
  function Collapse(s: seq<Candidate>): seq<Candidate> {
    if s == [] then []
    else
      var init := s[..|s| - 1];
      if init != [] && init[|init| - 1] == s[|s| - 1] then Collapse(init) else Collapse(init) + [s[|s| - 1]]
  }

  lemma {:induction false} CollapseFacts(s: seq<Candidate>)
    ensures forall i | 0 < i < |Collapse(s)| :: Collapse(s)[i] != Collapse(s)[i - 1]
    ensures s == [] <==> Collapse(s) == []
    ensures s != [] ==> Collapse(s)[|Collapse(s)| - 1] == s[|s| - 1]
  {
    if s == [] {
    } else {
      CollapseFacts(s[..|s| - 1]);
    }
  }

  /** The change count a run must arrive at. */
  function Changes(emitted: nat): nat {
    if emitted == 0 then 0 else Min(U64_MAX, emitted - 1)
  }

  ghost predicate PipeOk(p: Pipe, os: seq<Observation>, enabled: bool, interval: nat) {
    && p.emitted == Collapse(Seen(os))
    && p.last == (if Seen(os) == [] then None else Some(Seen(os)[|Seen(os)| - 1]))
    && p.inv.enabled == enabled && p.inv.interval == interval
    && p.inv.count == (if enabled then Changes(|p.emitted|) else 0)
    && (!enabled ==> p.checks == 0)
    && (enabled && interval > 0 && |p.emitted| <= U64_MAX ==> p.checks == p.inv.count / interval)
  }

  lemma SeenGrows(os: seq<Observation>, o: Observation)
    ensures Seen(os + [o]) == Seen(os) + (if o.seen.Some? then [o.seen.value] else [])
  {
  }

  lemma CollapseLast(t: seq<Candidate>, s: seq<Candidate>, c: Candidate)
    requires t != [] && t[..|t| - 1] == s && t[|t| - 1] == c
    ensures Collapse(t) == if s != [] && s[|s| - 1] == c then Collapse(s) else Collapse(s) + [c]
  {
  }

  lemma CollapseGrows(s: seq<Candidate>, c: Candidate)
    ensures Collapse(s + [c]) == if s != [] && s[|s| - 1] == c then Collapse(s) else Collapse(s) + [c]
  {
    hide Collapse;
    assert (s + [c])[..|s + [c]| - 1] == s;
    CollapseLast(s + [c], s, c);
  }

  lemma MarkCounts(p: Pipe, os: seq<Observation>, o: Observation, enabled: bool, interval: nat)
    requires PipeOk(p, os, enabled, interval) && p.emitted != []
    ensures var (inv, checked) := Mark(p.inv, o.stat);
            var checks := if checked then p.checks + 1 else p.checks;
            && inv.enabled == enabled && inv.interval == interval
            && inv.count == (if enabled then Changes(|p.emitted| + 1) else 0)
            && (!enabled ==> checks == 0)
            && (enabled && interval > 0 && |p.emitted| + 1 <= U64_MAX ==> checks == inv.count / interval)
  {
    if enabled && interval > 0 {
      QuotientSteps(p.inv.count, interval);
    }
  }

  lemma ObserveKeepsOk(p: Pipe, os: seq<Observation>, o: Observation, enabled: bool, interval: nat)
    requires PipeOk(p, os, enabled, interval)
    ensures PipeOk(Observe(p, o), os + [o], enabled, interval)
  {
    var s := Seen(os);
    CollapseFacts(s);
    SeenGrows(os, o);
    if o.seen.Some? && o.seen != p.last {
      CollapseGrows(s, o.seen.value);
      if p.last.Some? {
        MarkCounts(p, os, o, enabled, interval);
      } else if interval > 0 {
        DivUnique(0, interval, 0, 0);
      }
    } else if o.seen.Some? {
      CollapseGrows(s, o.seen.value);
      assert Seen(os + [o]) == s + [o.seen.value];
    } else {
      assert Seen(os + [o]) == s + [] == s;
    }
  }

  /** Over any run the emitted candidates are the observed ones with repetitions collapsed;
      the invalidator counts every emission but the first, up to saturation; and below
      saturation the package file is looked at once every `interval` changes. */
  lemma {:induction false} RunEmitsChanges(os: seq<Observation>, enabled: bool, interval: nat,
      fingerprint: Option<Fingerprint>)
    ensures var p := ObserveAll(StartPipe(enabled, interval, fingerprint), os);
            && p.emitted == Collapse(Seen(os))
            && p.last == (if Seen(os) == [] then None else Some(Seen(os)[|Seen(os)| - 1]))
            && p.inv.count == (if enabled then Changes(|p.emitted|) else 0)
            && (enabled && interval > 0 && |p.emitted| <= U64_MAX ==> p.checks == p.inv.count / interval)
    ensures PipeOk(ObserveAll(StartPipe(enabled, interval, fingerprint), os), os, enabled, interval)
  {
    if os == [] {
    } else {
      var init := os[..|os| - 1];
      RunEmitsChanges(init, enabled, interval, fingerprint);
      var before := ObserveAll(StartPipe(enabled, interval, fingerprint), init);
      ObserveKeepsOk(before, init, os[|os| - 1], enabled, interval);
      assert os == init + [os[|os| - 1]];
    }
  }

  /** A look that succeeds records what it saw and marks the cache dirty exactly if that is not
      what was recorded before; the mark stays once made. A failed look changes nothing. */
  lemma LookRecords(inv: Invalidator, stat: Option<Fingerprint>)
    requires inv.enabled && inv.interval > 0 && SaturatingAdd(inv.count, 1) % inv.interval == 0
    ensures var (r, looked) := Mark(inv, stat);
            && looked && r.count == SaturatingAdd(inv.count, 1)
            && r.fingerprint == (if stat.Some? then stat else inv.fingerprint)
            && (r.dirty <==> inv.dirty || (stat.Some? && stat != inv.fingerprint))
  {
  }

  /** The successful looks of a run, in order. */
  function Looks(p: Pipe, os: seq<Observation>): seq<Fingerprint> {
    if os == [] then []
    else
      var init, o := os[..|os| - 1], os[|os| - 1];
      var before := ObserveAll(p, init);
      Looks(p, init) + (if Observe(before, o).checks > before.checks && o.stat.Some? then [o.stat.value] else [])
  }

  /** Some look saw another fingerprint than `first`. */
  ghost predicate Moved(looks: seq<Fingerprint>, first: Option<Fingerprint>) {
    exists i :: 0 <= i < |looks| && Some(looks[i]) != first
  }

  lemma MovedOneMore(looks: seq<Fingerprint>, f: Fingerprint, first: Option<Fingerprint>)
    ensures Moved(looks + [f], first) <==> Moved(looks, first) || Some(f) != first
  {
    var all := looks + [f];
    assert all[|looks|] == f;
    if Moved(looks, first) {
      var i :| 0 <= i < |looks| && Some(looks[i]) != first;
      assert Some(all[i]) != first;
    }
  }

  /** An observation either looks and records what it saw, or leaves fingerprint and mark. */
  lemma ObservationLooks(p: Pipe, o: Observation)
    ensures var r := Observe(p, o);
            if r.checks > p.checks && o.stat.Some?
            then r.inv.fingerprint == o.stat && (r.inv.dirty <==> p.inv.dirty || p.inv.fingerprint != o.stat)
            else r.inv.fingerprint == p.inv.fingerprint && r.inv.dirty == p.inv.dirty
  {
  }

  /** Over any run the recorded fingerprint is the last one a look saw, and the cache is dirty
      exactly if it was, or some look saw another fingerprint than the one recorded first. */
  lemma {:induction false} DirtyIffMoved(p: Pipe, os: seq<Observation>)
    ensures var r, looks := ObserveAll(p, os), Looks(p, os);
            && r.inv.fingerprint == (if looks == [] then p.inv.fingerprint else Some(looks[|looks| - 1]))
            && (r.inv.dirty <==> p.inv.dirty || Moved(looks, p.inv.fingerprint))
  {
    if os == [] {
    } else {
      var init, o := os[..|os| - 1], os[|os| - 1];
      DirtyIffMoved(p, init);
      var before, looks := ObserveAll(p, init), Looks(p, init);
      ObservationLooks(before, o);
      hide Observe;
      if Observe(before, o).checks > before.checks && o.stat.Some? {
        MovedOneMore(looks, o.stat.value, p.inv.fingerprint);
        assert looks != [] ==> Moved(looks, p.inv.fingerprint) || Some(looks[|looks| - 1]) == p.inv.fingerprint;
      } else {
        assert Looks(p, os) == looks + [] == looks;
      }
    }
  }

  /** As long as the cache is not marked dirty, the recorded fingerprint is the original one:
      no change of the package file that a check saw goes unmarked. */
  lemma {:induction false} CleanMeansUnmoved(os: seq<Observation>, enabled: bool, interval: nat,
      fingerprint: Option<Fingerprint>)
    ensures var inv := ObserveAll(StartPipe(enabled, interval, fingerprint), os).inv;
            !inv.dirty ==> inv.fingerprint == fingerprint
  {
    if os == [] {
    } else {
      CleanMeansUnmoved(os[..|os| - 1], enabled, interval, fingerprint);
    }
  }
}
