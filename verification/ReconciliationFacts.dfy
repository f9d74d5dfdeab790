/** The priority registrations mirror the watch table after every sync of every run. */
module ReconciliationFacts {
  import opened Basics
  import opened Paths
  import opened WatchTable
  import opened WatchTableFacts
  import opened Reconciliation

  // ----- Before and after a sync -----

  /** The watch of `e` is the one its key was recorded for. */
  predicate SameKey(s: Sys, w: Watcher, e: Path) {
    e in s.src.watches && e in w.keys && s.src.watches[e].generation == w.keys[e]
  }

  /** Every token stands for one recorded path and every recorded path has a token. */
  ghost predicate WatcherOk(w: Watcher, nextGeneration: nat, nextToken: nat) {
    && w.paths == w.keys.Keys
    && (forall e | e in w.keys :: w.keys[e] < nextGeneration && HasToken(w, e))
    && (forall t | t in w.tokens :: w.tokens[t] in w.keys && t < nextToken)
    && (forall t, u | t in w.tokens && u in w.tokens && t != u :: w.tokens[t] != w.tokens[u])
  }

  ghost predicate HasToken(w: Watcher, e: Path) {
    exists t :: t in w.tokens && w.tokens[t] == e
  }

  /** The reactor has exactly the tokens whose watch was not closed or replaced since. */
  ghost predicate InterestOk(s: Sys, w: Watcher) {
    && (forall t :: t in s.ker.interest <==> t in w.tokens && SameKey(s, w, w.tokens[t]))
    && (forall t | t in s.ker.interest :: s.ker.interest[t] == s.src.watches[w.tokens[t]].fd)
  }

  /** What holds between syncs. */
  ghost predicate Behind(cfg: Config, s: Sys, w: Watcher) {
    && TableOk(cfg, s) && Unsaturated(s)
    && WatcherOk(w, s.src.nextGeneration, s.ker.nextToken)
    && InterestOk(s, w)
  }

  /** After a sync: keys mirror the visible table, paths are their domain, tokens map
      one-to-one onto them, and the reactor watches exactly their descriptors. */
  ghost predicate Synced(cfg: Config, s: Sys, w: Watcher, hidden: bool) {
    var visible := Visible(s.src, hidden);
    && TableOk(cfg, s)
    && w.keys == KeysOf(visible)
    && w.paths == visible.Keys
    && (forall t | t in w.tokens :: w.tokens[t] in visible && t < s.ker.nextToken)
    && (forall t, u | t in w.tokens && u in w.tokens && t != u :: w.tokens[t] != w.tokens[u])
    && (forall e | e in visible :: HasToken(w, e))
    && s.ker.interest.Keys == w.tokens.Keys
    && (forall t | t in w.tokens :: s.ker.interest[t] == visible[w.tokens[t]].fd)
  }

  lemma SyncedWatcherOk(cfg: Config, s: Sys, w: Watcher, hidden: bool)
    requires Synced(cfg, s, w, hidden) && Unsaturated(s)
    ensures WatcherOk(w, s.src.nextGeneration, s.ker.nextToken)
  {
    hide TableOk, HasToken;
    forall e | e in w.keys ensures w.keys[e] < s.src.nextGeneration && HasToken(w, e) {
      assert e in Visible(s.src, hidden);
      HeldGeneration(cfg, s, e);
    }
  }

  lemma HeldGeneration(cfg: Config, s: Sys, e: Path)
    requires TableOk(cfg, s) && Unsaturated(s) && e in s.src.watches
    ensures s.src.watches[e].generation < s.src.nextGeneration
  {
    assert WatchOk(cfg, s, e);
  }

  lemma SyncedInterestOk(cfg: Config, s: Sys, w: Watcher, hidden: bool)
    requires Synced(cfg, s, w, hidden)
    ensures InterestOk(s, w)
  {
    forall t | t in w.tokens ensures SameKey(s, w, w.tokens[t]) {
      assert w.tokens[t] in Visible(s.src, hidden);
    }
    assert forall t :: t in s.ker.interest <==> t in w.tokens;
  }

  lemma SyncedIsBehind(cfg: Config, s: Sys, w: Watcher, hidden: bool)
    requires Synced(cfg, s, w, hidden) && Unsaturated(s)
    ensures Behind(cfg, s, w)
  {
    hide WatcherOk, InterestOk, TableOk;
    SyncedWatcherOk(cfg, s, w, hidden);
    SyncedInterestOk(cfg, s, w, hidden);
  }

  /** Whatever a handler does to the table, the watcher falls behind in this way only. */
  lemma HandlersKeepBehind(cfg: Config, a: Sys, b: Sys, w: Watcher)
    requires Behind(cfg, a, w) && Evolved(cfg, a, b) && Unsaturated(b)
    ensures Behind(cfg, b, w)
  {
  }

  // ----- The three loops -----

  lemma DropKeepsWatcher(w: Watcher, e: Path, nextGeneration: nat, nextToken: nat)
    requires WatcherOk(w, nextGeneration, nextToken)
    ensures WatcherOk(DropPath(w, e), nextGeneration, nextToken)
  {
    var d := DropPath(w, e);
    forall f | f in d.keys ensures d.keys[f] < nextGeneration && HasToken(d, f) {
      assert HasToken(w, f);
      var t :| t in w.tokens && w.tokens[t] == f;
      assert t in d.tokens && d.tokens[t] == f;
    }
  }

  /** A change of the interest list alone keeps the table as long as only held descriptors
      are registered. */
  lemma InterestKeepsTable(cfg: Config, s: Sys, r: Sys)
    requires TableOk(cfg, s)
    requires r.src == s.src && r.ker == s.ker.(interest := r.ker.interest, nextToken := r.ker.nextToken)
    requires forall t | t in r.ker.interest :: t < r.ker.nextToken && Held(s, r.ker.interest[t])
    ensures TableOk(cfg, r)
  {
    forall t | t in r.ker.interest ensures Held(r, r.ker.interest[t]) {
      var e :| e in s.src.watches && s.src.watches[e].fd == r.ker.interest[t];
      assert e in r.src.watches && r.src.watches[e].fd == r.ker.interest[t];
    }
    forall f | f in r.src.watches ensures WatchOk(cfg, r, f) {
      assert WatchOk(cfg, s, f);
    }
  }

  /** Dropping a path from the tables and its token, if any, from the reactor. */
  lemma DroppedBehind(cfg: Config, s: Sys, r: Sys, w: Watcher, e: Path)
    requires Behind(cfg, s, w)
    requires r.src == s.src && r.ker == s.ker.(interest := r.ker.interest)
    requires forall t :: t in r.ker.interest <==> t in s.ker.interest && w.tokens[t] != e
    requires forall t | t in r.ker.interest :: r.ker.interest[t] == s.ker.interest[t]
    ensures Behind(cfg, r, DropPath(w, e))
  {
    InterestKeepsTable(cfg, s, r);
    DropKeepsWatcher(w, e, s.src.nextGeneration, s.ker.nextToken);
    var d := DropPath(w, e);
    assert InterestOk(r, d) by {
      forall t ensures t in r.ker.interest <==> t in d.tokens && SameKey(r, d, d.tokens[t]) {
        assert t in d.tokens <==> t in w.tokens && w.tokens[t] != e;
      }
    }
  }

  lemma UnregisterOne(cfg: Config, s: Sys, w: Watcher, e: Path)
    requires Behind(cfg, s, w) && e in w.keys && (e in s.src.watches ==> SameKey(s, w, e))
    ensures Unregister(s, e).Some?
    ensures var r := Unregister(s, e).value;
            && r.src == s.src && r.ker == s.ker.(interest := r.ker.interest)
            && Behind(cfg, r, DropPath(w, e))
  {
    assert HasToken(w, e);
    var t :| t in w.tokens && w.tokens[t] == e;
    if e in s.src.watches {
      var fd := s.src.watches[e].fd;
      assert t in s.ker.interest && s.ker.interest[t] == fd;
      assert fd in s.ker.interest.Values;
      forall u | u in s.ker.interest && u != t ensures s.ker.interest[u] != fd {
        assert w.tokens[u] != e;
      }
    }
    DroppedBehind(cfg, s, Unregister(s, e).value, w, e);
  }

  lemma DropOne(cfg: Config, s: Sys, w: Watcher, e: Path)
    requires Behind(cfg, s, w) && !SameKey(s, w, e)
    ensures Behind(cfg, s, DropPath(w, e))
  {
    DroppedBehind(cfg, s, s, w, e);
  }

  predicate Distinct(es: seq<Path>) {
    forall i, j | 0 <= i < j < |es| :: es[i] != es[j]
  }

  lemma DistinctTail(es: seq<Path>)
    requires es != [] && Distinct(es)
    ensures Distinct(es[1..]) && forall f | f in es[1..] :: f != es[0] && f in es
  {
  }

  /** `d` is `w` without the paths of `es`; what is left is unchanged. */
  ghost predicate Shrunk(w: Watcher, d: Watcher, es: seq<Path>) {
    && (forall f :: f in d.keys <==> f in w.keys && f !in es)
    && (forall f | f in d.keys :: d.keys[f] == w.keys[f])
    && (forall t :: t in d.tokens <==> t in w.tokens && w.tokens[t] !in es)
    && (forall t | t in d.tokens :: d.tokens[t] == w.tokens[t])
  }

  lemma ShrunkStep(w: Watcher, d: Watcher, es: seq<Path>)
    requires es != [] && Shrunk(DropPath(w, es[0]), d, es[1..])
    ensures Shrunk(w, d, es)
  {
    assert forall f :: f in es <==> f == es[0] || f in es[1..];
  }

  lemma RestStillKeyed(s: Sys, next: Sys, w: Watcher, es: seq<Path>)
    requires es != [] && Distinct(es) && next.src == s.src
    requires forall e | e in es :: e in w.keys && (e in s.src.watches ==> SameKey(s, w, e))
    ensures var d := DropPath(w, es[0]);
            && Distinct(es[1..])
            && forall f | f in es[1..] :: f in d.keys && (f in next.src.watches ==> SameKey(next, d, f))
  {
  }

  lemma {:induction false} UnregisterLoop(cfg: Config, s: Sys, w: Watcher, es: seq<Path>)
    requires Behind(cfg, s, w) && Distinct(es)
    requires forall e | e in es :: e in w.keys && (e in s.src.watches ==> SameKey(s, w, e))
    ensures UnregisterAll(s, w, es).Some?
    ensures var r := UnregisterAll(s, w, es).value;
            && r.0.src == s.src && r.0.ker == s.ker.(interest := r.0.ker.interest)
            && Behind(cfg, r.0, r.1) && Shrunk(w, r.1, es)
    decreases |es|
  {
    if es == [] {
    } else {
      var e, rest := es[0], es[1..];
      var d := DropPath(w, e);
      assert e in es;
      UnregisterOne(cfg, s, w, e);
      var next := Unregister(s, e).value;
      RestStillKeyed(s, next, w, es);
      UnregisterLoop(cfg, next, d, rest);
      assert UnregisterAll(s, w, es) == UnregisterAll(next, d, rest);
      ShrunkStep(w, UnregisterAll(next, d, rest).value.1, es);
    }
  }

  lemma {:induction false} DropLoop(cfg: Config, s: Sys, w: Watcher, es: seq<Path>)
    requires Behind(cfg, s, w) && forall e | e in es :: !SameKey(s, w, e)
    ensures Behind(cfg, s, DropAll(w, es)) && Shrunk(w, DropAll(w, es), es)
    decreases |es|
  {
    if es == [] {
    } else {
      var e, rest := es[0], es[1..];
      DropOne(cfg, s, w, e);
      assert forall f | f in rest :: f in es;
      DropLoop(cfg, s, DropPath(w, e), rest);
      ShrunkStep(w, DropAll(w, es), es);
    }
  }

  /** Registering and recording one path at a time. */
  function Interleaved(s: Sys, w: Watcher, current: map<Path, nat>, es: seq<Path>): Option<(Sys, Watcher)>
    requires forall e | e in es :: e in s.src.watches
    decreases |es|
  {
    if es == [] then Some((s, w))
    else if es[0] in w.paths then Interleaved(s, w, current, es[1..])
    else
      match AddPriority(s, es[0])
      case None => None
      case Some(next) => Interleaved(next, Record(w, current, s.ker.nextToken, es[0]), current, es[1..])
  }

  /** Registering all paths and recording them afterwards is the same. */
  lemma {:induction false} RegisterThenRecord(s: Sys, w: Watcher, current: map<Path, nat>, registered: set<Path>,
      es: seq<Path>)
    requires Distinct(es)
    requires forall e | e in es :: e in s.src.watches && (e in registered <==> e in w.paths)
    ensures Interleaved(s, w, current, es) ==
            match RegisterFds(s, registered, es)
            case None => None
            case Some((r, regs)) => Some((r, RecordAll(w, current, regs)))
    decreases |es|
  {
    if es == [] {
    } else {
      var e, rest := es[0], es[1..];
      DistinctTail(es);
      if e in registered {
        RegisterThenRecord(s, w, current, registered, rest);
      } else if AddPriority(s, e).Some? {
        var next := AddPriority(s, e).value;
        var token := s.ker.nextToken;
        RegisterThenRecord(next, Record(w, current, token, e), current, registered, rest);
        if RegisterFds(next, registered, rest).Some? {
          var later := RegisterFds(next, registered, rest).value.1;
          assert ([(token, e)] + later)[1..] == later;
        }
      }
    }
  }

  lemma RecordKeepsWatcher(w: Watcher, current: map<Path, nat>, e: Path, nextGeneration: nat, nextToken: nat)
    requires WatcherOk(w, nextGeneration, nextToken) && e !in w.paths
    requires e in current && current[e] < nextGeneration
    ensures WatcherOk(Record(w, current, nextToken, e), nextGeneration, nextToken + 1)
  {
    var d := Record(w, current, nextToken, e);
    forall f | f in d.keys ensures d.keys[f] < nextGeneration && HasToken(d, f) {
      if f == e {
        assert nextToken in d.tokens;
      } else {
        assert HasToken(w, f);
        var t :| t in w.tokens && w.tokens[t] == f;
        assert t in d.tokens && d.tokens[t] == f;
      }
    }
  }

  /** The reactor does not have the descriptor of a path without a record. */
  lemma UnrecordedIsAccepted(cfg: Config, s: Sys, w: Watcher, e: Path)
    requires Behind(cfg, s, w) && e in s.src.watches && e !in w.paths
    ensures AddPriority(s, e).Some?
  {
    forall t | t in s.ker.interest ensures s.ker.interest[t] != s.src.watches[e].fd {
      assert w.tokens[t] != e;
    }
  }

  lemma InterestGrows(s: Sys, w: Watcher, current: map<Path, nat>, e: Path)
    requires WatcherOk(w, s.src.nextGeneration, s.ker.nextToken) && InterestOk(s, w)
    requires e in s.src.watches && e !in w.paths && AddPriority(s, e).Some?
    requires e in current && current[e] == s.src.watches[e].generation
    ensures InterestOk(AddPriority(s, e).value, Record(w, current, s.ker.nextToken, e))
  {
    var r, d := AddPriority(s, e).value, Record(w, current, s.ker.nextToken, e);
    forall t ensures t in r.ker.interest <==> t in d.tokens && SameKey(r, d, d.tokens[t]) {
      if t in w.tokens {
        assert w.tokens[t] in w.keys && w.tokens[t] != e;
      }
    }
  }

  lemma RegisterOne(cfg: Config, s: Sys, w: Watcher, current: map<Path, nat>, e: Path)
    requires Behind(cfg, s, w) && e in s.src.watches && e !in w.paths
    requires e in current && current[e] == s.src.watches[e].generation
    ensures AddPriority(s, e).Some?
    ensures Behind(cfg, AddPriority(s, e).value, Record(w, current, s.ker.nextToken, e))
  {
    UnrecordedIsAccepted(cfg, s, w, e);
    assert WatchOk(cfg, s, e) && Held(s, s.src.watches[e].fd);
    InterestGrows(s, w, current, e);
    InterestKeepsTable(cfg, s, AddPriority(s, e).value);
    hide WatcherOk, InterestOk, Record;
    RecordKeepsWatcher(w, current, e, s.src.nextGeneration, s.ker.nextToken);
  }

  /** `d` is `w` with the missing paths of `es` recorded under their current keys. */
  ghost predicate Extended(w: Watcher, d: Watcher, current: map<Path, nat>, es: seq<Path>) {
    && (forall f :: f in d.keys <==> f in w.keys || f in es)
    && (forall f | f in d.keys ::
          if f in w.keys then d.keys[f] == w.keys[f] else f in current && d.keys[f] == current[f])
    && (forall t | t in w.tokens :: t in d.tokens && d.tokens[t] == w.tokens[t])
  }

  lemma ExtendedStep(w: Watcher, m: Watcher, d: Watcher, current: map<Path, nat>, es: seq<Path>, token: nat)
    requires es != [] && es[0] in current && w.paths == w.keys.Keys
    requires token !in w.tokens && m == if es[0] in w.paths then w else Record(w, current, token, es[0])
    requires Extended(m, d, current, es[1..])
    ensures Extended(w, d, current, es)
  {
    assert forall f :: f in es <==> f == es[0] || f in es[1..];
  }

  lemma BehindBasics(cfg: Config, s: Sys, w: Watcher)
    requires Behind(cfg, s, w)
    ensures w.paths == w.keys.Keys && s.ker.nextToken !in w.tokens
    ensures forall current :: Extended(w, w, current, [])
  {
  }

  lemma {:induction false} RegisterLoop(cfg: Config, s: Sys, w: Watcher, current: map<Path, nat>, es: seq<Path>)
    requires Behind(cfg, s, w)
    requires forall e | e in es :: e in s.src.watches && e in current && current[e] == s.src.watches[e].generation
    ensures Interleaved(s, w, current, es).Some?
    ensures var r := Interleaved(s, w, current, es).value;
            && r.0.src == s.src && r.0.ker == s.ker.(interest := r.0.ker.interest, nextToken := r.0.ker.nextToken)
            && Behind(cfg, r.0, r.1) && Extended(w, r.1, current, es)
    decreases |es|
  {
    BehindBasics(cfg, s, w);
    hide Behind, Extended;
    if es == [] {
    } else {
      var e, rest := es[0], es[1..];
      assert forall f | f in rest :: f in es;
      assert e in es;
      if e in w.paths {
        RegisterLoop(cfg, s, w, current, rest);
        ExtendedStep(w, w, Interleaved(s, w, current, es).value.1, current, es, s.ker.nextToken);
      } else {
        RegisterOne(cfg, s, w, current, e);
        var next, m := AddPriority(s, e).value, Record(w, current, s.ker.nextToken, e);
        RegisterLoop(cfg, next, m, current, rest);
        ExtendedStep(w, m, Interleaved(next, m, current, rest).value.1, current, es, s.ker.nextToken);
      }
    }
  }
}
