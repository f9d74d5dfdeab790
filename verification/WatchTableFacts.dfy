/** What every handler of the watch table keeps and how it may change the table. */
module WatchTableFacts {
  import opened Basics
  import opened Paths
  import opened Candidates
  import opened CgroupEvents
  import opened WatchTable
  import UidDirs

  // ----- Invariant -----

  /** `e` is the events file of a directory under a root whose name stands for a valid uid. */
  predicate Legit(cfg: Config, e: Path, uid: nat) {
    && e.Join? && e.name == EVENTS_NAME && UnderRoot(cfg, e.parent)
    && UidDirs.ParseUidDirName(e.parent.name) == Some(uid)
    && cfg.filter.IsValidUid(uid)
  }

  ghost predicate Held(s: Sys, fd: nat) {
    exists e :: e in s.src.watches && s.src.watches[e].fd == fd
  }

  predicate Unsaturated(s: Sys) {
    s.src.nextGeneration < U64_MAX
  }

  ghost predicate TableOk(cfg: Config, s: Sys) {
    && s.src.nextGeneration <= U64_MAX
    && (forall e | e in s.src.watches :: WatchOk(cfg, s, e))
    && (forall e, f | e in s.src.watches && f in s.src.watches && e != f ::
          s.src.watches[e].fd != s.src.watches[f].fd)
    && (forall t | t in s.ker.interest :: t < s.ker.nextToken && Held(s, s.ker.interest[t]))
  }

  ghost predicate WatchOk(cfg: Config, s: Sys, e: Path)
    requires e in s.src.watches
  {
    var w := s.src.watches[e];
    Legit(cfg, e, w.uid) && w.fd < s.ker.nextFd && (Unsaturated(s) ==> w.generation < s.src.nextGeneration)
  }

  // ----- How a handler may change the state -----

  predicate SameWatch(a: UidWatch, b: UidWatch) {
    a.(populated := b.populated) == b
  }

  /** `e` was opened between `a` and `b`: its descriptor and generation are new and it
      belongs to the directory that exists now. */
  ghost predicate Opened(cfg: Config, a: Sys, b: Sys, e: Path)
    requires e in b.src.watches
  {
    var w := b.src.watches[e];
    && Legit(cfg, e, w.uid) && a.ker.fs.Openable(e)
    && w.incarnation == a.ker.fs.nodes[e.parent].incarnation
    && a.ker.nextFd <= w.fd < b.ker.nextFd
    && (Unsaturated(b) ==> a.src.nextGeneration <= w.generation)
  }

  /** The general shape of any change a handler makes while the file system stands still:
      watches persist, close or are newly opened, and the interest list loses exactly the
      closed descriptors. */
  ghost predicate Evolved(cfg: Config, a: Sys, b: Sys) {
    && TableOk(cfg, b)
    && b.ker.fs == a.ker.fs && b.ker.nextToken == a.ker.nextToken
    && a.ker.nextFd <= b.ker.nextFd && a.src.nextGeneration <= b.src.nextGeneration
    && (forall e | e in b.src.watches ::
          (e in a.src.watches && SameWatch(a.src.watches[e], b.src.watches[e])) || Opened(cfg, a, b, e))
    && (forall t :: t in b.ker.interest <==> t in a.ker.interest && Held(b, a.ker.interest[t]))
    && (forall t | t in b.ker.interest :: b.ker.interest[t] == a.ker.interest[t])
  }

  /** In addition nothing is closed whose events file exists, and nothing is replaced. */
  ghost predicate Tidy(cfg: Config, a: Sys, b: Sys) {
    && Evolved(cfg, a, b)
    && (forall e | e in a.src.watches ::
          if e in b.src.watches then SameWatch(a.src.watches[e], b.src.watches[e])
          else a.ker.fs.EventsAt(e).None?)
  }

  lemma EvolvedReflexive(cfg: Config, s: Sys)
    requires TableOk(cfg, s)
    ensures Tidy(cfg, s, s)
  {
  }

  lemma EvolvedTransitive(cfg: Config, a: Sys, b: Sys, c: Sys)
    requires TableOk(cfg, a) && Evolved(cfg, a, b) && Evolved(cfg, b, c)
    ensures Evolved(cfg, a, c)
  {
    forall t | t in a.ker.interest && Held(c, a.ker.interest[t]) ensures t in b.ker.interest {
      HeldSince(cfg, a, b, c, t);
    }
  }

  lemma HeldSince(cfg: Config, a: Sys, b: Sys, c: Sys, t: nat)
    requires TableOk(cfg, a) && Evolved(cfg, a, b) && Evolved(cfg, b, c)
    requires t in a.ker.interest && Held(c, a.ker.interest[t])
    ensures t in b.ker.interest
  {
    var e :| e in c.src.watches && c.src.watches[e].fd == a.ker.interest[t];
    assert Held(a, a.ker.interest[t]);
    assert !Opened(cfg, b, c, e);
    assert b.src.watches[e].fd == a.ker.interest[t];
  }

  lemma TidyTransitive(cfg: Config, a: Sys, b: Sys, c: Sys)
    requires TableOk(cfg, a) && Tidy(cfg, a, b) && Tidy(cfg, b, c)
    ensures Tidy(cfg, a, c)
  {
    EvolvedTransitive(cfg, a, b, c);
  }

  // ----- The steps handlers are made of -----

  lemma AddIsTidy(cfg: Config, s: Sys, dir: Path, uid: nat)
    requires TableOk(cfg, s)
    requires UnderRoot(cfg, dir) && UidDirs.ParseUidDirName(dir.name) == Some(uid)
    ensures Tidy(cfg, s, AddUidWatch(cfg, s, dir, uid).0)
  {
    var r := AddUidWatch(cfg, s, dir, uid).0;
    if r != s {
      var e := EventsPath(dir);
      forall fd | Held(s, fd) ensures Held(r, fd) {
        var f :| f in s.src.watches && s.src.watches[f].fd == fd;
        assert f in r.src.watches && r.src.watches[f].fd == fd;
      }
      assert Opened(cfg, s, r, e);
    }
  }

  lemma RemoveEvolves(cfg: Config, s: Sys, gone: set<Path>)
    requires TableOk(cfg, s)
    ensures Evolved(cfg, s, Remove(s, gone))
    ensures (forall e | e in gone :: s.ker.fs.EventsAt(e).None?) ==> Tidy(cfg, s, Remove(s, gone))
  {
    var r := Remove(s, gone);
    forall t ensures t in r.ker.interest <==> t in s.ker.interest && Held(r, s.ker.interest[t]) {
      if t in s.ker.interest {
        var e :| e in s.src.watches && s.src.watches[e].fd == s.ker.interest[t];
        if e !in gone {
          assert e in r.src.watches && r.src.watches[e].fd == s.ker.interest[t];
        }
      }
    }
  }

  /** `r` differs from `s` at most in what is recorded about the population of its watches
      and in the stale roots. */
  ghost predicate Relabelled(s: Sys, r: Sys) {
    && r.ker == s.ker && r.src.nextGeneration == s.src.nextGeneration
    && r.src.watches.Keys == s.src.watches.Keys
    && forall e | e in s.src.watches :: SameWatch(s.src.watches[e], r.src.watches[e])
  }

  lemma RelabelledHolds(s: Sys, r: Sys, fd: nat)
    requires Relabelled(s, r)
    ensures Held(s, fd) <==> Held(r, fd)
  {
    if Held(s, fd) {
      var f :| f in s.src.watches && s.src.watches[f].fd == fd;
      assert f in r.src.watches && r.src.watches[f].fd == fd;
    }
    if Held(r, fd) {
      var f :| f in r.src.watches && r.src.watches[f].fd == fd;
      assert f in s.src.watches && s.src.watches[f].fd == fd;
    }
  }

  lemma RelabelledIsTidy(cfg: Config, s: Sys, r: Sys)
    requires TableOk(cfg, s) && Relabelled(s, r)
    ensures Tidy(cfg, s, r)
  {
    forall fd ensures Held(s, fd) <==> Held(r, fd) {
      RelabelledHolds(s, r, fd);
    }
    forall e | e in r.src.watches ensures WatchOk(cfg, r, e) {
      assert WatchOk(cfg, s, e);
    }
    hide Held;
  }

  lemma SetPopulatedIsTidy(cfg: Config, s: Sys, e: Path, populated: Populated)
    requires TableOk(cfg, s)
    ensures Tidy(cfg, s, SetPopulated(s, e, populated))
  {
    hide TableOk, Tidy;
    RelabelledIsTidy(cfg, s, SetPopulated(s, e, populated));
  }

  // ----- Scanning -----

  /** What a full scan can find: a valid uid directory below a listable root with an
      openable events file. */
  predicate Watchable(cfg: Config, fs: Fs, e: Path) {
    && e.Join? && e.name == EVENTS_NAME && UnderRoot(cfg, e.parent)
    && e.parent.parent in fs.listable
    && UidDirs.ParseUidDirName(e.parent.name).Some?
    && cfg.filter.IsValidUid(UidDirs.ParseUidDirName(e.parent.name).value)
    && fs.Openable(e)
  }

  lemma {:induction false} ChildrenInAre(order: seq<Path>, root: Path, p: Path)
    ensures p in ChildrenIn(order, root) <==> p in order && p.Join? && p.parent == root
  {
    if order == [] {
    } else {
      ChildrenInAre(order[1..], root, p);
    }
  }

  lemma {:induction false} EntriesAre(fs: Fs, roots: seq<Path>, p: Path)
    ensures p in Entries(fs, roots) <==>
            p in fs.order && p.Join? && p.parent in roots && p.parent in fs.listable
  {
    if roots == [] {
    } else {
      ChildrenInAre(fs.order, roots[0], p);
      EntriesAre(fs, roots[1..], p);
    }
  }

  predicate Extends(a: Sys, b: Sys) {
    forall e | e in a.src.watches :: e in b.src.watches && b.src.watches[e] == a.src.watches[e]
  }

  /** Adding one listed directory: nothing is lost and at most its own events file is new. */
  lemma AddEntryIsTidy(cfg: Config, s: Sys, dir: Path)
    requires TableOk(cfg, s) && UnderRoot(cfg, dir)
    ensures var r := AddEntry(cfg, s, dir);
            && Tidy(cfg, s, r) && TableOk(cfg, r) && r.ker.fs == s.ker.fs
            && Extends(s, r)
            && (forall e | e in r.src.watches :: e in s.src.watches || e.parent == dir)
            && (Watchable(cfg, s.ker.fs, EventsPath(dir)) ==> EventsPath(dir) in r.src.watches)
  {
    EvolvedReflexive(cfg, s);
    if UidDirs.ParseUidDirName(dir.name).Some? {
      AddIsTidy(cfg, s, dir, UidDirs.ParseUidDirName(dir.name).value);
    }
  }

  lemma {:induction false} AddEntriesIsTidy(cfg: Config, s: Sys, dirs: seq<Path>)
    requires TableOk(cfg, s)
    requires forall d | d in dirs :: UnderRoot(cfg, d)
    ensures Tidy(cfg, s, AddEntries(cfg, s, dirs))
    ensures Extends(s, AddEntries(cfg, s, dirs))
    ensures forall e | e in AddEntries(cfg, s, dirs).src.watches :: e in s.src.watches || e.parent in dirs
    decreases |dirs|
  {
    hide Tidy, TableOk, AddEntry, UnderRoot;
    if dirs == [] {
      EvolvedReflexive(cfg, s);
    } else {
      var next := AddEntry(cfg, s, dirs[0]);
      AddEntryIsTidy(cfg, s, dirs[0]);
      AddEntriesIsTidy(cfg, next, dirs[1..]);
      TidyTransitive(cfg, s, next, AddEntries(cfg, s, dirs));
    }
  }

  lemma {:induction false} AddEntriesAddsAll(cfg: Config, s: Sys, dirs: seq<Path>, e: Path)
    requires TableOk(cfg, s)
    requires forall d | d in dirs :: UnderRoot(cfg, d)
    requires Watchable(cfg, s.ker.fs, e) && (e in s.src.watches || e.parent in dirs)
    ensures e in AddEntries(cfg, s, dirs).src.watches
    decreases |dirs|
  {
    hide Tidy, TableOk, AddEntry, UnderRoot;
    if dirs == [] {
    } else {
      AddEntryIsTidy(cfg, s, dirs[0]);
      AddEntriesAddsAll(cfg, AddEntry(cfg, s, dirs[0]), dirs[1..], e);
    }
  }

  /** A table agrees with a full scan. */
  ghost predicate Complete(cfg: Config, s: Sys) {
    && (forall e | Watchable(cfg, s.ker.fs, e) :: e in s.src.watches)
    && (forall e | e in s.src.watches :: s.ker.fs.EventsAt(e).Some?)
  }

  lemma ScanFinds(cfg: Config, s: Sys)
    requires TableOk(cfg, s) && s.ker.fs.Listed()
    ensures var r := ScanRoots(cfg, s);
            && Tidy(cfg, s, r)
            && Extends(s, r)
            && (forall e | e in r.src.watches :: e in s.src.watches || Watchable(cfg, s.ker.fs, e))
            && (forall e | Watchable(cfg, s.ker.fs, e) :: e in r.src.watches)
  {
    var dirs := Entries(s.ker.fs, cfg.roots);
    forall d ensures d in dirs ==> UnderRoot(cfg, d) && d.parent in s.ker.fs.listable
             ensures UnderRoot(cfg, d) && d.parent in s.ker.fs.listable && d in s.ker.fs.nodes ==> d in dirs {
      EntriesAre(s.ker.fs, cfg.roots, d);
    }
    AddEntriesIsTidy(cfg, s, dirs);
    forall e | e in ScanRoots(cfg, s).src.watches && e !in s.src.watches ensures Watchable(cfg, s.ker.fs, e) {
      assert Opened(cfg, s, ScanRoots(cfg, s), e);
    }
    forall e | Watchable(cfg, s.ker.fs, e) ensures e in ScanRoots(cfg, s).src.watches {
      AddEntriesAddsAll(cfg, s, dirs, e);
    }
  }

  /** Rescanning never disturbs a watch whose file still exists, drops every other one, and
      finds everything a full scan finds. */
  lemma RescanIsTidy(cfg: Config, s: Sys)
    requires TableOk(cfg, s) && s.ker.fs.Listed()
    ensures Tidy(cfg, s, RescanRoots(cfg, s)) && TableOk(cfg, RescanRoots(cfg, s))
    ensures Complete(cfg, RescanRoots(cfg, s)) && RescanRoots(cfg, s).ker.fs == s.ker.fs
    ensures Extends(Remove(s, Vanished(s)), RescanRoots(cfg, s))
    ensures forall e | e in RescanRoots(cfg, s).src.watches :: e in s.src.watches || Watchable(cfg, s.ker.fs, e)
  {
    var pruned, r := Remove(s, Vanished(s)), RescanRoots(cfg, s);
    RemoveEvolves(cfg, s, Vanished(s));
    ScanFinds(cfg, pruned);
    TidyTransitive(cfg, s, pruned, r);
    forall e | e in r.src.watches ensures r.ker.fs.EventsAt(e).Some? {
      assert e in pruned.src.watches || Opened(cfg, pruned, r, e);
    }
  }
}
