/** The uid/package index (`services/foreground/cache.rs`) and the package-list parser
    that feeds it. */
module PackageIndex {
  import opened Basics
  import opened Ordering

  datatype Entry = Entry(package: string, uid: nat, apk: Option<string>)

  datatype Snapshot = Snapshot(entries: seq<Entry>, coherent: bool)

  datatype UidState = Exact(package: string) | Missing | Ambiguous(packages: seq<string>)

  /** The value of a `UidPackageCache`. */
  datatype Index = Index(
    uidToPackages: map<nat, seq<string>>,
    packageToUid: map<string, nat>,
    packageToApk: map<string, string>,
    filled: bool,
    coherent: bool)
  {
    /** `UidPackageCache::uid_state`. */
    function UidState(uid: nat): UidState {
      if uid in uidToPackages && |uidToPackages[uid]| == 1 then Exact(uidToPackages[uid][0])
      else if uid in uidToPackages && |uidToPackages[uid]| > 1 then Ambiguous(uidToPackages[uid])
      else Missing
    }
  }

  const EmptyIndex := Index(map[], map[], map[], false, false)

  // ----- What an entry list says -----

  function PackagesOf(entries: seq<Entry>, uid: nat): set<string> {
    set e | e in entries && e.uid == uid :: e.package
  }

  function SortedPackages(packages: set<string>): (r: seq<string>)
    ensures forall p :: p in r <==> p in packages
    ensures Ascending(StringLess, r)
  {
    StringLessIsTotal();
    Sorted(StringLess, packages)
  }

  function InsertUid(m: map<string, nat>, entry: Entry): map<string, nat> {
    m[entry.package := entry.uid]
  }

  function InsertApk(m: map<string, string>, entry: Entry): map<string, string> {
    if entry.apk.Some? then m[entry.package := entry.apk.value] else m
  }

  function InsertPackage(m: map<nat, set<string>>, entry: Entry): map<nat, set<string>> {
    var packages := if entry.uid in m then m[entry.uid] else {};
    m[entry.uid := packages + {entry.package}]
  }

  /** The three maps after inserting the entries one by one. */
  datatype Tables = Tables(uids: map<string, nat>, apks: map<string, string>, packages: map<nat, set<string>>)

  function Fill(entries: seq<Entry>): Tables {
    if entries == [] then Tables(map[], map[], map[])
    else
      var t := Fill(entries[..|entries| - 1]);
      var entry := entries[|entries| - 1];
      Tables(InsertUid(t.uids, entry), InsertApk(t.apks, entry), InsertPackage(t.packages, entry))
  }

  function Lists(packages: map<nat, set<string>>): map<nat, seq<string>> {
    map u | u in packages :: SortedPackages(packages[u])
  }

  /** The index a snapshot determines. */
  function IndexFor(snapshot: Snapshot): Index {
    var t := Fill(snapshot.entries);
    Index(Lists(t.packages), t.uids, t.apks, true, snapshot.coherent)
  }

  // ----- The mutable cache -----

  class UidPackageCache {
    var uidToPackages: map<nat, seq<string>>
    var packageToUid: map<string, nat>
    var packageToApk: map<string, string>
    var filled: bool
    var coherent: bool

    constructor ()
      ensures View() == EmptyIndex
    {
      uidToPackages, packageToUid, packageToApk := map[], map[], map[];
      filled, coherent := false, false;
    }

    function View(): Index
      reads this
    {
      Index(uidToPackages, packageToUid, packageToApk, filled, coherent)
    }

    /** Whatever the cache held before, it now is the index of the snapshot. */
    method UpdateFromSnapshot(snapshot: Snapshot)
      modifies this
      ensures View() == IndexFor(snapshot)
    {
      uidToPackages, packageToUid, packageToApk := map[], map[], map[];
      filled, coherent := true, snapshot.coherent;
      var entries := snapshot.entries;
      var uidPackages: map<nat, set<string>> := map[];
      for i := 0 to |entries|
        invariant uidToPackages == map[] && filled && coherent == snapshot.coherent
        invariant Fill(entries[..i]) == Tables(packageToUid, packageToApk, uidPackages)
      {
        var entry := entries[i];
        assert entries[..i + 1][..i] == entries[..i];
        packageToUid := InsertUid(packageToUid, entry);
        packageToApk := InsertApk(packageToApk, entry);
        uidPackages := InsertPackage(uidPackages, entry);
      }
      assert entries[..|entries|] == entries;
      StoreLists(uidPackages);
    }

    method StoreLists(uidPackages: map<nat, set<string>>)
      requires uidToPackages == map[]
      modifies this`uidToPackages
      ensures uidToPackages == Lists(uidPackages)
    {
      var rest := uidPackages.Keys;
      while rest != {}
        invariant rest <= uidPackages.Keys
        invariant uidToPackages.Keys == uidPackages.Keys - rest
        invariant forall u | u in uidToPackages :: uidToPackages[u] == SortedPackages(uidPackages[u])
      {
        var uid :| uid in rest;
        uidToPackages := uidToPackages[uid := SortedPackages(uidPackages[uid])];
        rest := rest - {uid};
      }
    }
  }

  // ----- What the maps record -----

  lemma {:induction false} FilledPackages(entries: seq<Entry>, uid: nat)
    ensures uid in Fill(entries).packages <==> PackagesOf(entries, uid) != {}
    ensures uid in Fill(entries).packages ==> Fill(entries).packages[uid] == PackagesOf(entries, uid)
  {
    if entries == [] {
    } else {
      var init, last := entries[..|entries| - 1], entries[|entries| - 1];
      FilledPackages(init, uid);
      assert entries == init + [last];
      assert PackagesOf(entries, uid) ==
             PackagesOf(init, uid) + (if last.uid == uid then {last.package} else {});
    }
  }

  /** The last entry for a package decides its uid. */
  lemma {:induction false} LastEntryWins(entries: seq<Entry>, i: nat)
    requires i < |entries| && forall j | i < j < |entries| :: entries[j].package != entries[i].package
    ensures entries[i].package in Fill(entries).uids
    ensures Fill(entries).uids[entries[i].package] == entries[i].uid
  {
    var init := entries[..|entries| - 1];
    if i < |entries| - 1 {
      LastEntryWins(init, i);
    }
  }

  /** The last entry with an APK path for a package decides its path. */
  lemma {:induction false} LastPathWins(entries: seq<Entry>, i: nat)
    requires i < |entries| && entries[i].apk.Some?
    requires forall j | i < j < |entries| :: entries[j].package == entries[i].package ==> entries[j].apk.None?
    ensures entries[i].package in Fill(entries).apks
    ensures Fill(entries).apks[entries[i].package] == entries[i].apk.value
  {
    var init := entries[..|entries| - 1];
    if i < |entries| - 1 {
      LastPathWins(init, i);
    }
  }

  /** Every recorded uid and path comes from an entry, so unlisted packages are absent. */
  lemma {:induction false} RecordsComeFromEntries(entries: seq<Entry>, package: string)
    ensures package in Fill(entries).uids <==> exists e :: e in entries && e.package == package
    ensures package in Fill(entries).uids ==>
              exists e :: e in entries && e.package == package && e.uid == Fill(entries).uids[package]
    ensures package in Fill(entries).apks <==>
              exists e :: e in entries && e.package == package && e.apk.Some?
  {
    if entries == [] {
    } else {
      var init, last := entries[..|entries| - 1], entries[|entries| - 1];
      RecordsComeFromEntries(init, package);
      assert entries == init + [last];
      assert last in entries;
    }
  }

  // ----- What the index means -----

  /** A uid's list is strictly ascending and holds exactly the packages listed with it. */
  lemma UidListsAreExact(snapshot: Snapshot, uid: nat)
    ensures var lists := IndexFor(snapshot).uidToPackages;
            && (uid in lists <==> exists e :: e in snapshot.entries && e.uid == uid)
            && (uid in lists ==>
                  && Ascending(StringLess, lists[uid])
                  && forall p :: p in lists[uid]
                       <==> exists e :: e in snapshot.entries && e.uid == uid && e.package == p)
  {
    FilledPackages(snapshot.entries, uid);
    if e :| e in snapshot.entries && e.uid == uid {
      assert e.package in PackagesOf(snapshot.entries, uid);
    }
  }

  /** Looking up a uid tells how many distinct packages the snapshot lists for it. */
  lemma UidStateCountsPackages(snapshot: Snapshot, uid: nat)
    ensures var packages := PackagesOf(snapshot.entries, uid);
            match IndexFor(snapshot).UidState(uid)
            case Exact(p) => packages == {p}
            case Missing => packages == {}
            case Ambiguous(ps) =>
              |ps| > 1 && Ascending(StringLess, ps) && forall p :: p in ps <==> p in packages
  {
    var packages := PackagesOf(snapshot.entries, uid);
    FilledPackages(snapshot.entries, uid);
    if packages != {} {
      var p :| p in packages;
      var ps := SortedPackages(packages);
      assert p in ps;
      if |ps| == 1 {
        assert forall p :: p in packages ==> p in ps;
      }
    }
  }

  /** Conversely the number of distinct packages decides the answer. */
  lemma PackagesDecideUidState(snapshot: Snapshot, uid: nat)
    ensures var packages := PackagesOf(snapshot.entries, uid);
            var state := IndexFor(snapshot).UidState(uid);
            && (state.Exact? <==> |packages| == 1)
            && (state.Missing? <==> |packages| == 0)
            && (state.Ambiguous? <==> |packages| > 1)
  {
    UidStateCountsPackages(snapshot, uid);
    var packages := PackagesOf(snapshot.entries, uid);
    match IndexFor(snapshot).UidState(uid)
    case Exact(p) =>
    case Missing =>
    case Ambiguous(ps) =>
      StringLessIsTotal();
      assert StringLess(ps[0], ps[1]);
      assert ps[0] in packages && ps[1] in packages && ps[0] != ps[1];
      assert {ps[0], ps[1]} <= packages;
      CardinalityOfSubset({ps[0], ps[1]}, packages);
  }

  lemma {:induction false} CardinalityOfSubset<T>(a: set<T>, b: set<T>)
    requires a <= b
    ensures |a| <= |b|
  {
    if a == {} {
    } else {
      var x :| x in a;
      CardinalityOfSubset(a - {x}, b - {x});
    }
  }

  ghost predicate SingleUid(entries: seq<Entry>) {
    forall a, b | a in entries && b in entries && a.package == b.package :: a.uid == b.uid
  }

  /** The two maps list the same pairs. */
  ghost predicate MutuallyInverse(index: Index) {
    forall p, u ::
      (p in index.packageToUid && index.packageToUid[p] == u)
      <==> (u in index.uidToPackages && p in index.uidToPackages[u])
  }

  /** uid-to-package and package-to-uid are mutual inverses exactly when no package is
      listed with two uids. */
  lemma InverseIffSingleUid(snapshot: Snapshot)
    ensures MutuallyInverse(IndexFor(snapshot)) <==> SingleUid(snapshot.entries)
  {
    var entries, index := snapshot.entries, IndexFor(snapshot);
    forall e | e in entries
      ensures e.uid in index.uidToPackages && e.package in index.uidToPackages[e.uid]
    {
      FilledPackages(entries, e.uid);
      assert e.package in PackagesOf(entries, e.uid);
    }
    forall p ensures p in index.packageToUid <==> exists e :: e in entries && e.package == p
             ensures p in index.packageToUid ==>
                       exists e :: e in entries && e.package == p && e.uid == index.packageToUid[p] {
      RecordsComeFromEntries(entries, p);
    }
    if MutuallyInverse(index) {
      forall a, b | a in entries && b in entries && a.package == b.package ensures a.uid == b.uid {
        assert index.packageToUid[a.package] == a.uid;
        assert index.packageToUid[b.package] == b.uid;
      }
    }
    if SingleUid(entries) {
      forall p, u
        ensures (p in index.packageToUid && index.packageToUid[p] == u)
                <==> (u in index.uidToPackages && p in index.uidToPackages[u])
      {
        if p in index.packageToUid && index.packageToUid[p] == u {
          var e :| e in entries && e.package == p && e.uid == index.packageToUid[p];
        }
        if u in index.uidToPackages && p in index.uidToPackages[u] {
          FilledPackages(entries, u);
          var e :| e in entries && e.uid == u && e.package == p;
        }
      }
    }
  }
}
