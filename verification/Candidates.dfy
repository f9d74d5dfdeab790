/** Foreground candidates and the uid/package filter (`services/foreground/source.rs`). */
module Candidates {
  import opened Basics
  import opened PackageIndex
  import UidDirs

  datatype SourceKind = CgroupV1 | CgroupV2 | ActivityManager | Auto | Cleared

  datatype Candidate = Candidate(
    source: SourceKind,
    pid: Option<int>,
    uid: Option<nat>,
    package: Option<string>,
    identityResolved: bool)

  const FIRST_APP_UID: nat := 10_000

  datatype Filter = Filter(
    blockedUids: set<nat>,
    accessibilityUids: set<nat>,
    blockedPackages: set<string>,
    allowSystemUids: bool,
    remainder: Option<UidDirs.RemainderFilter>)
  {
    predicate IsValidUid(uid: nat) {
      && uid !in blockedUids
      && uid !in accessibilityUids
      && (remainder.Some? ==> remainder.value.Accepts(uid))
      && (allowSystemUids || uid >= FIRST_APP_UID)
    }

    /** `ForegroundCandidateFilter::candidate_for_uid`. */
    function CandidateForUid(source: SourceKind, pid: Option<int>, uid: nat, cache: Option<Index>)
      : Option<Candidate>
    {
      if !IsValidUid(uid) then None
      else if cache.None? then Some(Candidate(source, pid, Some(uid), None, false))
      else
        match cache.value.UidState(uid)
        case Exact(package) =>
          if package in blockedPackages then None
          else Some(Candidate(source, pid, Some(uid), Some(package), true))
        case Ambiguous(_) => None
        case Missing => Some(Candidate(source, pid, Some(uid), None, false))
    }

    /** What every published candidate must satisfy, whatever its source. */
    ghost predicate Admits(c: Candidate) {
      && c.uid.Some? && IsValidUid(c.uid.value)
      && c.package.Some? && c.package.value !in blockedPackages
      && c.identityResolved
    }
  }

  /** Which uids are valid: neither blocked nor an accessibility service's, in the wanted
      remainder class if there is one, and an application's unless system uids are allowed. */
  lemma ValidUidMeans(filter: Filter, uid: nat)
    ensures filter.IsValidUid(uid) <==>
            && uid !in filter.blockedUids && uid !in filter.accessibilityUids
            && (match filter.remainder
                case None => true
                case Some(f) => f.modulus > 0 && uid % f.modulus >= f.minRemainder)
            && (uid >= 10_000 || filter.allowSystemUids)
  {
  }

  /** What the shared filter makes of a uid: nothing if it is not valid, its one package unless
      that is blocked, nothing if there are several, and a nameless candidate if there is none or
      no cache to ask. */
  lemma FilterCandidateMeans(filter: Filter, source: SourceKind, pid: Option<int>, uid: nat, cache: Option<Index>)
    ensures var listed :=
              if cache.Some? && uid in cache.value.uidToPackages then cache.value.uidToPackages[uid] else [];
            filter.CandidateForUid(source, pid, uid, cache) ==
            if !filter.IsValidUid(uid) || |listed| > 1 then None
            else if |listed| == 0 then Some(Candidate(source, pid, Some(uid), None, false))
            else if listed[0] in filter.blockedPackages then None
            else Some(Candidate(source, pid, Some(uid), Some(listed[0]), true))
  {
  }
}
