/** Names of per-uid cgroup directories (`parse_uid_dir_name`) and the uid arithmetic behind them. */
module UidDirs {
  import opened Basics
  import opened Text

  /** `str::split_once`: cut at the first occurrence of a nonempty separator. */
  function SplitOnce(t: string, separator: string): Option<(string, string)> {
    if HasPrefix(t, separator) then Some(("", t[|separator|..]))
    else if t == "" then None
    else
      match SplitOnce(t[1..], separator)
      case None => None
      case Some((left, right)) => Some(([t[0]] + left, right))
  }

  /** The uid a directory name stands for: `uid_<n>`, or `u<user>_a<app>`. */
  function ParseUidDirName(name: string): (uid: Option<nat>)
    ensures uid.Some? ==> uid.value <= U32_MAX
  {
    if HasPrefix(name, "uid_") then ParseUnsigned(name[4..], U32_MAX)
    else if !HasPrefix(name, "u") then None
    else
      match SplitOnce(name[1..], "_a")
      case None => None
      case Some((userText, appText)) =>
        var user, app := ParseUnsigned(userText, U32_MAX), ParseUnsigned(appText, U32_MAX);
        if user.None? || app.None? then None else AppUid(user.value, app.value)
  }

  /** The checked multiplication and additions, in the order they are made. */
  function AppUid(user: nat, app: nat): (uid: Option<nat>)
    ensures uid.Some? ==> uid.value <= U32_MAX
  {
    if user * 100_000 > U32_MAX then None
    else if user * 100_000 + 10_000 > U32_MAX then None
    else if user * 100_000 + 10_000 + app > U32_MAX then None
    else Some(user * 100_000 + 10_000 + app)
  }

  /** `UidRemainderFilter`. */
  datatype RemainderFilter = RemainderFilter(modulus: nat, minRemainder: nat)
  {
    predicate Accepts(uid: nat) {
      modulus != 0 && uid % modulus >= minRemainder
    }
  }

  lemma {:induction false} SplitOnceAfterDigits(digits: string, rest: string)
    requires AllDigits(digits)
    ensures SplitOnce(digits + "_a" + rest, "_a") == Some((digits, rest))
  {
    var t := digits + "_a" + rest;
    if digits == "" {
      assert t == "_a" + rest && t[2..] == rest;
    } else {
      assert digits[0] in digits && IsDigit(digits[0]) && t[0] == digits[0];
      assert !HasPrefix(t, "_a") by { assert "_a"[0] == '_'; }
      assert forall c | c in digits[1..] :: c in digits;
      SplitOnceAfterDigits(digits[1..], rest);
      assert t[1..] == digits[1..] + "_a" + rest;
      assert digits == [digits[0]] + digits[1..];
    }
  }

  /** A name `u<user>_a<app>` is not taken for `uid_<n>` and is cut in the right place. */
  lemma UserAppNameSplits(user: string, app: string)
    requires user != "" && AllDigits(user)
    ensures var name := "u" + (user + "_a" + app);
            && !HasPrefix(name, "uid_") && HasPrefix(name, "u")
            && SplitOnce(name[1..], "_a") == Some((user, app))
  {
    var name := "u" + (user + "_a" + app);
    SplitOnceAfterDigits(user, app);
    assert name[1..] == user + "_a" + app;
    assert user[0] in user && name[1] == user[0];
    assert "uid_"[1] == 'i';
  }

  /** `u<user>_a<app>` names its uid exactly when that uid fits 32 bits. */
  lemma UserAppNameParses(user: nat, app: nat)
    ensures var uid := user * 100_000 + 10_000 + app;
            ParseUidDirName("u" + (Decimal(user) + "_a" + Decimal(app))) ==
            if uid <= U32_MAX then Some(uid) else None
  {
    UserAppNameSplits(Decimal(user), Decimal(app));
    SplitNameParses("u" + (Decimal(user) + "_a" + Decimal(app)), user, app);
  }

  lemma SplitNameParses(name: string, user: nat, app: nat)
    requires !HasPrefix(name, "uid_") && HasPrefix(name, "u")
    requires SplitOnce(name[1..], "_a") == Some((Decimal(user), Decimal(app)))
    ensures ParseUidDirName(name) ==
            if user * 100_000 + 10_000 + app <= U32_MAX then Some(user * 100_000 + 10_000 + app) else None
  {
    ParsePrinted(user, U32_MAX);
    ParsePrinted(app, U32_MAX);
  }

  /** `uid_<n>` names `n` exactly when it fits 32 bits. */
  lemma UidNameParses(uid: nat)
    ensures ParseUidDirName("uid_" + Decimal(uid)) == if uid <= U32_MAX then Some(uid) else None
  {
    assert ("uid_" + Decimal(uid))[4..] == Decimal(uid);
    ParsePrinted(uid, U32_MAX);
  }

  lemma {:induction false} SplitOnceRejoins(t: string, separator: string)
    requires SplitOnce(t, separator).Some?
    ensures var (left, right) := SplitOnce(t, separator).value; t == left + separator + right
  {
    if HasPrefix(t, separator) {
      assert "" + separator == separator && t == separator + t[|separator|..];
    } else {
      SplitOnceRejoins(t[1..], separator);
      var (left, right) := SplitOnce(t[1..], separator).value;
      hide SplitOnce;
      assert t == [t[0]] + (left + separator + right);
      ConcatAssociative([t[0]], left + separator, right);
      ConcatAssociative([t[0]], left, separator);
    }
  }

  ghost predicate NumberName(name: string, uid: nat) {
    exists text :: name == "uid_" + text && ParseUnsigned(text, 0xFFFF_FFFF) == Some(uid)
  }

  ghost predicate UserAppName(name: string, uid: nat) {
    exists user, app ::
      && name == "u" + (user + "_a" + app)
      && ParseUnsigned(user, 0xFFFF_FFFF).Some? && ParseUnsigned(app, 0xFFFF_FFFF).Some?
      && uid == ParseUnsigned(user, 0xFFFF_FFFF).value * 100_000 + 10_000 + ParseUnsigned(app, 0xFFFF_FFFF).value
  }

  /** No other names stand for a uid: it is `uid_` and a number, or `u`, a number, `_a` and a
      number, and never more than 32 bits. */
  lemma OnlyUidNames(name: string)
    requires ParseUidDirName(name).Some?
    ensures ParseUidDirName(name).value <= 0xFFFF_FFFF
    ensures NumberName(name, ParseUidDirName(name).value) || UserAppName(name, ParseUidDirName(name).value)
  {
    hide ParseUnsigned, SplitOnce;
    if HasPrefix(name, "uid_") {
      assert name == "uid_" + name[4..];
    } else {
      SplitOnceRejoins(name[1..], "_a");
      var (user, app) := SplitOnce(name[1..], "_a").value;
      assert name == "u" + name[1..];
      assert name == "u" + (user + "_a" + app);
    }
  }

  /** Division by 100000 recovers user and app exactly for app numbers below 90000. */
  lemma UserAndAppRecovered(user: nat, app: nat)
    ensures var uid := user * 100_000 + 10_000 + app;
            (uid / 100_000 == user && uid % 100_000 == 10_000 + app) <==> app < 90_000
  {
  }

  /** The application filter accepts such a uid exactly when the app number, taken modulo
      100000, is below 90000; in particular for every app number below 90000. */
  lemma FilterAcceptsApps(user: nat, app: nat)
    ensures RemainderFilter(100_000, 10_000).Accepts(user * 100_000 + 10_000 + app)
            <==> app % 100_000 < 90_000
  {
  }
}
