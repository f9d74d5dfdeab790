/** Parsing the output of the package manager's list command (`services/foreground/cache.rs`). */
module PackageList {
  import opened Basics
  import opened Ordering
  import opened Text
  import opened PackageIndex

  // ----- One line -----

  datatype Fields = Fields(package: Option<string>, uid: Option<nat>)

  /** A later token overrides an earlier one, but an invalid package name leaves the name
      alone while an unreadable uid erases the uid. */
  function TakeToken(fields: Fields, token: string): Fields {
    if HasPrefix(token, "package:") then
      var value := token[|"package:"|..];
      if ValidName(value, false) then fields.(package := Some(value)) else fields
    else if HasPrefix(token, "uid:") then
      fields.(uid := ParseUnsigned(token[|"uid:"|..], U32_MAX))
    else
      fields
  }

  function TakeTokens(fields: Fields, tokens: seq<string>): Fields
    decreases |tokens|
  {
    if tokens == [] then fields else TakeTokens(TakeToken(fields, tokens[0]), tokens[1..])
  }

  function ParseLine(line: string): Option<Entry> {
    match TakeTokens(Fields(None, None), Words(line))
    case Fields(Some(package), Some(uid)) => Some(Entry(package, uid, None))
    case _ => None
  }

  function ParseLines(lines: seq<string>): seq<Entry> {
    if lines == [] then []
    else Row(lines[0]) + ParseLines(lines[1..])
  }

  function Row(line: string): seq<Entry> {
    match ParseLine(line)
    case Some(e) => [e]
    case None => []
  }

  predicate PackageToken(token: string) {
    HasPrefix(token, "package:") && ValidName(token[|"package:"|..], false)
  }

  predicate UidToken(token: string) {
    HasPrefix(token, "uid:")
  }

  predicate LastSuch(p: string -> bool, tokens: seq<string>, i: nat)
    requires i < |tokens|
  {
    p(tokens[i]) && forall k | i < k < |tokens| :: !p(tokens[k])
  }

  lemma TakenToken(fields: Fields, token: string)
    ensures var r := TakeToken(fields, token);
            && r.package == (if PackageToken(token) then Some(token[|"package:"|..]) else fields.package)
            && r.uid == (if UidToken(token) then ParseUnsigned(token[|"uid:"|..], U32_MAX) else fields.uid)
  {
    if HasPrefix(token, "package:") {
      assert token[0] == "package:"[0] && "uid:"[0] != "package:"[0];
    }
  }

  lemma {:induction false} LastPackageTaken(fields: Fields, tokens: seq<string>)
    ensures (forall t | t in tokens :: !PackageToken(t)) ==> TakeTokens(fields, tokens).package == fields.package
    ensures forall i | 0 <= i < |tokens| && LastSuch(PackageToken, tokens, i) ::
              TakeTokens(fields, tokens).package == Some(tokens[i][|"package:"|..])
    decreases |tokens|
  {
    hide ValidName, TakeToken;
    if tokens == [] {
    } else {
      var rest := tokens[1..];
      TakenToken(fields, tokens[0]);
      LastPackageTaken(TakeToken(fields, tokens[0]), rest);
      forall i | 0 <= i < |tokens| && LastSuch(PackageToken, tokens, i)
        ensures TakeTokens(fields, tokens).package == Some(tokens[i][|"package:"|..])
      {
        assert forall k | 1 <= k < |tokens| :: tokens[k] == rest[k - 1];
        if i > 0 {
          assert LastSuch(PackageToken, rest, i - 1);
        }
      }
    }
  }

  lemma {:induction false} LastUidTaken(fields: Fields, tokens: seq<string>)
    ensures (forall t | t in tokens :: !UidToken(t)) ==> TakeTokens(fields, tokens).uid == fields.uid
    ensures forall i | 0 <= i < |tokens| && LastSuch(UidToken, tokens, i) ::
              TakeTokens(fields, tokens).uid == ParseUnsigned(tokens[i][|"uid:"|..], U32_MAX)
    decreases |tokens|
  {
    hide TakeToken, ParseUnsigned;
    if tokens == [] {
    } else {
      var rest := tokens[1..];
      TakenToken(fields, tokens[0]);
      LastUidTaken(TakeToken(fields, tokens[0]), rest);
      forall i | 0 <= i < |tokens| && LastSuch(UidToken, tokens, i)
        ensures TakeTokens(fields, tokens).uid == ParseUnsigned(tokens[i][|"uid:"|..], U32_MAX)
      {
        assert forall k | 1 <= k < |tokens| :: tokens[k] == rest[k - 1];
        if i > 0 {
          assert LastSuch(UidToken, rest, i - 1);
        }
      }
    }
  }

  /** The last valid package token and the last uid token of a line decide, the latter even if
      its number cannot be read; without either, or with an unreadable last uid, the line says
      nothing. */
  lemma LastTokensDecide(line: string, i: nat, j: nat)
    requires i < |Words(line)| && LastSuch(PackageToken, Words(line), i)
    requires j < |Words(line)| && LastSuch(UidToken, Words(line), j)
    ensures var uid := ParseUnsigned(Words(line)[j][|"uid:"|..], U32_MAX);
            ParseLine(line) ==
            if uid.Some? then Some(Entry(Words(line)[i][|"package:"|..], uid.value, None)) else None
  {
    LastPackageTaken(Fields(None, None), Words(line));
    LastUidTaken(Fields(None, None), Words(line));
  }

  lemma MissingTokenSaysNothing(line: string)
    requires (forall t | t in Words(line) :: !PackageToken(t)) || (forall t | t in Words(line) :: !UidToken(t))
    ensures ParseLine(line) == None
  {
    LastPackageTaken(Fields(None, None), Words(line));
    LastUidTaken(Fields(None, None), Words(line));
  }

  // ----- Sorting -----

  /** The comparison the sort uses: by package, then by uid. */
  predicate EntryLess(a: Entry, b: Entry) {
    StringLess(a.package, b.package) || (a.package == b.package && a.uid < b.uid)
  }

  ghost predicate SortedEntries(entries: seq<Entry>) {
    forall i, j | 0 <= i < j < |entries| :: !EntryLess(entries[j], entries[i])
  }

  function Insert(e: Entry, sorted: seq<Entry>): seq<Entry> {
    if sorted == [] || !EntryLess(sorted[0], e) then [e] + sorted
    else [sorted[0]] + Insert(e, sorted[1..])
  }

  function Sort(entries: seq<Entry>): seq<Entry> {
    if entries == [] then [] else Insert(entries[0], Sort(entries[1..]))
  }

  lemma {:induction false} InsertSorts(e: Entry, sorted: seq<Entry>)
    requires SortedEntries(sorted)
    ensures SortedEntries(Insert(e, sorted))
    ensures multiset(Insert(e, sorted)) == multiset{e} + multiset(sorted)
  {
    StringLessIsTotal();
    if sorted == [] {
    } else if !EntryLess(sorted[0], e) {
      forall x | x in sorted ensures !EntryLess(x, e) {
        var i :| 0 <= i < |sorted| && sorted[i] == x;
        assert i > 0 ==> !EntryLess(sorted[i], sorted[0]);
      }
    } else {
      InsertSorts(e, sorted[1..]);
      assert sorted == [sorted[0]] + sorted[1..];
      HeadStaysLeast(e, sorted, Insert(e, sorted[1..]));
    }
  }

  lemma HeadStaysLeast(e: Entry, sorted: seq<Entry>, rest: seq<Entry>)
    requires SortedEntries(sorted) && sorted != [] && EntryLess(sorted[0], e)
    requires SortedEntries(rest) && multiset(rest) == multiset{e} + multiset(sorted[1..])
    ensures SortedEntries([sorted[0]] + rest)
  {
    StringLessIsTotal();
    forall x | x in rest ensures !EntryLess(x, sorted[0]) {
      assert x in multiset(rest);
      assert x == e || x in sorted[1..];
    }
  }

  /** Sorting keeps every entry with its multiplicity and puts them in order. */
  lemma {:induction false} SortSorts(entries: seq<Entry>)
    ensures SortedEntries(Sort(entries))
    ensures multiset(Sort(entries)) == multiset(entries)
  {
    if entries == [] {
    } else {
      SortSorts(entries[1..]);
      InsertSorts(entries[0], Sort(entries[1..]));
      assert entries == [entries[0]] + entries[1..];
    }
  }

  predicate WithoutPaths(entries: seq<Entry>) {
    forall e | e in entries :: e.apk.None?
  }

  lemma HeadIsLeast(entries: seq<Entry>, e: Entry)
    requires SortedEntries(entries) && e in multiset(entries)
    ensures !EntryLess(e, entries[0])
  {
    StringLessIsTotal();
    var i :| 0 <= i < |entries| && entries[i] == e;
  }

  lemma EntryTrichotomy(a: Entry, b: Entry)
    requires !EntryLess(a, b) && !EntryLess(b, a) && a.apk == b.apk
    ensures a == b
  {
    StringLessIsTotal();
  }

  lemma HeadsAgree(a: seq<Entry>, b: seq<Entry>)
    requires a != [] && b != [] && SortedEntries(a) && SortedEntries(b) && multiset(a) == multiset(b)
    requires WithoutPaths(a)
    ensures a[0] == b[0] && WithoutPaths(b)
  {
    assert b[0] in multiset(b) && b[0] in multiset(a) && a[0] in multiset(a) && a[0] in multiset(b);
    HeadIsLeast(a, b[0]);
    HeadIsLeast(b, a[0]);
    forall e | e in b ensures e.apk.None? {
      assert e in multiset(b) && e in multiset(a);
    }
    EntryTrichotomy(a[0], b[0]);
  }

  /** Without APK paths the sorted order is unique, so any correct sort gives `Sort`. */
  lemma {:induction false} SortedIsUnique(a: seq<Entry>, b: seq<Entry>)
    requires SortedEntries(a) && SortedEntries(b) && multiset(a) == multiset(b)
    requires WithoutPaths(a)
    ensures a == b
  {
    assert |a| == |multiset(a)| == |multiset(b)| == |b|;
    if a == [] {
    } else {
      HeadsAgree(a, b);
      TailKeeps(a);
      TailKeeps(b);
      hide SortedEntries, WithoutPaths;
      SortedIsUnique(a[1..], b[1..]);
      assert a == [a[0]] + a[1..] && b == [b[0]] + b[1..];
    }
  }

  lemma TailKeeps(entries: seq<Entry>)
    requires entries != [] && SortedEntries(entries)
    ensures SortedEntries(entries[1..])
    ensures multiset(entries[1..]) == multiset(entries) - multiset{entries[0]}
    ensures WithoutPaths(entries) ==> WithoutPaths(entries[1..])
  {
    assert entries == [entries[0]] + entries[1..];
  }

  function ParseList(stdout: string): seq<Entry> {
    Sort(ParseLines(Lines(stdout)))
  }

  /** The loop over lines and tokens, followed by the sort. */
  method ParseCmdPackageListStdout(stdout: string) returns (entries: seq<Entry>)
    ensures entries == ParseList(stdout)
  {
    var lines := Lines(stdout);
    var rows: seq<Entry> := [];
    var i := 0;
    assert lines[0..] == lines && ParseLines([]) == [];
    hide ParseLines, Words, TakeTokens;
    while i < |lines|
      invariant 0 <= i <= |lines|
      invariant rows + ParseLines(lines[i..]) == ParseLines(lines)
    {
      var fields := ReadFields(lines[i]);
      ghost var before := rows;
      if fields.package.Some? && fields.uid.Some? {
        rows := rows + [Entry(fields.package.value, fields.uid.value, None)];
      }
      assert rows == before + Row(lines[i]);
      ParseLinesStep(before, lines, i);
      i := i + 1;
    }
    assert lines[i..] == [] && rows + [] == rows;
    entries := InsertionSort(rows);
  }

  lemma ParseLinesStep(rows: seq<Entry>, lines: seq<string>, i: nat)
    requires i < |lines|
    ensures rows + ParseLines(lines[i..]) == rows + Row(lines[i]) + ParseLines(lines[i + 1..])
  {
  }

  method ReadFields(line: string) returns (fields: Fields)
    ensures fields == TakeTokens(Fields(None, None), Words(line))
  {
    fields := Fields(None, None);
    var tokens := Words(line);
    var k := 0;
    while k < |tokens|
      invariant 0 <= k <= |tokens|
      invariant TakeTokens(fields, tokens[k..]) == TakeTokens(Fields(None, None), tokens)
    {
      fields := TakeToken(fields, tokens[k]);
      assert tokens[k..][1..] == tokens[k + 1..];
      k := k + 1;
    }
  }

  method InsertionSort(rows: seq<Entry>) returns (entries: seq<Entry>)
    ensures entries == Sort(rows)
  {
    entries := [];
    var i := |rows|;
    while i > 0
      invariant 0 <= i <= |rows|
      invariant entries == Sort(rows[i..])
    {
      i := i - 1;
      assert rows[i..][1..] == rows[i + 1..];
      entries := Insert(rows[i], entries);
    }
  }

  // ----- Round trip -----

  predicate ValidEntry(e: Entry) {
    ValidName(e.package, false) && e.uid <= U32_MAX && e.apk.None?
  }

  function PrintEntry(e: Entry): string {
    "package:" + e.package + " " + ("uid:" + Decimal(e.uid))
  }

  function PrintEntries(entries: seq<Entry>): seq<string> {
    if entries == [] then [] else [PrintEntry(entries[0])] + PrintEntries(entries[1..])
  }

  lemma PackageTokenRead(name: string, fields: Fields)
    requires ValidName(name, false)
    ensures TakeToken(fields, "package:" + name) == fields.(package := Some(name))
    ensures IsWord("package:" + name)
  {
    NamesArePlain(name, false);
    assert ("package:" + name)[|"package:"|..] == name;
  }

  lemma UidTokenRead(uid: nat, fields: Fields)
    requires uid <= U32_MAX
    ensures TakeToken(fields, "uid:" + Decimal(uid)) == fields.(uid := Some(uid))
    ensures IsWord("uid:" + Decimal(uid)) && PlainLine("uid:" + Decimal(uid))
  {
    var token := "uid:" + Decimal(uid);
    DigitsAreWords(Decimal(uid));
    ParsePrinted(uid, U32_MAX);
    assert token[|"uid:"|..] == Decimal(uid);
    assert token[0] == 'u' && "package:"[0] == 'p';
  }

  lemma TwoTokensTaken(start: Fields, left: string, right: string)
    requires IsWord(left) && IsWord(right)
    ensures TakeTokens(start, Words(left + " " + right)) == TakeToken(TakeToken(start, left), right)
  {
    hide TakeToken;
    WordsFirst(left, right);
    WordsOfWord(right);
    var tokens: seq<string> := [left, right];
    assert [left] + [right] == tokens && tokens[1..] == [right] && tokens[1..][1..] == [];
    var middle := TakeToken(start, left);
    assert TakeTokens(start, tokens) == TakeTokens(middle, tokens[1..]) == TakeToken(middle, right);
  }

  lemma PrintedEntryParses(e: Entry)
    requires ValidEntry(e)
    ensures ParseLine(PrintEntry(e)) == Some(e)
    ensures PlainLine(PrintEntry(e))
  {
    hide TakeToken, Words, TakeTokens, ValidName;
    var left, right := "package:" + e.package, "uid:" + Decimal(e.uid);
    var start := Fields(None, None);
    PackageTokenRead(e.package, start);
    UidTokenRead(e.uid, TakeToken(start, left));
    TwoTokensTaken(start, left, right);
    NamesArePlain(e.package, false);
    assert PrintEntry(e) == left + " " + right;
    assert PrintEntry(e)[|PrintEntry(e)| - 1] == right[|right| - 1];
  }

  lemma {:induction false} PrintedEntriesParse(entries: seq<Entry>)
    requires forall e | e in entries :: ValidEntry(e)
    ensures ParseLines(PrintEntries(entries)) == entries
    ensures forall l | l in PrintEntries(entries) :: PlainLine(l)
  {
    if entries == [] {
    } else {
      PrintedEntryParses(entries[0]);
      PrintedEntriesParse(entries[1..]);
      assert entries == [entries[0]] + entries[1..];
    }
  }

  /** Printing valid entries and parsing the text gives the same entries, sorted. */
  lemma ListRoundTrip(entries: seq<Entry>)
    requires forall e | e in entries :: ValidEntry(e)
    ensures var parsed := ParseList(Terminated(PrintEntries(entries)));
            SortedEntries(parsed) && multiset(parsed) == multiset(entries)
  {
    PrintedEntriesParse(entries);
    LinesOfTerminated(PrintEntries(entries));
    SortSorts(entries);
  }

  /** Everything the parser returns is a valid entry, so it can be printed and read back:
      parsing is idempotent on its own printed output. */
  lemma ParsedListsRoundTrip(stdout: string)
    ensures ParseList(Terminated(PrintEntries(ParseList(stdout)))) == ParseList(stdout)
  {
    var parsed := ParseList(stdout);
    ParsedEntriesAreValid(Lines(stdout));
    SortSorts(ParseLines(Lines(stdout)));
    forall e | e in parsed ensures ValidEntry(e) {
      assert e in multiset(parsed);
    }
    ListRoundTrip(parsed);
    SortedIsUnique(parsed, ParseList(Terminated(PrintEntries(parsed))));
  }

  lemma {:induction false} TokensGiveValidFields(fields: Fields, tokens: seq<string>)
    requires fields.package.Some? ==> ValidName(fields.package.value, false)
    requires fields.uid.Some? ==> fields.uid.value <= U32_MAX
    ensures var r := TakeTokens(fields, tokens);
            && (r.package.Some? ==> ValidName(r.package.value, false))
            && (r.uid.Some? ==> r.uid.value <= U32_MAX)
    decreases |tokens|
  {
    if tokens == [] {
    } else {
      TokensGiveValidFields(TakeToken(fields, tokens[0]), tokens[1..]);
    }
  }

  lemma {:induction false} ParsedEntriesAreValid(lines: seq<string>)
    ensures forall e | e in ParseLines(lines) :: ValidEntry(e)
  {
    if lines == [] {
    } else {
      TokensGiveValidFields(Fields(None, None), Words(lines[0]));
      ParsedEntriesAreValid(lines[1..]);
    }
  }

  /** The index built from a parsed list maps each package to the largest uid listed for it. */
  lemma ParsedIndexKeepsLargestUid(stdout: string, coherent: bool, package: string)
    ensures var entries := ParseLines(Lines(stdout));
            var uids := IndexFor(Snapshot(ParseList(stdout), coherent)).packageToUid;
            && (package in uids <==> exists e :: e in entries && e.package == package)
            && (package in uids ==>
                  && (exists e :: e in entries && e.package == package && e.uid == uids[package])
                  && forall e | e in entries && e.package == package :: e.uid <= uids[package])
  {
    var entries, sorted := ParseLines(Lines(stdout)), ParseList(stdout);
    SortSorts(entries);
    assert forall e :: e in sorted <==> e in multiset(sorted);
    assert forall e :: e in entries <==> e in multiset(entries);
    RecordsComeFromEntries(sorted, package);
    if package in Fill(sorted).uids {
      var i := LastIndex(sorted, package);
      LastEntryWins(sorted, i);
      forall e | e in entries && e.package == package ensures e.uid <= sorted[i].uid {
        LastHasLargestUid(sorted, i, e);
      }
    }
  }

  lemma LastHasLargestUid(sorted: seq<Entry>, i: nat, e: Entry)
    requires SortedEntries(sorted) && i < |sorted| && e in sorted && e.package == sorted[i].package
    requires forall j | i < j < |sorted| :: sorted[j].package != sorted[i].package
    ensures e.uid <= sorted[i].uid
  {
  }

  ghost function LastIndex(entries: seq<Entry>, package: string): (i: nat)
    requires exists e :: e in entries && e.package == package
    ensures i < |entries| && entries[i].package == package
    ensures forall j | i < j < |entries| :: entries[j].package != package
  {
    var last := |entries| - 1;
    if entries[last].package == package then last
    else
      assert entries == entries[..last] + [entries[last]];
      LastIndex(entries[..last], package)
  }
}
