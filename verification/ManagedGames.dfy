/** The managed game downscale file (`game.rs`): a tab-separated table with legacy rows. */
module ManagedGames {
  import opened Basics
  import opened Ordering
  import opened Text

  datatype Downscale = Downscale(package: string, overlayHash: string, appliedMs: nat)

  type Table = map<string, Downscale>

  predicate LegacyMode(mode: string) {
    mode == "standard" || mode == "performance" || mode == "battery"
  }

  predicate ValidHash(hash: string) {
    hash != "" && forall c | c in hash :: IsHexDigit(c)
  }

  function RowOf(package: string, hash: string, time: string): Option<Downscale> {
    if !ValidName(package, true) || !ValidHash(hash) then None
    else
      match ParseUnsigned(time, U64_MAX)
      case None => None
      case Some(ms) => Some(Downscale(package, hash, ms))
  }

  /** A row has three columns, or four when the second is a legacy mode. */
  function ParseRow(line: string): Option<Downscale> {
    var columns := Split(line, '\t');
    if |columns| == 3 then RowOf(columns[0], columns[1], columns[2])
    else if |columns| == 4 && LegacyMode(columns[1]) then RowOf(columns[0], columns[2], columns[3])
    else None
  }

  function Store(table: Table, row: Option<Downscale>): Table {
    match row
    case None => table
    case Some(d) => table[d.package := d]
  }

  function StoreLines(table: Table, lines: seq<string>): Table
    decreases |lines|
  {
    if lines == [] then table else StoreLines(Store(table, ParseRow(lines[0])), lines[1..])
  }

  function Parse(text: string): Table {
    StoreLines(map[], Lines(text))
  }

  function PrintRow(d: Downscale): string {
    d.package + "\t" + (d.overlayHash + "\t" + Decimal(d.appliedMs))
  }

  function PrintRows(table: Table, packages: seq<string>): (rows: seq<string>)
    requires forall p | p in packages :: p in table
    ensures |rows| == |packages|
    ensures forall i | 0 <= i < |rows| :: rows[i] == PrintRow(table[packages[i]])
  {
    if packages == [] then [] else [PrintRow(table[packages[0]])] + PrintRows(table, packages[1..])
  }

  /** The packages of a table in the order an ordered map iterates them. */
  function Packages(table: Table): (r: seq<string>)
    ensures forall p :: p in r <==> p in table
    ensures Ascending(StringLess, r)
  {
    StringLessIsTotal();
    Sorted(StringLess, table.Keys)
  }

  function Print(table: Table): string {
    Terminated(PrintRows(table, Packages(table)))
  }

  // ----- The loops of the source -----

  method ParseManagedGameDownscales(text: string) returns (table: Table)
    ensures table == Parse(text)
  {
    table := map[];
    var lines := Lines(text);
    var i := 0;
    while i < |lines|
      invariant 0 <= i <= |lines|
      invariant StoreLines(table, lines[i..]) == Parse(text)
    {
      assert lines[i..][1..] == lines[i + 1..];
      table := Store(table, ParseRow(lines[i]));
      i := i + 1;
    }
  }

  method WriteManagedGameDownscales(table: Table) returns (text: string)
    ensures text == Print(table)
  {
    text := WriteEntries(table, Packages(table), PrintRows(table, Packages(table)));
  }

  method WriteEntries(table: Table, packages: seq<string>, ghost rows: seq<string>) returns (text: string)
    requires |rows| == |packages| && forall p | p in packages :: p in table
    requires forall i | 0 <= i < |rows| :: rows[i] == PrintRow(table[packages[i]])
    ensures text == Terminated(rows)
  {
    text := "";
    var i := 0;
    while i < |packages|
      invariant 0 <= i <= |packages|
      invariant text + Terminated(rows[i..]) == Terminated(rows)
    {
      TerminatedStep(text, rows, i);
      text := PushRow(text, table[packages[i]]);
      i := i + 1;
    }
    assert rows[i..] == [];
  }

  method PushRow(text: string, d: Downscale) returns (r: string)
    ensures r == text + (PrintRow(d) + "\n")
  {
    r := text + (PrintRow(d) + "\n");
  }

  lemma TerminatedStep(text: string, rows: seq<string>, i: nat)
    requires i < |rows|
    ensures text + Terminated(rows[i..]) == (text + (rows[i] + "\n")) + Terminated(rows[i + 1..])
  {
  }

  // ----- Round trips -----

  ghost predicate WellFormed(d: Downscale) {
    ValidName(d.package, true) && ValidHash(d.overlayHash) && d.appliedMs <= U64_MAX
  }

  ghost predicate WellFormedTable(table: Table) {
    forall p | p in table :: table[p].package == p && WellFormed(table[p])
  }

  lemma ThreeColumns(a: string, b: string, c: string)
    requires '\t' !in a && '\t' !in b && '\t' !in c
    ensures Split(a + "\t" + (b + "\t" + c), '\t') == [a, b, c]
  {
    SplitWhole(c, '\t');
    SplitFirst(b, '\t', c);
    SplitFirst(a, '\t', b + "\t" + c);
  }

  lemma PrintedRowParses(d: Downscale)
    requires WellFormed(d)
    ensures ParseRow(PrintRow(d)) == Some(d)
    ensures PlainLine(PrintRow(d))
  {
    var digits := Decimal(d.appliedMs);
    NamesArePlain(d.package, true);
    DigitsAreWords(digits);
    ThreeColumns(d.package, d.overlayHash, digits);
    ParsePrinted(d.appliedMs, U64_MAX);
    assert PrintRow(d)[|PrintRow(d)| - 1] == digits[|digits| - 1];
  }

  lemma {:induction false} PrintedRowsParse(table: Table, packages: seq<string>, start: Table, q: string)
    requires WellFormedTable(table)
    requires forall p | p in packages :: p in table
    ensures Lookup(StoreLines(start, PrintRows(table, packages)), q) ==
            if q in packages then Some(table[q]) else Lookup(start, q)
    decreases |packages|
  {
    if packages == [] {
    } else {
      var p, rest := packages[0], packages[1..];
      PrintedRowParses(table[p]);
      PrintedRowsParse(table, rest, start[p := table[p]], q);
      var rows := PrintRows(table, packages);
      assert rows[0] == PrintRow(table[p]) && rows[1..] == PrintRows(table, rest);
    }
  }

  lemma LookupDetermines(a: Table, b: Table)
    requires forall q :: Lookup(a, q) == Lookup(b, q)
    ensures a == b
  {
    assert forall q :: q in a <==> Lookup(a, q).Some?;
    assert forall q :: q in b <==> Lookup(b, q).Some?;
    assert forall q | q in a :: a[q] == Lookup(a, q).value;
    assert forall q | q in b :: b[q] == Lookup(b, q).value;
  }

  lemma PrintedRowsAreLines(table: Table, packages: seq<string>)
    requires WellFormedTable(table)
    requires forall p | p in packages :: p in table
    ensures forall l | l in PrintRows(table, packages) :: PlainLine(l)
  {
    var rows := PrintRows(table, packages);
    forall i | 0 <= i < |rows| ensures PlainLine(rows[i]) {
      PrintedRowParses(table[packages[i]]);
    }
  }

  /** Reading back a written table gives the table. */
  lemma WrittenTableParses(table: Table)
    requires WellFormedTable(table)
    ensures Parse(Print(table)) == table
  {
    var packages := Packages(table);
    var rows := PrintRows(table, packages);
    PrintedRowsAreLines(table, packages);
    LinesOfTerminated(rows);
    forall q ensures Lookup(StoreLines(map[], rows), q) == Lookup(table, q) {
      PrintedRowsParse(table, packages, map[], q);
    }
    LookupDetermines(StoreLines(map[], rows), table);
  }

  lemma {:induction false} StoredTablesAreWellFormed(table: Table, lines: seq<string>)
    requires WellFormedTable(table)
    ensures WellFormedTable(StoreLines(table, lines))
    decreases |lines|
  {
    if lines == [] {
    } else {
      StoredTablesAreWellFormed(Store(table, ParseRow(lines[0])), lines[1..]);
    }
  }

  /** For every text at all, one parse-and-write cycle reaches a fixed point. */
  lemma ParseWriteParse(text: string)
    ensures WellFormedTable(Parse(text))
    ensures Parse(Print(Parse(text))) == Parse(text)
  {
    StoredTablesAreWellFormed(map[], Lines(text));
    WrittenTableParses(Parse(text));
  }

  /** Different tables are written differently. */
  lemma WritingIsInjective(a: Table, b: Table)
    requires WellFormedTable(a) && WellFormedTable(b) && Print(a) == Print(b)
    ensures a == b
  {
    WrittenTableParses(a);
    WrittenTableParses(b);
  }

  // ----- Legacy rows and repeated packages -----

  /** Which three-column rows count, by their characters, and what they say. */
  lemma RowByChars(package: string, hash: string, time: string)
    requires forall s | s in [package, hash, time] :: '\t' !in s
    ensures ParseRow(package + "\t" + (hash + "\t" + time)) ==
            if && '.' in package && SegmentsByChars(package, true)
               && hash != "" && (forall c | c in hash :: '0' <= c <= '9' || 'a' <= c <= 'f' || 'A' <= c <= 'F')
               && ParseUnsigned(time, 0xFFFF_FFFF_FFFF_FFFF).Some?
            then Some(Downscale(package, hash, ParseUnsigned(time, 0xFFFF_FFFF_FFFF_FFFF).value))
            else None
  {
    var all := [package, hash, time];
    assert package in all && hash in all && time in all;
    ThreeColumns(package, hash, time);
    NameByChars(package, true);
  }

  /** A row with fewer than three or more than four columns says nothing. */
  lemma OtherRowsIgnored(line: string)
    requires |Split(line, '\t')| != 3 && |Split(line, '\t')| != 4
    ensures ParseRow(line) == None
  {
  }

  /** A four-column row of a known mode means the same as the row without its mode; a
      four-column row of any other mode means nothing. */
  lemma LegacyRowNormalises(package: string, mode: string, hash: string, time: string)
    requires forall s | s in [package, mode, hash, time] :: '\t' !in s
    ensures ParseRow(package + "\t" + (mode + "\t" + (hash + "\t" + time))) ==
            if mode == "standard" || mode == "performance" || mode == "battery"
            then ParseRow(package + "\t" + (hash + "\t" + time)) else None
  {
    var all := [package, mode, hash, time];
    assert package in all && mode in all && hash in all && time in all;
    ThreeColumns(mode, hash, time);
    ThreeColumns(package, hash, time);
    SplitFirst(package, '\t', mode + "\t" + (hash + "\t" + time));
  }

  /** `row` is what the table says about `package`: its last valid row, if there is one. */
  ghost predicate LastRow(lines: seq<string>, package: string, row: Option<Downscale>) {
    match row
    case None =>
      forall i | 0 <= i < |lines| :: ParseRow(lines[i]).Some? ==> ParseRow(lines[i]).value.package != package
    case Some(d) =>
      d.package == package && exists i :: LastRowAt(lines, d, i)
  }

  ghost predicate LastRowAt(lines: seq<string>, d: Downscale, i: int) {
    && 0 <= i < |lines| && ParseRow(lines[i]) == Some(d)
    && forall j | i < j < |lines| :: ParseRow(lines[j]).Some? ==> ParseRow(lines[j]).value.package != d.package
  }

  function Lookup(table: Table, package: string): Option<Downscale> {
    if package in table then Some(table[package]) else None
  }

  lemma {:induction false} LastRowStored(table: Table, lines: seq<string>, package: string)
    ensures var r := Lookup(StoreLines(table, lines), package);
            if LastRow(lines, package, None) then r == Lookup(table, package)
            else r.Some? && LastRow(lines, package, r)
    decreases |lines|
  {
    if lines == [] {
    } else {
      var next, rest := Store(table, ParseRow(lines[0])), lines[1..];
      LastRowStored(next, rest, package);
      var r := Lookup(StoreLines(next, rest), package);
      assert forall j | 1 <= j < |lines| :: lines[j] == rest[j - 1];
      if LastRow(rest, package, None) {
        if !LastRow(lines, package, None) {
          assert LastRowAt(lines, r.value, 0);
        }
      } else {
        var i :| LastRowAt(rest, r.value, i);
        assert lines[i + 1] == rest[i];
        assert LastRowAt(lines, r.value, i + 1);
      }
    }
  }

  /** The table holds exactly the last valid row of each package. */
  lemma LastValidRowWins(text: string, package: string)
    ensures LastRow(Lines(text), package, Lookup(Parse(text), package))
  {
    LastRowStored(map[], Lines(text), package);
  }
}
