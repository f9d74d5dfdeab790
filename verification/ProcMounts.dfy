/** Parsing `/proc/mounts` and undoing its octal escapes (`services/foreground/cgroup_v2.rs`).
    Text here is ASCII, so characters and bytes are the same thing. */
module ProcMounts {
  import opened Basics
  import opened Text

  datatype MountEntry = MountEntry(source: string, mountPoint: string, fsType: string)

  predicate IsAscii(t: string) {
    forall c | c in t :: c < 128 as char
  }

  predicate IsOctalDigit(c: char) {
    '0' <= c <= '7'
  }

  function OctalValue(t: string): nat
    requires forall c | c in t :: IsOctalDigit(c)
  {
    if t == "" then 0
    else
      var init := t[..|t| - 1];
      assert forall c | c in init :: c in t;
      assert IsOctalDigit(t[|t| - 1]) by { assert t[|t| - 1] in t; }
      8 * OctalValue(init) + (t[|t| - 1] - '0') as nat
  }

  /** `u8::from_str_radix(t, 8)`: like every unsigned parse it allows a leading `+`. */
  function ParseOctalByte(t: string): (r: Option<nat>)
    ensures r.Some? ==> r.value <= U8_MAX
  {
    var digits := if HasPrefix(t, "+") then t[1..] else t;
    if digits != "" && (forall c | c in digits :: IsOctalDigit(c)) && OctalValue(digits) <= U8_MAX
    then Some(OctalValue(digits))
    else None
  }

  /** What `unescape_proc_mount_field` returns: a backslash and three characters forming an
      octal byte become that byte, everything else stays. */
  function Unescape(field: string): string {
    if field == "" then ""
    else if field[0] == '\\' && 3 < |field| && ParseOctalByte(field[1..4]).Some? then
      [ParseOctalByte(field[1..4]).value as char] + Unescape(field[4..])
    else
      [field[0]] + Unescape(field[1..])
  }

  method UnescapeProcMountField(field: string) returns (out: string)
    ensures out == Unescape(field)
  {
    out := "";
    var i := 0;
    assert field[0..] == field && Unescape("") == "";
    hide Unescape, ParseOctalByte;
    while i < |field|
      invariant 0 <= i <= |field|
      invariant out + Unescape(field[i..]) == Unescape(field)
    {
      UnescapeStep(out, field, i);
      if field[i] == '\\' && i + 3 < |field| {
        var octal := field[i + 1..i + 4];
        assert octal == field[i..][1..4];
        var value := ParseOctalByte(octal);
        if value.Some? {
          out := out + [value.value as char];
          i := i + 4;
          continue;
        }
      }
      out := out + [field[i]];
      i := i + 1;
    }
    assert field[i..] == "" && out + "" == out;
  }

  lemma UnescapeStep(out: string, field: string, i: nat)
    requires i < |field|
    ensures var rest := field[i..];
            out + Unescape(rest) ==
            if rest[0] == '\\' && 3 < |rest| && ParseOctalByte(rest[1..4]).Some?
            then (out + [ParseOctalByte(rest[1..4]).value as char]) + Unescape(field[i + 4..])
            else (out + [rest[0]]) + Unescape(field[i + 1..])
  {
  }

  // ----- Escaping, the inverse -----

  predicate MustEscape(c: char) {
    c == '\\' || IsWhitespace(c)
  }

  function OctalDigit(d: nat): (c: char)
    requires d < 8
    ensures IsOctalDigit(c) && (c - '0') as nat == d
  {
    '0' + d as char
  }

  function OctalEscape(c: char): string
    requires c < 128 as char
  {
    var n := c as nat;
    ['\\', OctalDigit(n / 64), OctalDigit(n / 8 % 8), OctalDigit(n % 8)]
  }

  /** Escape white space and backslashes as three octal digits, as the kernel does. */
  function Escape(field: string): string
    requires IsAscii(field)
  {
    if field == "" then ""
    else
      assert forall c | c in field[1..] :: c in field;
      assert field[0] in field;
      (if MustEscape(field[0]) then OctalEscape(field[0]) else [field[0]]) + Escape(field[1..])
  }

  lemma OctalOfThree(a: char, b: char, d: char)
    requires IsOctalDigit(a) && IsOctalDigit(b) && IsOctalDigit(d)
    ensures OctalValue([a, b, d]) == 64 * (a - '0') as nat + 8 * (b - '0') as nat + (d - '0') as nat
  {
    var t: string := [a, b, d];
    assert t[..2] == [a, b] && t[..2][..1] == [a] && t[..2][..1][..0] == "";
    assert OctalValue(t[..2][..1]) == (a - '0') as nat;
    assert OctalValue(t[..2]) == 8 * (a - '0') as nat + (b - '0') as nat;
  }

  lemma ThreeDigitsParse(a: char, b: char, d: char)
    requires IsOctalDigit(a) && IsOctalDigit(b) && IsOctalDigit(d)
    ensures var n := 64 * (a - '0') as nat + 8 * (b - '0') as nat + (d - '0') as nat;
            n <= U8_MAX ==> ParseOctalByte([a, b, d]) == Some(n)
  {
    var t: string := [a, b, d];
    OctalOfThree(a, b, d);
    assert "+"[0] == '+' && t[0] == a;
    assert forall x | x in t :: x == a || x == b || x == d;
  }

  lemma OctalEscapeReads(c: char)
    requires c < 128 as char
    ensures ParseOctalByte(OctalEscape(c)[1..4]) == Some(c as nat)
  {
    hide ParseOctalByte;
    var n := c as nat;
    var a, b, d := OctalDigit(n / 64), OctalDigit(n / 8 % 8), OctalDigit(n % 8);
    assert OctalEscape(c)[1..4] == [a, b, d];
    ThreeDigitsParse(a, b, d);
    assert 64 * (n / 64) + 8 * (n / 8 % 8) + n % 8 == n;
  }

  /** Unescaping undoes escaping. */
  lemma {:induction false} UnescapeEscape(field: string)
    requires IsAscii(field)
    ensures Unescape(Escape(field)) == field
  {
    if field == "" {
    } else {
      var c, rest := field[0], field[1..];
      assert c in field && forall x | x in rest :: x in field;
      UnescapeEscape(rest);
      var t := Escape(field);
      if MustEscape(c) {
        OctalEscapeReads(c);
        assert t[1..4] == OctalEscape(c)[1..4] && t[4..] == Escape(rest);
      } else {
        assert t[0] == c && t[1..] == Escape(rest);
      }
      assert field == [c] + rest;
    }
  }

  /** A field without backslashes is left alone. */
  lemma {:induction false} UnescapePlain(field: string)
    requires '\\' !in field
    ensures Unescape(field) == field
  {
    if field == "" {
    } else {
      UnescapePlain(field[1..]);
      assert field == [field[0]] + field[1..];
    }
  }

  /** The integer parser behind the escapes takes a sign, so a backslash, a plus and two octal
      digits are read as an escape as well, wherever they stand. */
  lemma SignedEscapeIsRead(a: char, b: char, rest: string)
    requires IsOctalDigit(a) && IsOctalDigit(b)
    ensures Unescape(['\\', '+', a, b] + rest) == [(8 * (a - '0') as nat + (b - '0') as nat) as char] + Unescape(rest)
  {
    var t: string := ['\\', '+', a, b] + rest;
    var sign: string := ['+', a, b];
    var digits: string := [a, b];
    assert t[1..4] == sign && t[4..] == rest && sign[1..] == digits;
    assert HasPrefix(sign, "+");
    assert digits[..1] == [a] && digits[..1][..0] == "";
    assert OctalValue(digits[..1]) == (a - '0') as nat;
    assert ParseOctalByte(sign) == Some(8 * (a - '0') as nat + (b - '0') as nat);
  }

  lemma {:induction false} EscapedIsWord(field: string)
    requires IsAscii(field)
    ensures forall c | c in Escape(field) :: !IsWhitespace(c)
    ensures field != "" ==> Escape(field) != ""
  {
    if field == "" {
    } else {
      assert field[0] in field && forall c | c in field[1..] :: c in field;
      EscapedIsWord(field[1..]);
      if MustEscape(field[0]) {
        assert forall c | c in OctalEscape(field[0]) :: c == '\\' || IsOctalDigit(c);
      }
    }
  }

  // ----- Lines -----

  function ParseMountLine(line: string): Option<MountEntry> {
    var fields := Words(line);
    if |fields| < 3 then None
    else Some(MountEntry(Unescape(fields[0]), Unescape(fields[1]), Unescape(fields[2])))
  }

  function ParseMountLines(lines: seq<string>): seq<MountEntry> {
    if lines == [] then []
    else
      (match ParseMountLine(lines[0]) case Some(e) => [e] case None => []) + ParseMountLines(lines[1..])
  }

  function ParseProcMounts(content: string): seq<MountEntry> {
    ParseMountLines(Lines(content))
  }

  /** `find_cgroup2_mount`: the first entry of type `cgroup2`. */
  function FindCgroup2(entries: seq<MountEntry>): Option<string> {
    if entries == [] then None
    else if entries[0].fsType == "cgroup2" then Some(entries[0].mountPoint)
    else FindCgroup2(entries[1..])
  }

  predicate Printable(e: MountEntry) {
    && e.source != "" && e.mountPoint != "" && e.fsType != ""
    && IsAscii(e.source) && IsAscii(e.mountPoint) && IsAscii(e.fsType)
  }

  function PrintMount(e: MountEntry): string
    requires Printable(e)
  {
    Escape(e.source) + " " + (Escape(e.mountPoint) + " " + Escape(e.fsType))
  }

  function PrintMounts(entries: seq<MountEntry>): seq<string>
    requires forall e | e in entries :: Printable(e)
  {
    if entries == [] then [] else [PrintMount(entries[0])] + PrintMounts(entries[1..])
  }

  lemma WordAtEndIsPlain(before: string, word: string)
    requires '\n' !in before && IsWord(word)
    ensures PlainLine(before + word)
  {
    var t := before + word;
    assert word[|word| - 1] in word && t[|t| - 1] == word[|word| - 1];
  }

  lemma ThreeWords(a: string, b: string, c: string)
    requires IsWord(a) && IsWord(b) && IsWord(c)
    ensures Words(a + " " + (b + " " + c)) == [a, b, c]
    ensures PlainLine(a + " " + (b + " " + c))
  {
    hide Words;
    WordsFirst(a, b + " " + c);
    WordsFirst(b, c);
    WordsOfWord(c);
    assert a + " " + (b + " " + c) == (a + " " + (b + " ")) + c;
    WordAtEndIsPlain(a + " " + (b + " "), c);
  }

  /** The fields behind the third, which the kernel prints as well, change nothing. */
  lemma FurtherFieldsIgnored(e: MountEntry, more: string)
    requires Printable(e)
    ensures var behind := Escape(e.mountPoint) + " " + (Escape(e.fsType) + " " + more);
            ParseMountLine(Escape(e.source) + " " + behind) == Some(e)
  {
    hide Words, Unescape, Escape;
    var a, b, c := Escape(e.source), Escape(e.mountPoint), Escape(e.fsType);
    EscapedIsWord(e.source);
    EscapedIsWord(e.mountPoint);
    EscapedIsWord(e.fsType);
    WordsFirst(a, b + " " + (c + " " + more));
    WordsFirst(b, c + " " + more);
    WordsFirst(c, more);
    UnescapeEscape(e.source);
    UnescapeEscape(e.mountPoint);
    UnescapeEscape(e.fsType);
  }

  /** A line of fewer than three fields is no entry. */
  lemma ShortLineIgnored(line: string)
    ensures ParseMountLine(line).None? <==> |Words(line)| < 3
  {
  }

  lemma PrintedMountParses(e: MountEntry)
    requires Printable(e)
    ensures ParseMountLine(PrintMount(e)) == Some(e)
    ensures PlainLine(PrintMount(e))
  {
    var a, b, c := Escape(e.source), Escape(e.mountPoint), Escape(e.fsType);
    EscapedIsWord(e.source);
    EscapedIsWord(e.mountPoint);
    EscapedIsWord(e.fsType);
    ThreeWords(a, b, c);
    UnescapeEscape(e.source);
    UnescapeEscape(e.mountPoint);
    UnescapeEscape(e.fsType);
  }

  lemma {:induction false} PrintedMountsParse(entries: seq<MountEntry>)
    requires forall e | e in entries :: Printable(e)
    ensures ParseMountLines(PrintMounts(entries)) == entries
    ensures forall l | l in PrintMounts(entries) :: PlainLine(l)
  {
    hide PrintMount, ParseMountLine, PlainLine, Printable;
    if entries == [] {
    } else {
      PrintedMountParses(entries[0]);
      PrintedMountsParse(entries[1..]);
      assert entries == [entries[0]] + entries[1..];
    }
  }

  /** Any mount table of nonempty ASCII fields survives escaping, printing and parsing. */
  lemma MountsRoundTrip(entries: seq<MountEntry>)
    requires forall e | e in entries :: Printable(e)
    ensures ParseProcMounts(Terminated(PrintMounts(entries))) == entries
  {
    PrintedMountsParse(entries);
    LinesOfTerminated(PrintMounts(entries));
  }

  ghost predicate FirstCgroup2At(entries: seq<MountEntry>, i: int) {
    && 0 <= i < |entries| && entries[i].fsType == "cgroup2"
    && forall j | 0 <= j < i :: entries[j].fsType != "cgroup2"
  }

  lemma {:induction false} FindsFirst(entries: seq<MountEntry>)
    ensures match FindCgroup2(entries)
            case None => forall e | e in entries :: e.fsType != "cgroup2"
            case Some(mount) => exists i :: FirstCgroup2At(entries, i) && entries[i].mountPoint == mount
  {
    if entries == [] {
    } else {
      var rest := entries[1..];
      FindsFirst(rest);
      if entries[0].fsType == "cgroup2" {
        assert FirstCgroup2At(entries, 0);
      } else if FindCgroup2(rest).Some? {
        var i :| FirstCgroup2At(rest, i) && rest[i].mountPoint == FindCgroup2(rest).value;
        assert forall j | 1 <= j < |entries| :: entries[j] == rest[j - 1];
        assert FirstCgroup2At(entries, i + 1);
      }
    }
  }

  /** Whatever characters its path holds, the first cgroup2 mount of a printed table is found,
      and none is found when the table has none. */
  lemma FirstCgroup2Found(entries: seq<MountEntry>)
    requires forall e | e in entries :: Printable(e)
    ensures match FindCgroup2(ParseProcMounts(Terminated(PrintMounts(entries))))
            case None => forall e | e in entries :: e.fsType != "cgroup2"
            case Some(mount) => exists i :: FirstCgroup2At(entries, i) && entries[i].mountPoint == mount
  {
    MountsRoundTrip(entries);
    FindsFirst(entries);
  }
}
