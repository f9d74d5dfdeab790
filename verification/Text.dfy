/** The standard-library string operations the parsers are built from. */
module Text {
  import opened Basics

  // ----- Scanning -----

  /** Position of the first `c`, or the length of the text when there is none. */
  function IndexOf(t: string, c: char): (n: nat)
    ensures n <= |t|
    ensures c !in t[..n]
    ensures n < |t| ==> t[n] == c
  {
    if t == "" || t[0] == c then 0
    else
      var n := IndexOf(t[1..], c);
      assert t[..n + 1] == [t[0]] + t[1..][..n];
      n + 1
  }

  lemma {:induction false} IndexOfAfter(a: string, c: char, b: string)
    requires c !in a
    ensures IndexOf(a + [c] + b, c) == |a|
  {
    if a == "" {
    } else {
      assert a[0] in a;
      IndexOfAfter(a[1..], c, b);
      assert (a + [c] + b)[1..] == a[1..] + [c] + b;
    }
  }

  predicate HasPrefix(t: string, p: string) {
    p <= t
  }

  /** `str::contains` with a string pattern. */
  predicate Contains(t: string, p: string) {
    p <= t || (t != "" && Contains(t[1..], p))
  }

  /** A text contains another exactly if it starts with it at some position. */
  lemma {:induction false} ContainsIff(t: string, p: string)
    ensures Contains(t, p) <==> exists i :: 0 <= i <= |t| && p <= t[i..]
  {
    if p <= t {
      assert t[0..] == t;
    } else if t != "" {
      ContainsIff(t[1..], p);
      assert forall i | 0 <= i <= |t| - 1 :: t[1..][i..] == t[i + 1..];
      if Contains(t[1..], p) {
        var i :| 0 <= i <= |t[1..]| && p <= t[1..][i..];
        assert p <= t[i + 1..];
      }
      if i :| 0 <= i <= |t| && p <= t[i..] {
        assert t[0..] == t;
        assert p <= t[1..][i - 1..];
      }
    }
  }

  // ----- Lines and columns -----

  function StripCarriageReturn(t: string): string {
    if t != "" && t[|t| - 1] == '\r' then t[..|t| - 1] else t
  }

  /** `str::lines`: split at `\n`, drop one `\r` before each `\n`, no empty last line. */
  function Lines(t: string): seq<string> {
    var n := IndexOf(t, '\n');
    if t == "" then []
    else if n == |t| then [t]
    else [StripCarriageReturn(t[..n])] + Lines(t[n + 1..])
  }

  /** `str::split` at one character. */
  function Split(t: string, c: char): (parts: seq<string>)
    ensures |parts| >= 1
  {
    var n := IndexOf(t, c);
    if n == |t| then [t] else [t[..n]] + Split(t[n + 1..], c)
  }

  /** A line that survives printing with a `\n` and reading back. */
  predicate PlainLine(line: string) {
    '\n' !in line && (line != "" ==> line[|line| - 1] != '\r')
  }

  function Terminated(lines: seq<string>): string {
    if lines == [] then "" else lines[0] + "\n" + Terminated(lines[1..])
  }

  lemma {:induction false} LinesOfTerminated(lines: seq<string>)
    requires forall l | l in lines :: PlainLine(l)
    ensures Lines(Terminated(lines)) == lines
  {
    if lines == [] {
    } else {
      var first, rest := lines[0], Terminated(lines[1..]);
      assert PlainLine(first);
      var t := first + "\n" + rest;
      IndexOfAfter(first, '\n', rest);
      assert t[..|first|] == first && t[|first| + 1..] == rest;
      LinesOfTerminated(lines[1..]);
    }
  }

  lemma LinesFirst(a: string, b: string)
    requires '\n' !in a
    ensures Lines(a + "\n" + b) == [StripCarriageReturn(a)] + Lines(b)
  {
    var t := a + "\n" + b;
    IndexOfAfter(a, '\n', b);
    assert t[..|a|] == a && t[|a| + 1..] == b;
  }

  /** A line ends at `\n`, with or without one `\r` before it; what follows the last `\n` is a line
      as it is, unless it is empty. */
  lemma LineEndings(line: string, rest: string)
    requires '\n' !in line
    ensures Lines(line + "\r\n" + rest) == [line] + Lines(rest)
    ensures (line == "" || line[|line| - 1] != '\r') ==> Lines(line + "\n" + rest) == [line] + Lines(rest)
    ensures Lines(line) == if line == "" then [] else [line]
  {
    var returned := line + "\r";
    assert line + "\r\n" + rest == returned + "\n" + rest;
    assert returned[..|line|] == line;
    LinesFirst(returned, rest);
    LinesFirst(line, rest);
  }

  lemma {:induction false} SplitFirst(a: string, c: char, b: string)
    requires c !in a
    ensures Split(a + [c] + b, c) == [a] + Split(b, c)
  {
    var t := a + [c] + b;
    IndexOfAfter(a, c, b);
    assert t[..|a|] == a && t[|a| + 1..] == b;
  }

  lemma {:induction false} SplitWhole(a: string, c: char)
    requires c !in a
    ensures Split(a, c) == [a]
  {
  }

  // ----- White space -----

  /** The Unicode `White_Space` property. */
  predicate IsWhitespace(c: char) {
    || '\t' <= c <= '\r'
    || c == ' '
    || c == '\U{85}' || c == '\U{A0}' || c == '\U{1680}'
    || '\U{2000}' <= c <= '\U{200A}'
    || c == '\U{2028}' || c == '\U{2029}' || c == '\U{202F}' || c == '\U{205F}' || c == '\U{3000}'
  }

  /** Among ASCII characters the space, the tab, the line ends and two others are white space. */
  lemma AsciiWhitespace(c: char)
    requires c < 128 as char
    ensures IsWhitespace(c) <==> 9 <= c as int <= 13 || c as int == 32
  {
  }

  function WordLength(t: string): (n: nat)
    ensures n <= |t|
    ensures forall i | 0 <= i < n :: !IsWhitespace(t[i])
    ensures n < |t| ==> IsWhitespace(t[n])
  {
    if t == "" || IsWhitespace(t[0]) then 0 else 1 + WordLength(t[1..])
  }

  /** `str::split_whitespace`. */
  function Words(t: string): seq<string>
    decreases |t|
  {
    if t == "" then []
    else if IsWhitespace(t[0]) then Words(t[1..])
    else
      var n := WordLength(t);
      [t[..n]] + Words(t[n..])
  }

  /** A nonempty text without white space. */
  predicate IsWord(t: string) {
    t != "" && forall c | c in t :: !IsWhitespace(c)
  }

  lemma {:induction false} WordLengthOf(a: string, b: string)
    requires IsWord(a)
    requires b == "" || IsWhitespace(b[0])
    ensures WordLength(a + b) == |a|
  {
    if |a| > 1 {
      assert forall c | c in a[1..] :: c in a;
      WordLengthOf(a[1..], b);
      assert (a + b)[1..] == a[1..] + b && !IsWhitespace(a[0]);
    } else {
      assert (a + b)[1..] == b;
      assert !IsWhitespace(a[0]);
    }
  }

  lemma {:induction false} WordsOfWord(a: string)
    requires IsWord(a)
    ensures Words(a) == [a]
  {
    assert a[0] in a;
    WordLengthOf(a, "");
    assert a + "" == a && a[..|a|] == a && a[|a|..] == "";
  }

  lemma {:induction false} WordsFirst(a: string, b: string)
    requires IsWord(a)
    ensures Words(a + " " + b) == [a] + Words(b)
  {
    var t := a + (" " + b);
    assert t == a + " " + b;
    assert t[0] == a[0] && a[0] in a;
    WordLengthOf(a, " " + b);
    assert t[..|a|] == a && t[|a|..] == " " + b;
    assert (" " + b)[1..] == b;
  }

  function TrimStart(t: string): string {
    if t != "" && IsWhitespace(t[0]) then TrimStart(t[1..]) else t
  }

  function TrimEnd(t: string): string {
    if t != "" && IsWhitespace(t[|t| - 1]) then TrimEnd(t[..|t| - 1]) else t
  }

  /** `str::trim`. */
  function Trim(t: string): string {
    TrimEnd(TrimStart(t))
  }

  lemma {:induction false} TrimStartOf(before: string, rest: string)
    requires forall c | c in before :: IsWhitespace(c)
    requires rest == "" || !IsWhitespace(rest[0])
    ensures TrimStart(before + rest) == rest
  {
    if before == "" {
      assert before + rest == rest;
    } else {
      assert before[0] in before && (before + rest)[1..] == before[1..] + rest;
      TrimStartOf(before[1..], rest);
    }
  }

  lemma {:induction false} TrimEndOf(rest: string, after: string)
    requires forall c | c in after :: IsWhitespace(c)
    requires rest == "" || !IsWhitespace(rest[|rest| - 1])
    ensures TrimEnd(rest + after) == rest
  {
    if after == "" {
      assert rest + after == rest;
    } else {
      var t := rest + after;
      assert after[|after| - 1] in after && t[..|t| - 1] == rest + after[..|after| - 1];
      TrimEndOf(rest, after[..|after| - 1]);
    }
  }

  /** Trimming takes the white space off both ends and nothing else. */
  lemma TrimAround(before: string, word: string, after: string)
    requires forall c | c in before + after :: IsWhitespace(c)
    requires word == "" || IsWord(word)
    ensures Trim(before + word + after) == word
  {
    assert forall c | c in before :: c in before + after;
    assert forall c | c in after :: c in before + after;
    if word == "" {
      assert before + word + after == (before + after) + "";
      TrimStartOf(before + after, "");
    } else {
      assert word[0] in word && word[|word| - 1] in word;
      assert before + word + after == before + (word + after);
      TrimStartOf(before, word + after);
      TrimEndOf(word, after);
    }
  }

  // ----- Numbers -----

  predicate IsDigit(c: char) {
    '0' <= c <= '9'
  }

  function DigitValue(c: char): nat
    requires IsDigit(c)
  {
    (c - '0') as nat
  }

  function DigitOf(d: nat): (c: char)
    requires d < 10
    ensures IsDigit(c) && DigitValue(c) == d
  {
    '0' + d as char
  }

  predicate AllDigits(t: string) {
    forall c | c in t :: IsDigit(c)
  }

  /** Value of a digit string, most significant digit first. */
  function DigitsValue(t: string): nat
    requires AllDigits(t)
  {
    if t == "" then 0
    else
      var init := t[..|t| - 1];
      assert forall c | c in init :: c in t;
      10 * DigitsValue(init) + DigitValue(t[|t| - 1])
  }

  /** Decimal rendering, as `{}` formats an unsigned integer. */
  function Decimal(n: nat): (t: string)
    ensures t != "" && AllDigits(t)
  {
    if n < 10 then [DigitOf(n)] else Decimal(n / 10) + [DigitOf(n % 10)]
  }

  lemma {:induction false} DecimalValue(n: nat)
    ensures DigitsValue(Decimal(n)) == n
  {
    if n >= 10 {
      DecimalValue(n / 10);
      assert Decimal(n)[..|Decimal(n)| - 1] == Decimal(n / 10);
    } else {
      assert Decimal(n)[..0] == "";
    }
  }

  /** Unsigned `from_str`: an optional `+`, at least one digit, no overflow. */
  function ParseUnsigned(t: string, max: nat): (r: Option<nat>)
    ensures r.Some? ==> r.value <= max
  {
    var digits := if HasPrefix(t, "+") then t[1..] else t;
    if digits != "" && AllDigits(digits) && DigitsValue(digits) <= max
    then Some(DigitsValue(digits))
    else None
  }

  /** Signed 32-bit `from_str`: an optional sign, at least one digit, no overflow. */
  function ParseI32(t: string): (r: Option<int>)
    ensures r.Some? ==> -(I32_MAX as int) - 1 <= r.value <= I32_MAX
  {
    if HasPrefix(t, "-") then
      match ParseDigits(t[1..], I32_MAX + 1)
      case None => None
      case Some(n) => Some(-(n as int))
    else
      ParseUnsigned(t, I32_MAX)
  }

  function ParseDigits(t: string, max: nat): (r: Option<nat>)
    ensures r.Some? ==> r.value <= max
  {
    if t != "" && AllDigits(t) && DigitsValue(t) <= max then Some(DigitsValue(t)) else None
  }

  /** Reading back a printed number gives the number exactly when it fits the type. */
  lemma ParsePrinted(n: nat, max: nat)
    ensures ParseUnsigned(Decimal(n), max) == if n <= max then Some(n) else None
  {
    DecimalValue(n);
    assert Decimal(n)[0] in Decimal(n);
    assert !IsDigit('+');
  }

  /** Which texts are read as unsigned numbers: digits within range, with at most a plus. */
  lemma UnsignedByDigits(digits: string, max: nat)
    requires digits != "" && AllDigits(digits)
    ensures ParseUnsigned(digits, max) == if DigitsValue(digits) <= max then Some(DigitsValue(digits)) else None
    ensures ParseUnsigned("+" + digits, max) == ParseUnsigned(digits, max)
  {
    assert digits[0] in digits;
    assert ("+" + digits)[1..] == digits;
  }

  lemma UnsignedNeedsDigits(t: string, max: nat)
    requires ParseUnsigned(t, max).Some?
    ensures exists digits :: digits != "" && AllDigits(digits) && (t == digits || t == "+" + digits)
  {
    if HasPrefix(t, "+") {
      assert t == "+" + t[1..];
    }
  }

  /** Which texts are read as signed 32-bit numbers, and as what: digits within range, with at
      most one sign before them. */
  lemma I32ByDigits(digits: string)
    requires digits != "" && AllDigits(digits)
    ensures ParseI32(digits) == if DigitsValue(digits) <= 0x7FFF_FFFF then Some(DigitsValue(digits)) else None
    ensures ParseI32("+" + digits) == ParseI32(digits)
    ensures var n: int := DigitsValue(digits);
            ParseI32("-" + digits) == if n <= 0x8000_0000 then Some(-n) else None
  {
    PlainI32(digits);
    SignedI32(digits);
    hide ParseI32;
  }

  lemma PlainI32(digits: string)
    requires digits != "" && AllDigits(digits)
    ensures ParseI32(digits) == if DigitsValue(digits) <= 0x7FFF_FFFF then Some(DigitsValue(digits)) else None
  {
    hide DigitsValue;
    assert digits[0] in digits;
  }

  lemma SignedI32(digits: string)
    requires digits != "" && AllDigits(digits)
    ensures ParseI32("+" + digits) == if DigitsValue(digits) <= 0x7FFF_FFFF then Some(DigitsValue(digits)) else None
    ensures var n: int := DigitsValue(digits);
            ParseI32("-" + digits) == if n <= 0x8000_0000 then Some(-n) else None
  {
    hide DigitsValue;
    var plus, minus := "+" + digits, "-" + digits;
    assert plus[1..] == digits && minus[1..] == digits && plus[0] == '+' && minus[0] == '-';
  }

  lemma I32NeedsDigits(t: string)
    requires ParseI32(t).Some?
    ensures exists digits ::
              digits != "" && AllDigits(digits) && (t == digits || t == "+" + digits || t == "-" + digits)
  {
    if HasPrefix(t, "-") {
      assert t == "-" + t[1..];
    } else if HasPrefix(t, "+") {
      assert t == "+" + t[1..];
    }
  }

  /** The value of a digit string grows by one digit at a time. */
  lemma DigitsValueStep(digits: string, d: char)
    requires AllDigits(digits) && IsDigit(d)
    ensures AllDigits(digits + [d]) && DigitsValue(digits + [d]) == 10 * DigitsValue(digits) + (d - '0') as nat
  {
    assert (digits + [d])[..|digits|] == digits;
  }

  lemma DigitsAreWords(t: string)
    requires t != "" && AllDigits(t)
    ensures IsWord(t) && PlainLine(t) && '\t' !in t && ' ' !in t
  {
    assert t[|t| - 1] in t;
  }

  // ----- Dotted names -----

  predicate IsAlphabetic(c: char) {
    'a' <= c <= 'z' || 'A' <= c <= 'Z'
  }

  predicate IsAlphanumeric(c: char) {
    IsAlphabetic(c) || IsDigit(c)
  }

  predicate IsHexDigit(c: char) {
    IsDigit(c) || 'a' <= c <= 'f' || 'A' <= c <= 'F'
  }

  predicate NameChar(c: char) {
    IsAlphanumeric(c) || c == '_' || c == '.'
  }

  /** One segment of a package name. The game list also accepts a leading `_`. */
  predicate ValidSegment(segment: string, leadingUnderscore: bool) {
    && segment != ""
    && (IsAlphabetic(segment[0]) || (leadingUnderscore && segment[0] == '_'))
    && forall i | 1 <= i < |segment| :: IsAlphanumeric(segment[i]) || segment[i] == '_'
  }

  /** A package name: at least two dot-separated segments, each valid. */
  predicate ValidName(name: string, leadingUnderscore: bool) {
    var segments := Split(name, '.');
    |segments| >= 2 && forall s | s in segments :: ValidSegment(s, leadingUnderscore)
  }

  lemma {:induction false} SegmentsHoldName(name: string, leadingUnderscore: bool)
    requires forall s | s in Split(name, '.') :: ValidSegment(s, leadingUnderscore)
    ensures name != "" && forall c | c in name :: NameChar(c)
  {
    var n := IndexOf(name, '.');
    var segments := Split(name, '.');
    assert ValidSegment(segments[0], leadingUnderscore);
    assert segments[0] == name[..n];
    assert forall c | c in name[..n] :: NameChar(c);
    if n < |name| {
      assert segments == [name[..n]] + Split(name[n + 1..], '.');
      SegmentsHoldName(name[n + 1..], leadingUnderscore);
      assert name == name[..n] + ['.'] + name[n + 1..];
    } else {
      assert name == name[..n];
    }
  }

  /** A position where a segment of a dotted name starts. */
  predicate StartsSegment(name: string, i: nat)
    requires i <= |name|
  {
    i == 0 || name[i - 1] == '.'
  }

  ghost predicate SegmentsByChars(name: string, leadingUnderscore: bool) {
    && (forall c | c in name ::
          'a' <= c <= 'z' || 'A' <= c <= 'Z' || '0' <= c <= '9' || c == '_' || c == '.')
    && (forall i | 0 <= i <= |name| && StartsSegment(name, i) ::
          i < |name| && ('a' <= name[i] <= 'z' || 'A' <= name[i] <= 'Z' || (leadingUnderscore && name[i] == '_')))
  }

  lemma SegmentByChars(segment: string, leadingUnderscore: bool)
    requires '.' !in segment
    ensures ValidSegment(segment, leadingUnderscore) <==> SegmentsByChars(segment, leadingUnderscore)
  {
    if SegmentsByChars(segment, leadingUnderscore) {
      assert StartsSegment(segment, 0);
      forall i | 1 <= i < |segment| ensures IsAlphanumeric(segment[i]) || segment[i] == '_' {
        assert segment[i] in segment;
      }
    }
    if ValidSegment(segment, leadingUnderscore) {
      forall i | 1 <= i <= |segment| ensures !StartsSegment(segment, i) {
        assert segment[i - 1] in segment;
      }
    }
  }

  lemma DotSplitsChars(first: string, rest: string, leadingUnderscore: bool)
    requires '.' !in first
    ensures SegmentsByChars(first + "." + rest, leadingUnderscore) <==>
            SegmentsByChars(first, leadingUnderscore) && SegmentsByChars(rest, leadingUnderscore)
  {
    var name, n := first + "." + rest, |first|;
    assert name[n] == '.';
    assert forall c :: c in name <==> c in first || c == '.' || c in rest;
    forall i | 0 <= i <= n ensures StartsSegment(name, i) <==> StartsSegment(first, i) {
    }
    forall i | 0 <= i <= |rest| ensures StartsSegment(name, n + 1 + i) <==> StartsSegment(rest, i) {
    }
    if SegmentsByChars(name, leadingUnderscore) {
      forall i | 0 <= i <= n && StartsSegment(first, i) ensures i < n {
        assert StartsSegment(name, i);
      }
      forall i | 0 <= i <= |rest| && StartsSegment(rest, i) ensures i < |rest| && name[n + 1 + i] == rest[i] {
        assert StartsSegment(name, n + 1 + i);
      }
    }
    if SegmentsByChars(first, leadingUnderscore) && SegmentsByChars(rest, leadingUnderscore) {
      forall i | 0 <= i <= |name| && StartsSegment(name, i)
        ensures i < |name| && (i <= n ==> i < n && name[i] == first[i]) && (i > n ==> name[i] == rest[i - n - 1])
      {
        if i <= n {
          assert StartsSegment(first, i);
        } else {
          assert StartsSegment(rest, i - n - 1);
        }
      }
    }
  }

  lemma {:induction false} SegmentsAreChars(name: string, leadingUnderscore: bool)
    ensures (forall s | s in Split(name, '.') :: ValidSegment(s, leadingUnderscore))
            <==> SegmentsByChars(name, leadingUnderscore)
    decreases |name|
  {
    hide SegmentsByChars, ValidSegment;
    var n := IndexOf(name, '.');
    if n == |name| {
      assert name[..n] == name;
      SegmentByChars(name, leadingUnderscore);
    } else {
      var first, rest := name[..n], name[n + 1..];
      assert name == first + "." + rest;
      SegmentByChars(first, leadingUnderscore);
      SegmentsAreChars(rest, leadingUnderscore);
      DotSplitsChars(first, rest, leadingUnderscore);
      assert Split(name, '.') == [first] + Split(rest, '.');
      assert forall s :: s in [first] + Split(rest, '.') <==> s == first || s in Split(rest, '.');
    }
  }

  /** Which names are valid, character by character: letters, digits, underscores and at least
      one dot, with a letter (or, in the game list, an underscore) at the start and after every
      dot. */
  lemma NameByChars(name: string, leadingUnderscore: bool)
    ensures ValidName(name, leadingUnderscore) <==> '.' in name && SegmentsByChars(name, leadingUnderscore)
  {
    SegmentsAreChars(name, leadingUnderscore);
    var n := IndexOf(name, '.');
    assert |Split(name, '.')| >= 2 <==> '.' in name by {
      if n == |name| {
        assert name[..n] == name;
      } else {
        assert name[n] in name;
      }
    }
  }

  /** Valid names contain nothing a row separator or a white-space split could cut. */
  lemma NamesArePlain(name: string, leadingUnderscore: bool)
    requires ValidName(name, leadingUnderscore)
    ensures IsWord(name) && PlainLine(name) && '\t' !in name
    ensures forall c | c in name :: NameChar(c)
  {
    SegmentsHoldName(name, leadingUnderscore);
    assert name[|name| - 1] in name;
  }

  /** The counting loop both name checks run over the segments. */
  method CheckName(name: string, leadingUnderscore: bool) returns (ok: bool)
    ensures ok == ValidName(name, leadingUnderscore)
  {
    var segments := Split(name, '.');
    if !ValidSegment(segments[0], leadingUnderscore) {
      return false;
    }
    var segmentCount := 1;
    var i := 1;
    while i < |segments|
      invariant 1 <= i == segmentCount <= |segments|
      invariant forall j | 0 <= j < i :: ValidSegment(segments[j], leadingUnderscore)
    {
      segmentCount := segmentCount + 1;
      if !ValidSegment(segments[i], leadingUnderscore) {
        return false;
      }
      i := i + 1;
    }
    return segmentCount >= 2;
  }
}
