/** Reading and parsing a `cgroup.events` file (`services/foreground/cgroup_v2.rs`).
    The file text is ASCII, so characters and bytes are the same thing. */
module CgroupEvents {
  import opened Basics
  import opened Text

  datatype Populated = Active | Inactive | Unknown

  predicate IsPopulatedLine(line: string) {
    var words := Words(line);
    |words| > 0 && words[0] == "populated"
  }

  function LineState(line: string): Populated {
    var words := Words(line);
    if |words| > 1 && words[1] == "1" then Active
    else if |words| > 1 && words[1] == "0" then Inactive
    else Unknown
  }

  /** The first `populated` line decides. */
  function ParseLines(lines: seq<string>): Populated {
    if lines == [] then Unknown
    else if IsPopulatedLine(lines[0]) then LineState(lines[0])
    else ParseLines(lines[1..])
  }

  function ParsePopulated(content: string): Populated {
    ParseLines(Lines(content))
  }

  method ParseCgroupEventsPopulated(content: string) returns (populated: Populated)
    ensures populated == ParsePopulated(content)
  {
    var lines := Lines(content);
    var i := 0;
    while i < |lines|
      invariant 0 <= i <= |lines|
      invariant ParseLines(lines[i..]) == ParseLines(lines)
    {
      assert lines[i..][1..] == lines[i + 1..];
      if IsPopulatedLine(lines[i]) {
        return LineState(lines[i]);
      }
      i := i + 1;
    }
    return Unknown;
  }

  const BUFFER_SIZE: nat := 256

  /** The part of a file that fits the read buffer. */
  function Buffered(content: string): string {
    content[..Min(BUFFER_SIZE, |content|)]
  }

  /** An open `cgroup.events` descriptor: its content and read position. */
  class EventsFd {
    const content: string
    var position: nat

    constructor (content: string)
      ensures this.content == content && position == 0
    {
      this.content := content;
      position := 0;
    }

    method SeekStart()
      modifies this
      ensures position == 0
    {
      position := 0;
    }

    /** A read into `buf[from..]` returns any positive number of bytes that fits and is
        available, and 0 only at the end of the file or when there is no room. */
    method ReadSlice(buf: array<char>, from: nat) returns (n: nat)
      requires from <= buf.Length && position <= |content|
      modifies this`position, buf
      ensures n <= buf.Length - from && position == old(position) + n <= |content|
      ensures n == 0 <==> old(position) == |content| || from == buf.Length
      ensures buf[..from] == old(buf[..from])
      ensures buf[from..from + n] == content[old(position)..position]
    {
      var room := Min(buf.Length - from, |content| - position);
      if room == 0 {
        return 0;
      }
      n :| 1 <= n <= room;
      forall i | 0 <= i < n {
        buf[from + i] := content[position + i];
      }
      position := position + n;
    }

    /** Reading ahead consumes the buffered part of the file and nothing else. */
    method DrainEventsFd()
      modifies this
      ensures position == Min(256, |content|)
    {
      SeekStart();
      var buf := new char[BUFFER_SIZE](_ => '\0');
      var len := 0;
      while true
        invariant len <= BUFFER_SIZE && position == len <= |content|
        decreases BUFFER_SIZE - len
      {
        var n := ReadSlice(buf, len);
        len := len + n;
        if n == 0 || len == BUFFER_SIZE {
          return;
        }
      }
    }

    /** What a priority event does with a live descriptor: drain it, then read it again. */
    method DrainAndRead() returns (populated: Populated)
      modifies this
      ensures populated == ParsePopulated(Buffered(content))
    {
      DrainEventsFd();
      populated := ReadEventsFdPopulated();
    }

    /** However the kernel cuts the reads, the state parsed is that of the first 256 bytes. */
    method ReadEventsFdPopulated() returns (populated: Populated)
      modifies this
      ensures populated == ParsePopulated(content[..Min(256, |content|)])
      ensures populated == ParsePopulated(Buffered(content))
    {
      SeekStart();
      var buf := new char[BUFFER_SIZE](_ => '\0');
      var len := 0;
      while true
        invariant len <= BUFFER_SIZE && position == len <= |content|
        invariant buf[..len] == content[..len]
        decreases BUFFER_SIZE - len
      {
        var n := ReadSlice(buf, len);
        if n == 0 {
          populated := ParsePopulated(buf[..len]);
          return;
        }
        assert buf[..len + n] == buf[..len] + buf[len..len + n];
        assert content[..len + n] == content[..len] + content[len..len + n];
        len := len + n;
        if len == BUFFER_SIZE {
          assert buf[..] == buf[..len];
          populated := ParsePopulated(buf[..]);
          return;
        }
      }
    }
  }

  // ----- What a file means -----

  lemma {:induction false} FirstLineDecides(lines: seq<string>, i: nat)
    requires i < |lines| && Words(lines[i]) != [] && Words(lines[i])[0] == "populated"
    requires forall j | 0 <= j < i :: Words(lines[j]) == [] || Words(lines[j])[0] != "populated"
    ensures var words := Words(lines[i]);
            ParseLines(lines) ==
            if |words| > 1 && words[1] == "1" then Active
            else if |words| > 1 && words[1] == "0" then Inactive
            else Unknown
  {
    if i == 0 {
    } else {
      FirstLineDecides(lines[1..], i - 1);
    }
  }

  lemma {:induction false} NoLineDecides(lines: seq<string>)
    requires forall l | l in lines :: Words(l) == [] || Words(l)[0] != "populated"
    ensures ParseLines(lines) == Unknown
  {
    if lines == [] {
    } else {
      NoLineDecides(lines[1..]);
    }
  }

  /** In any text the first line whose first word is `populated` decides by its second word,
      whatever else the text holds. */
  lemma PopulatedLineDecides(content: string, i: nat)
    requires var lines := Lines(content);
             && i < |lines| && Words(lines[i]) != [] && Words(lines[i])[0] == "populated"
             && forall j | 0 <= j < i :: Words(lines[j]) == [] || Words(lines[j])[0] != "populated"
    ensures var words := Words(Lines(content)[i]);
            ParsePopulated(content) ==
            if |words| > 1 && words[1] == "1" then Active
            else if |words| > 1 && words[1] == "0" then Inactive
            else Unknown
  {
    FirstLineDecides(Lines(content), i);
  }

  /** A text without such a line says nothing. */
  lemma NoPopulatedLine(content: string)
    requires forall l | l in Lines(content) :: Words(l) == [] || Words(l)[0] != "populated"
    ensures ParsePopulated(content) == Unknown
  {
    NoLineDecides(Lines(content));
  }

  lemma {:induction false} LinesAfterPlain(before: seq<string>, rest: string)
    requires forall l | l in before :: PlainLine(l)
    ensures Lines(Terminated(before) + rest) == before + Lines(rest)
  {
    if before == [] {
      assert Terminated(before) + rest == rest && before + Lines(rest) == Lines(rest);
    } else {
      var first, others := before[0], before[1..];
      assert PlainLine(first);
      assert Terminated(before) + rest == first + "\n" + (Terminated(others) + rest);
      hide Lines, Terminated;
      LinesFirst(first, Terminated(others) + rest);
      LinesAfterPlain(others, rest);
      assert before == [first] + others;
      ConcatAssociative([first], others, Lines(rest));
    }
  }

  /** A file as the kernel prints it, with any other lines before and any text after: `1` is
      active, `0` is inactive and any other word is unknown. */
  lemma PrintedPopulated(before: seq<string>, word: string, tail: string)
    requires forall l | l in before :: PlainLine(l) && (Words(l) == [] || Words(l)[0] != "populated")
    requires IsWord(word)
    ensures ParsePopulated(Terminated(before) + ("populated " + word + "\n" + tail)) ==
            match word case "1" => Active case "0" => Inactive case _ => Unknown
  {
    var line := "populated " + word;
    PopulatedLineReads(word);
    LinesAfterPlain(before, line + "\n" + tail);
    LinesFirst(line, tail);
    hide Words, Lines, IsWord, PlainLine, StripCarriageReturn, ParsePopulated, Terminated;
    var content := Terminated(before) + (line + "\n" + tail);
    assert Lines(content) == before + ([line] + Lines(tail));
    assert Lines(content)[|before|] == line && forall j | 0 <= j < |before| :: Lines(content)[j] in before;
    PopulatedLineDecides(content, |before|);
  }

  lemma PopulatedLineReads(word: string)
    requires IsWord(word)
    ensures var line := "populated " + word;
            && Words(line) == ["populated", word] && '\n' !in line && StripCarriageReturn(line) == line
  {
    var line := "populated " + word;
    assert IsWord("populated") && line == "populated" + " " + word;
    WordsFirst("populated", word);
    WordsOfWord(word);
    assert word[|word| - 1] in word && line[|line| - 1] == word[|word| - 1];
  }

  // ----- When 256 bytes are enough -----

  lemma PrependLine(first: string, before: string, after: string, tail: string)
    requires '\n' !in first
    requires Lines(after) == Lines(before) + Lines(tail)
    ensures Lines(first + "\n" + after) == Lines(first + "\n" + before) + Lines(tail)
  {
    var c := StripCarriageReturn(first);
    calc {
      Lines(first + "\n" + after);
      { LinesFirst(first, after); }
      [c] + Lines(after);
      [c] + (Lines(before) + Lines(tail));
      { ConcatAssociative([c], Lines(before), Lines(tail)); }
      ([c] + Lines(before)) + Lines(tail);
      { LinesFirst(first, before); }
      Lines(first + "\n" + before) + Lines(tail);
    }
  }

  lemma OneLineBefore(head: string, tail: string)
    requires '\n' !in head
    ensures Lines(head + "\n" + tail) == Lines(head + "\n") + Lines(tail)
  {
    assert Lines("") == [];
    hide Lines;
    assert [] + Lines(tail) == Lines(tail);
    PrependLine(head, "", tail, tail);
    assert head + "\n" + "" == head + "\n";
  }

  lemma FirstLineBefore(first: string, rest: string, tail: string)
    requires '\n' !in first
    requires Lines(rest + "\n" + tail) == Lines(rest + "\n") + Lines(tail)
    ensures Lines(first + "\n" + rest + "\n" + tail) == Lines(first + "\n" + rest + "\n") + Lines(tail)
  {
    hide Lines;
    assert first + "\n" + rest + "\n" + tail == first + "\n" + (rest + "\n" + tail);
    assert first + "\n" + rest + "\n" == first + "\n" + (rest + "\n");
    PrependLine(first, rest + "\n", rest + "\n" + tail, tail);
  }

  lemma {:induction false} LinesOfSplitText(head: string, tail: string)
    ensures Lines(head + "\n" + tail) == Lines(head + "\n") + Lines(tail)
    decreases |head|
  {
    hide Lines, IndexOf;
    var n := IndexOf(head, '\n');
    if n == |head| {
      assert head[..n] == head;
      OneLineBefore(head, tail);
    } else {
      var first, rest := head[..n], head[n + 1..];
      assert head == first + "\n" + rest;
      LinesOfSplitText(rest, tail);
      FirstLineBefore(first, rest, tail);
    }
  }

  lemma {:induction false} DecidedEarly(lines: seq<string>, more: seq<string>)
    requires exists l :: l in lines && IsPopulatedLine(l)
    ensures ParseLines(lines + more) == ParseLines(lines)
  {
    assert lines == [lines[0]] + lines[1..];
    assert (lines + more)[1..] == lines[1..] + more;
    if !IsPopulatedLine(lines[0]) {
      DecidedEarly(lines[1..], more);
    }
  }

  /** Reading through the descriptor agrees with reading the whole file as soon as a
      complete `populated` line ends within the first 256 bytes, and always for files of at
      most 256 bytes. */
  lemma BufferAgreesWithFile(content: string, end: nat)
    requires end < |content| && end < 256 && content[end] == '\n'
    requires exists l :: l in Lines(content[..end + 1]) && IsPopulatedLine(l)
    ensures ParsePopulated(Buffered(content)) == ParsePopulated(content)
  {
    var head := content[..end];
    var prefix := Buffered(content);
    assert content[..end + 1] == head + "\n";
    assert content == head + "\n" + content[end + 1..];
    assert prefix == head + "\n" + prefix[end + 1..];
    LinesOfSplitText(head, content[end + 1..]);
    LinesOfSplitText(head, prefix[end + 1..]);
    DecidedEarly(Lines(head + "\n"), Lines(content[end + 1..]));
    DecidedEarly(Lines(head + "\n"), Lines(prefix[end + 1..]));
  }

  lemma ShortFilesAgree(content: string)
    requires |content| <= 256
    ensures ParsePopulated(Buffered(content)) == ParsePopulated(content)
  {
    assert content[..|content|] == content;
  }

  /** The buffer holds all of the file, or a complete `populated` line of it. */
  ghost predicate FitsBuffer(content: string) {
    |content| <= 256 || exists end :: 0 <= end < |content| && LineEndsAt(content, end)
  }

  ghost predicate LineEndsAt(content: string, end: nat)
    requires end < |content|
  {
    end < 256 && content[end] == '\n' && exists l :: l in Lines(content[..end + 1]) && IsPopulatedLine(l)
  }

  lemma BufferSuffices(content: string)
    requires FitsBuffer(content)
    ensures ParsePopulated(Buffered(content)) == ParsePopulated(content)
  {
    if |content| <= 256 {
      ShortFilesAgree(content);
    } else {
      var end :| 0 <= end < |content| && LineEndsAt(content, end);
      BufferAgreesWithFile(content, end);
    }
  }
}
