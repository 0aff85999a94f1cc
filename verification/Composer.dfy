/** What the composer makes of the text typed by the user (frontend/lib/sessionCommand.ts). */
module Composer {
  import opened Text

  datatype Input = Message(text: string) | Command(command: string, arguments: string, prompt: string)

  /** `split(/\r?\n/)`. */
  function Lines(s: string): (r: seq<string>)
    ensures r != []
  {
    if s == "" then [""]
    else if s[0] == '\n' then [""] + Lines(s[1..])
    else if |s| >= 2 && s[0] == '\r' && s[1] == '\n' then [""] + Lines(s[2..])
    else
      var rest := Lines(s[1..]);
      [[s[0]] + rest[0]] + rest[1..]
  }

  /** `join("\n")`. */
  function Join(lines: seq<string>): string {
    if lines == [] then ""
    else if |lines| == 1 then lines[0]
    else lines[0] + "\n" + Join(lines[1..])
  }

  /** The length of the leading part without white space. */
  function WordLength(s: string): (n: nat)
    ensures n <= |s|
    ensures forall i :: 0 <= i < n ==> !IsSpace(s[i])
    ensures n < |s| ==> IsSpace(s[n])
  {
    if s == "" || IsSpace(s[0]) then 0 else 1 + WordLength(s[1..])
  }

  /** `startsWith("/")`. */
  predicate Slash(s: string) {
    s != "" && s[0] == '/'
  }

  /** `startsWith("//")`. */
  predicate TwoSlashes(s: string) {
    |s| >= 2 && s[0] == '/' && s[1] == '/'
  }

  function RestoreEscapedSlash(value: string): string
    requires |TrimStart(value)| >= 2
  {
    value[..|value| - |TrimStart(value)|] + "/" + TrimStart(value)[2..]
  }

  function ParseComposerInput(value: string): Input {
    var start := TrimStart(value);
    if !Slash(start) then Message(value)
    else if TwoSlashes(start) then Message(RestoreEscapedSlash(value))
    else
      var lines := Lines(Trim(start));
      var header := Trim(lines[0]);
      var n := WordLength(header);
      Command(header[..n], if n == |header| then "" else Trim(header[n..]), Trim(Join(lines[1..])))
  }

  // ---------------------------------------------------------------- messages

  /** The input that stands for a text: a leading slash is doubled. */
  function Escape(text: string): string {
    var start := TrimStart(text);
    if Slash(start) then text[..|text| - |start|] + "/" + start else text
  }

  lemma {:induction false} TrimStartOf(lead: string, rest: string)
    requires AllSpace(lead) && rest != "" && !IsSpace(rest[0])
    ensures TrimStart(lead + rest) == rest
  {
    if lead == "" {
      assert lead + rest == rest;
    } else {
      assert (lead + rest)[0] == lead[0] && (lead + rest)[1..] == lead[1..] + rest;
      TrimStartOf(lead[1..], rest);
    }
  }

  /** White space before a slash, and what follows it. */
  lemma SlashAfterSpace(lead: string, rest: string)
    requires AllSpace(lead) && Slash(rest)
    ensures TrimStart(lead + rest) == rest && (lead + rest)[..|lead|] == lead
    ensures Escape(lead + rest) == lead + ("/" + rest)
  {
    TrimStartOf(lead, rest);
    assert lead + "/" + rest == lead + ("/" + rest);
  }

  lemma TwoSlashesAfterSpace(lead: string, rest: string)
    requires AllSpace(lead) && TwoSlashes(rest)
    ensures ParseComposerInput(lead + rest) == Message(lead + ("/" + rest[2..]))
  {
    SlashAfterSpace(lead, rest);
    assert RestoreEscapedSlash(lead + rest) == lead + "/" + rest[2..];
    assert lead + "/" + rest[2..] == lead + ("/" + rest[2..]);
  }

  lemma SplitAtStart(s: string)
    ensures var lead := s[..|s| - |TrimStart(s)|]; AllSpace(lead) && s == lead + TrimStart(s)
  {
    TrimStartFacts(s);
    var n := |s| - |TrimStart(s)|;
    assert s == s[..n] + s[n..];
  }

  lemma EscapeParses(text: string)
    ensures ParseComposerInput(Escape(text)) == Message(text)
  {
    SplitAtStart(text);
    var start := TrimStart(text);
    if Slash(start) {
      var lead := text[..|text| - |start|];
      SlashAfterSpace(lead, start);
      assert "/" + ("/" + start)[2..] == start;
      TwoSlashesAfterSpace(lead, "/" + start);
    }
  }

  lemma MessageIsEscaped(value: string)
    requires ParseComposerInput(value).Message?
    ensures value == Escape(ParseComposerInput(value).text)
  {
    SplitAtStart(value);
    var start := TrimStart(value);
    if TwoSlashes(start) {
      var lead := value[..|value| - |start|];
      var rest := "/" + start[2..];
      TwoSlashesAfterSpace(lead, start);
      SlashAfterSpace(lead, rest);
      assert "/" + rest == start;
    }
  }

  /** Each text is the reading of exactly one input. */
  lemma OneInputPerMessage(value: string, text: string)
    ensures ParseComposerInput(value) == Message(text) <==> value == Escape(text)
  {
    EscapeParses(text);
    if ParseComposerInput(value) == Message(text) {
      MessageIsEscaped(value);
    }
  }

  // ---------------------------------------------------------------- lines

  predicate NoBreak(s: string) {
    forall i :: 0 <= i < |s| ==> s[i] != '\n'
  }

  lemma {:induction false} FirstLine(s: string)
    ensures Lines(s)[0] <= s && NoBreak(Lines(s)[0])
    ensures s != "" && !IsSpace(s[0]) ==> Lines(s)[0] != ""
  {
    if s == "" || s[0] == '\n' || (|s| >= 2 && s[0] == '\r' && s[1] == '\n') {
    } else {
      FirstLine(s[1..]);
      var rest := Lines(s[1..])[0];
      assert s == [s[0]] + s[1..];
    }
  }

  lemma {:induction false} OneLine(s: string)
    requires NoBreak(s)
    ensures Lines(s) == [s]
  {
    if s != "" {
      OneLine(s[1..]);
      assert s == [s[0]] + s[1..];
    }
  }

  lemma {:induction false} LinesAfterHeader(header: string, rest: string)
    requires NoBreak(header) && (header != "" ==> header[|header| - 1] != '\r')
    ensures Lines(header + "\n" + rest) == [header] + Lines(rest)
  {
    var s := header + "\n" + rest;
    if header == "" {
      assert s[1..] == rest;
    } else {
      LinesAfterHeader(header[1..], rest);
      assert s[1..] == header[1..] + "\n" + rest;
      assert |header| > 1 ==> s[1] == header[1];
      assert [header[0]] + header[1..] == header;
    }
  }

  /** No line break of the two-character form. */
  predicate NoCrLf(s: string) {
    forall i :: 0 <= i < |s| - 1 ==> !(s[i] == '\r' && s[i + 1] == '\n')
  }

  lemma JoinPrepends(c: char, lines: seq<string>)
    requires lines != []
    ensures Join([[c] + lines[0]] + lines[1..]) == [c] + Join(lines)
  {
    assert ([[c] + lines[0]] + lines[1..])[1..] == lines[1..];
    if |lines| > 1 {
      assert [c] + lines[0] + "\n" + Join(lines[1..]) == [c] + (lines[0] + "\n" + Join(lines[1..]));
    }
  }

  lemma JoinBreak(lines: seq<string>)
    requires lines != []
    ensures Join([""] + lines) == "\n" + Join(lines)
  {
    assert ([""] + lines)[1..] == lines;
  }

  /** Splitting and joining shortens a text by one character for each break of the two-character form. */
  lemma {:induction false} JoinOfLines(s: string)
    ensures |Join(Lines(s))| <= |s|
    ensures if NoCrLf(s) then Join(Lines(s)) == s else |Join(Lines(s))| < |s|
    decreases |s|
  {
    if s == "" {
    } else if s[0] == '\n' {
      JoinOfLines(s[1..]);
      JoinBreak(Lines(s[1..]));
      TailKeepsCrLf(s);
    } else if |s| >= 2 && s[0] == '\r' && s[1] == '\n' {
      JoinOfLines(s[2..]);
      JoinBreak(Lines(s[2..]));
    } else {
      JoinOfLines(s[1..]);
      JoinPrepends(s[0], Lines(s[1..]));
      TailKeepsCrLf(s);
    }
  }

  lemma TailKeepsCrLf(s: string)
    requires s != "" && !(|s| >= 2 && s[0] == '\r' && s[1] == '\n')
    ensures NoCrLf(s) <==> NoCrLf(s[1..])
    ensures s == [s[0]] + s[1..]
  {
    var t := s[1..];
    assert forall i :: 0 <= i < |t| ==> t[i] == s[i + 1];
    if NoCrLf(t) {
      forall i | 0 <= i < |s| - 1 ensures !(s[i] == '\r' && s[i + 1] == '\n') {
        if i > 0 {
          assert t[i - 1] == s[i] && t[i] == s[i + 1];
        }
      }
    }
  }

  // ---------------------------------------------------------------- commands

  predicate NoSpace(s: string) {
    forall i :: 0 <= i < |s| ==> !IsSpace(s[i])
  }

  /** The shape of every parsed command. */
  predicate WellFormed(c: Input) {
    && c.Command?
    && Slash(c.command) && !TwoSlashes(c.command) && NoSpace(c.command)
    && Trimmed(c.arguments) && NoBreak(c.arguments)
    && Trimmed(c.prompt)
  }

  lemma TrimKeepsFirst(s: string)
    requires s != "" && !IsSpace(s[0])
    ensures Trim(s) != "" && Trim(s) <= s
  {
    TrimEndFacts(s);
    var n := |TrimEnd(s)|;
    forall i | n <= i < |s| ensures IsSpace(s[i]) {
      assert s[n..][i - n] == s[i];
    }
  }

  lemma TrimStaysNoBreak(s: string)
    requires NoBreak(s)
    ensures NoBreak(Trim(s))
  {
    TrimStartFacts(s);
    TrimEndFacts(TrimStart(s));
  }

  /** The first line of a command, trimmed, is a beginning of the input. */
  lemma ParsedHeader(start: string)
    requires Slash(start)
    ensures var header := Trim(Lines(Trim(start))[0]); header != "" && header <= start && NoBreak(header)
  {
    TrimKeepsFirst(start);
    var first := Lines(Trim(start))[0];
    FirstLine(Trim(start));
    assert first[0] == start[0];
    TrimKeepsFirst(first);
    TrimStaysNoBreak(first);
  }

  lemma HeaderParts(header: string)
    requires Slash(header) && !TwoSlashes(header) && NoBreak(header)
    ensures
      var n := WordLength(header);
      var rest := if n == |header| then "" else Trim(header[n..]);
      Slash(header[..n]) && !TwoSlashes(header[..n]) && NoSpace(header[..n]) && Trimmed(rest) && NoBreak(rest)
  {
    var n := WordLength(header);
    assert !IsSpace(header[0]);
    assert NoBreak(header[n..]);
    TrimIsTrimmed(header[n..]);
    TrimStaysNoBreak(header[n..]);
  }

  lemma ParsedIsWellFormed(value: string)
    requires ParseComposerInput(value).Command?
    ensures WellFormed(ParseComposerInput(value))
  {
    var start := TrimStart(value);
    ParsedHeader(start);
    HeaderParts(Trim(Lines(Trim(start))[0]));
    TrimIsTrimmed(Join(Lines(Trim(start))[1..]));
  }

  function Header(c: Input): string
    requires c.Command?
  {
    if c.arguments == "" then c.command else c.command + " " + c.arguments
  }

  function Print(c: Input): string
    requires c.Command?
  {
    if c.prompt == "" then Header(c) else Header(c) + "\n" + c.prompt
  }

  lemma HeaderParses(c: Input)
    requires WellFormed(c)
    ensures
      var h := Header(c);
      && NoBreak(h) && Trimmed(h) && Slash(h) && !TwoSlashes(h)
      && WordLength(h) == |c.command|
      && h[..|c.command|] == c.command
      && (if |c.command| == |h| then "" else Trim(h[|c.command|..])) == c.arguments
  {
    var h := Header(c);
    var n := |c.command|;
    assert h[..n] == c.command;
    assert forall i :: 0 <= i < n ==> h[i] == c.command[i];
    if c.arguments != "" {
      assert h[n..] == " " + c.arguments;
      TrimStartOf(" ", c.arguments);
      TrimFixesTrimmed(c.arguments);
    }
  }

  /** Parsing when the header and the other lines are known. */
  lemma PartsParse(printed: string, tail: seq<string>, c: Input)
    requires WellFormed(c)
    requires Slash(printed) && !TwoSlashes(printed) && Trimmed(printed)
    requires Lines(printed) == [Header(c)] + tail
    ensures ParseComposerInput(printed) == c.(prompt := Trim(Join(tail)))
  {
    HeaderParses(c);
    TrimFixesTrimmed(printed);
    TrimFixesTrimmed(Header(c));
    assert ([Header(c)] + tail)[1..] == tail;
  }

  lemma PrintedShape(c: Input)
    requires WellFormed(c)
    ensures Slash(Print(c)) && !TwoSlashes(Print(c)) && Trimmed(Print(c))
  {
    HeaderParses(c);
    var printed, h := Print(c), Header(c);
    assert forall i :: 0 <= i < |h| ==> printed[i] == h[i];
    assert c.prompt != "" ==> printed[|printed| - 1] == c.prompt[|c.prompt| - 1];
  }

  function OtherLines(c: Input): seq<string>
    requires c.Command?
  {
    if c.prompt == "" then [] else Lines(c.prompt)
  }

  lemma PrintedLines(c: Input)
    requires WellFormed(c)
    ensures Lines(Print(c)) == [Header(c)] + OtherLines(c)
  {
    HeaderParses(c);
    if c.prompt == "" {
      OneLine(Header(c));
    } else {
      LinesAfterHeader(Header(c), c.prompt);
    }
  }

  lemma PrintedIsOneCommand(c: Input)
    requires WellFormed(c)
    ensures ParseComposerInput(Print(c)) == c.(prompt := Trim(Join(Lines(c.prompt))))
  {
    PrintedShape(c);
    PrintedLines(c);
    PartsParse(Print(c), OtherLines(c), c);
  }

  /** Printing a command and parsing it again gives it back exactly when its prompt has no two-character break. */
  lemma PrintRoundTrip(c: Input)
    requires WellFormed(c)
    ensures ParseComposerInput(Print(c)) == c <==> NoCrLf(c.prompt)
  {
    PrintedIsOneCommand(c);
    JoinOfLines(c.prompt);
    if NoCrLf(c.prompt) {
      TrimFixesTrimmed(c.prompt);
    } else {
      var joined := Join(Lines(c.prompt));
      assert |Trim(joined)| <= |joined|;
    }
  }

  /** A carriage return before each two-character break keeps the break from being shortened. */
  function Guard(s: string): (r: string)
    ensures s != "" ==> r != "" && r[0] == s[0] && r[|r| - 1] == s[|s| - 1]
    ensures s == "" ==> r == ""
    decreases |s|
  {
    if s == "" then ""
    else if |s| >= 2 && s[0] == '\r' && s[1] == '\n' then "\r\r\n" + Guard(s[2..])
    else [s[0]] + Guard(s[1..])
  }

  lemma {:induction false} GuardedLines(s: string)
    ensures Join(Lines(Guard(s))) == s
    decreases |s|
  {
    if s == "" {
    } else if |s| >= 2 && s[0] == '\r' && s[1] == '\n' {
      GuardedLines(s[2..]);
      var rest := Guard(s[2..]);
      GuardedBreak(rest);
      JoinPrepends('\r', [""] + Lines(rest));
      JoinBreak(Lines(rest));
      assert s == ['\r'] + ("\n" + s[2..]);
    } else {
      GuardedLines(s[1..]);
      var rest := Guard(s[1..]);
      assert ([s[0]] + rest)[1..] == rest;
      if s[0] == '\n' {
        JoinBreak(Lines(rest));
      } else {
        assert rest != "" ==> rest[0] == s[1];
        JoinPrepends(s[0], Lines(rest));
      }
      assert s == [s[0]] + s[1..];
    }
  }

  lemma GuardedBreak(rest: string)
    ensures
      var lines := [""] + Lines(rest);
      Lines("\r\r\n" + rest) == [['\r'] + lines[0]] + lines[1..]
  {
    var s := "\r\r\n" + rest;
    var t := s[1..];
    assert t[2..] == rest;
    assert Lines(t) == [""] + Lines(rest);
  }

  function PrintGuarded(c: Input): string
    requires c.Command?
  {
    Print(c.(prompt := Guard(c.prompt)))
  }

  /** Every well-formed command is the reading of an input. */
  lemma EveryCommandHasInput(c: Input)
    requires WellFormed(c)
    ensures ParseComposerInput(PrintGuarded(c)) == c
  {
    PrintedIsOneCommand(c.(prompt := Guard(c.prompt)));
    GuardedLines(c.prompt);
    TrimFixesTrimmed(c.prompt);
  }

  /** A parsed command that printing does not preserve. */
  lemma BreakCanRemain()
    ensures
      var c := Command("/a", "", "b\r\nc");
      ParseComposerInput(PrintGuarded(c)) == c && ParseComposerInput(Print(c)) != c
  {
    var c := Command("/a", "", "b\r\nc");
    assert c.command[1] == 'a' && WellFormed(c);
    assert !NoCrLf(c.prompt) by { assert c.prompt[1] == '\r' && c.prompt[2] == '\n'; }
    PrintRoundTrip(c);
    EveryCommandHasInput(c);
  }

  // ---------------------------------------------------------------- nothing is lost

  /** The characters that are not white space. */
  function Ink(s: string): string {
    if s == "" then "" else (if IsSpace(s[0]) then "" else [s[0]]) + Ink(s[1..])
  }

  lemma {:induction false} InkOfConcat(a: string, b: string)
    ensures Ink(a + b) == Ink(a) + Ink(b)
  {
    if a == "" {
      assert a + b == b;
    } else {
      assert (a + b)[1..] == a[1..] + b;
      InkOfConcat(a[1..], b);
    }
  }

  lemma {:induction false} InkOfSpace(s: string)
    requires AllSpace(s)
    ensures Ink(s) == ""
  {
    if s != "" {
      InkOfSpace(s[1..]);
    }
  }

  lemma InkOfPadded(front: string, s: string, back: string)
    requires AllSpace(front) && AllSpace(back)
    ensures Ink(front + s + back) == Ink(s)
  {
    InkOfConcat(front + s, back);
    InkOfConcat(front, s);
    InkOfSpace(front);
    InkOfSpace(back);
  }

  lemma InkOfStart(s: string)
    ensures Ink(TrimStart(s)) == Ink(s)
  {
    TrimStartFacts(s);
    var lead := s[..|s| - |TrimStart(s)|];
    assert s == lead + TrimStart(s) + "";
    InkOfPadded(lead, TrimStart(s), "");
  }

  lemma InkOfTrimmed(s: string)
    ensures Ink(TrimStart(s)) == Ink(s) == Ink(Trim(s))
  {
    InkOfStart(s);
    TrimIsTrimmed(s);
    var front, back :| AllSpace(front) && AllSpace(back) && s == front + Trim(s) + back;
    InkOfPadded(front, Trim(s), back);
  }

  lemma InkOfFirst(c: char, s: string)
    ensures Ink([c] + s) == (if IsSpace(c) then "" else [c]) + Ink(s)
  {
    assert ([c] + s)[1..] == s;
  }

  lemma {:induction false} InkOfLines(s: string)
    ensures Ink(Join(Lines(s))) == Ink(s)
    decreases |s|
  {
    if s == "" {
    } else if s[0] == '\n' {
      InkOfLines(s[1..]);
      JoinBreak(Lines(s[1..]));
      InkOfFirst('\n', Join(Lines(s[1..])));
    } else if |s| >= 2 && s[0] == '\r' && s[1] == '\n' {
      InkOfLines(s[2..]);
      JoinBreak(Lines(s[2..]));
      InkOfFirst('\n', Join(Lines(s[2..])));
      assert s[1..][1..] == s[2..];
    } else {
      InkOfLines(s[1..]);
      JoinPrepends(s[0], Lines(s[1..]));
      InkOfFirst(s[0], Join(Lines(s[1..])));
    }
  }

  lemma InkOfBreak(line: string, rest: string)
    ensures Ink(line + "\n" + rest) == Ink(line) + Ink(rest)
  {
    InkOfConcat(line + "\n", rest);
    InkOfConcat(line, "\n");
    InkOfSpace("\n");
    assert Ink(line) + "" == Ink(line);
  }

  lemma InkOfJoined(lines: seq<string>)
    requires lines != []
    ensures Ink(Join(lines)) == Ink(lines[0]) + Ink(Join(lines[1..]))
  {
    if |lines| == 1 {
      assert lines[1..] == [] && Ink(lines[0]) + "" == Ink(lines[0]);
    } else {
      InkOfBreak(lines[0], Join(lines[1..]));
    }
  }

  lemma InkOfHeader(header: string)
    ensures
      var n := WordLength(header);
      Ink(header) == Ink(header[..n]) + Ink(if n == |header| then "" else Trim(header[n..]))
  {
    var n := WordLength(header);
    InkOfConcat(header[..n], header[n..]);
    assert header == header[..n] + header[n..];
    InkOfTrimmed(header[n..]);
  }

  /** Reading a command drops nothing but white space: command, arguments and prompt hold every other character, in order. */
  lemma NothingButSpaceIsLost(value: string)
    requires ParseComposerInput(value).Command?
    ensures
      var c := ParseComposerInput(value);
      Ink(value) == Ink(c.command) + Ink(c.arguments) + Ink(c.prompt)
  {
    var start := TrimStart(value);
    var lines := Lines(Trim(start));
    InkOfTrimmed(value);
    InkOfTrimmed(start);
    InkOfLines(Trim(start));
    InkOfJoined(lines);
    InkOfTrimmed(lines[0]);
    InkOfHeader(Trim(lines[0]));
    InkOfTrimmed(Join(lines[1..]));
  }

  predicate NoReturn(s: string) {
    forall i :: 0 <= i < |s| ==> s[i] != '\r'
  }

  lemma {:induction false} LinesWithoutReturns(s: string)
    requires NoReturn(s)
    ensures NoReturn(Join(Lines(s))) && NoReturn(Join(Lines(s)[1..]))
  {
    if s != "" {
      LinesWithoutReturns(s[1..]);
      var rest := Lines(s[1..]);
      if s[0] == '\n' {
        JoinBreak(rest);
        assert Lines(s)[1..] == rest;
      } else {
        JoinPrepends(s[0], rest);
        assert Lines(s)[1..] == rest[1..];
      }
    }
  }

  lemma TrimWithoutReturns(s: string)
    requires NoReturn(s)
    ensures NoReturn(Trim(s)) && NoReturn(TrimStart(s))
  {
    TrimStartFacts(s);
    TrimEndFacts(TrimStart(s));
  }

  /** A command typed without carriage returns survives printing and parsing. */
  lemma TypedCommandRoundTrip(value: string)
    requires ParseComposerInput(value).Command? && NoReturn(value)
    ensures ParseComposerInput(Print(ParseComposerInput(value))) == ParseComposerInput(value)
  {
    TrimWithoutReturns(value);
    TrimWithoutReturns(TrimStart(value));
    LinesWithoutReturns(Trim(TrimStart(value)));
    TrimWithoutReturns(Join(Lines(Trim(TrimStart(value)))[1..]));
    ParsedIsWellFormed(value);
    PrintRoundTrip(ParseComposerInput(value));
  }
}
