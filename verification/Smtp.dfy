/** Receiving mail: internal/smtp/server.go. The connection is a string of bytes to read. */
module SmtpData {
  import opened Support
  import opened Text

  datatype DataResult = Message(raw: string) | TooLarge | EndOfInput

  predicate IsTerminator(line: string) {
    line == ".\r\n" || line == ".\n"
  }

  function Unstuff(line: string): string {
    if HasPrefix(line, "..") then line[1..] else line
  }

  /** What reading the data makes of the rest of the input, given what is already in the buffer,
      and what it leaves unread. */
  function ReadFrom(rest: string, buf: string, maxBytes: int): (r: (DataResult, string))
    ensures |r.1| <= |rest|
    decreases |rest|
  {
    var i := Index(rest, '\n');
    if i < 0 then (EndOfInput, "")
    else
      var line, tail := rest[..i + 1], rest[i + 1..];
      if IsTerminator(line) then (Message(buf), tail)
      else if |buf| + |Unstuff(line)| > maxBytes then (TooLarge, tail)
      else ReadFrom(tail, buf + Unstuff(line), maxBytes)
  }

  /** The sender's side of transparency, section 4.5.2 of RFC 5321: a line that begins with a dot
      gets one more. */
  function Stuff(m: string): string
    decreases |m|
  {
    var i := Index(m, '\n');
    if m == "" then ""
    else if i < 0 then StuffLine(m)
    else StuffLine(m[..i + 1]) + Stuff(m[i + 1..])
  }

  function StuffLine(line: string): string {
    if line != "" && line[0] == '.' then "." + line else line
  }

  predicate IsLine(line: string) {
    line != "" && line[|line| - 1] == '\n' && forall i :: 0 <= i < |line| - 1 ==> line[i] != '\n'
  }

  predicate Complete(m: string) {
    m == "" || m[|m| - 1] == '\n'
  }

  lemma {:induction false} FirstLine(line: string, tail: string)
    requires IsLine(line)
    ensures Index(line + tail, '\n') == |line| - 1
    ensures (line + tail)[..|line|] == line && (line + tail)[|line|..] == tail
  {
    IndexIs(line + tail, '\n', |line| - 1);
  }

  lemma StuffedLine(line: string)
    requires IsLine(line)
    ensures IsLine(StuffLine(line)) && Unstuff(StuffLine(line)) == line && !IsTerminator(StuffLine(line))
  {
  }

  lemma {:induction false} ReadLine(line: string, tail: string, buf: string, maxBytes: int)
    requires IsLine(line)
    ensures ReadFrom(line + tail, buf, maxBytes) ==
            if IsTerminator(line) then (Message(buf), tail)
            else if |buf| + |Unstuff(line)| > maxBytes then (TooLarge, tail)
            else ReadFrom(tail, buf + Unstuff(line), maxBytes)
  {
    FirstLine(line, tail);
  }

  lemma StuffSplits(m: string) returns (line: string, rest: string)
    requires m != "" && Complete(m)
    ensures m == line + rest && IsLine(line) && Complete(rest)
    ensures Stuff(m) == StuffLine(line) + Stuff(rest)
  {
    var i := Index(m, '\n');
    assert i >= 0;
    line, rest := m[..i + 1], m[i + 1..];
  }

  /** There is room for m behind what has been read; the empty message always fits. */
  predicate Fits(buf: string, m: string, maxBytes: int) {
    m == "" || |buf| + |m| <= maxBytes
  }

  /** Reading a dot-stuffed text appends the text to the buffer, or finds it too large. */
  lemma {:induction false} ReadStuffed(m: string, buf: string, tail: string, maxBytes: int)
    requires Complete(m)
    ensures Fits(buf, m, maxBytes) ==> ReadFrom(Stuff(m) + tail, buf, maxBytes) == ReadFrom(tail, buf + m, maxBytes)
    ensures !Fits(buf, m, maxBytes) ==> ReadFrom(Stuff(m) + tail, buf, maxBytes).0 == TooLarge
    decreases |m|
  {
    if m == "" {
      assert Stuff(m) + tail == tail && buf + m == buf;
    } else {
      var line, more := StuffSplits(m);
      StuffedLine(line);
      Associative(StuffLine(line), Stuff(more), tail);
      ReadLine(StuffLine(line), Stuff(more) + tail, buf, maxBytes);
      if |buf| + |line| <= maxBytes {
        ReadStuffed(more, buf + line, tail, maxBytes);
        Associative(buf, line, more);
      }
    }
  }

  /** Reading back a dot-stuffed message: it succeeds exactly when the message fits the limit,
      returns the message, and leaves what follows the terminator unread. */
  lemma {:induction false} DataRoundTrip(m: string, end: string, rest: string, maxBytes: int)
    requires Complete(m) && IsTerminator(end)
    ensures ReadFrom(Stuff(m) + end + rest, "", maxBytes).0.Message? <==> Fits("", m, maxBytes)
    ensures !Fits("", m, maxBytes) ==> ReadFrom(Stuff(m) + end + rest, "", maxBytes).0.TooLarge?
    ensures Fits("", m, maxBytes) ==> ReadFrom(Stuff(m) + end + rest, "", maxBytes) == (Message(m), rest)
  {
    Associative(Stuff(m), end, rest);
    ReadStuffedToEnd(m, end, rest, maxBytes);
  }

  lemma {:induction false} ReadStuffedToEnd(m: string, end: string, rest: string, maxBytes: int)
    requires Complete(m) && IsTerminator(end)
    ensures var r := ReadFrom(Stuff(m) + (end + rest), "", maxBytes);
            if Fits("", m, maxBytes) then r == (Message(m), rest) else r.0 == TooLarge
  {
    ReadStuffed(m, "", end + rest, maxBytes);
    ReadLine(end, rest, m, maxBytes);
    assert "" + m == m;
  }

  /** With the two terminators written out. */
  lemma {:induction false} TerminatorEnds(m: string, rest: string, maxBytes: int)
    requires Complete(m) && (m == "" || |m| <= maxBytes)
    ensures ReadFrom(Stuff(m) + ".\r\n" + rest, "", maxBytes) == (Message(m), rest)
    ensures ReadFrom(Stuff(m) + ".\n" + rest, "", maxBytes) == (Message(m), rest)
  {
    DataRoundTrip(m, ".\r\n", rest, maxBytes);
    DataRoundTrip(m, ".\n", rest, maxBytes);
  }

  /** Where stuffing puts its dots. */
  lemma {:induction false} StuffMeans(line: string, rest: string)
    requires line != "" && line[|line| - 1] == '\n' && forall i :: 0 <= i < |line| - 1 ==> line[i] != '\n'
    ensures Stuff(line + rest) == (if line[0] == '.' then "." + line else line) + Stuff(rest) && Stuff("") == ""
  {
    FirstLine(line, rest);
  }

  /** A whole line that is not a dot alone. */
  predicate IsText(line: string) {
    && line != "" && line[|line| - 1] == '\n' && (forall i :: 0 <= i < |line| - 1 ==> line[i] != '\n')
    && line != ".\r\n" && line != ".\n"
  }

  ghost predicate StripsDots(lines: seq<string>, texts: seq<string>) {
    |texts| == |lines| && forall i :: 0 <= i < |lines| ==>
      texts[i] == if |lines[i]| >= 2 && lines[i][0] == '.' && lines[i][1] == '.' then lines[i][1..] else lines[i]
  }

  /** The input is these lines, a dot alone and what is left; they stand for raw behind buf. */
  ghost predicate EndsAtDot(rest: string, buf: string, lines: seq<string>, texts: seq<string>, end: string, left: string,
                            raw: string) {
    && rest == Flatten(lines) + end + left && (end == ".\r\n" || end == ".\n") && (forall l :: l in lines ==> IsText(l))
    && StripsDots(lines, texts) && raw == buf + Flatten(texts)
  }

  lemma {:induction false} OneLineMore(line: string, tail: string, buf: string, text: string,
                                       lines: seq<string>, texts: seq<string>, end: string, left: string, raw: string)
    requires EndsAtDot(tail, buf + text, lines, texts, end, left, raw) && IsText(line) && StripsDots([line], [text])
    ensures EndsAtDot(line + tail, buf, [line] + lines, [text] + texts, end, left, raw)
  {
    FlattenCons(line, lines);
    FlattenCons(text, texts);
    Associative(line, Flatten(lines), end);
    Associative(line, Flatten(lines) + end, left);
    Associative(buf, text, Flatten(texts));
    assert [line][0] == line && [text][0] == text;
  }

  lemma {:induction false} DotAlone(line: string, tail: string, buf: string)
    requires line == ".\r\n" || line == ".\n"
    ensures EndsAtDot(line + tail, buf, [], [], line, tail, buf)
  {
    assert [] + line == line && buf + [] == buf;
  }

  lemma {:induction false} NextIsText(rest: string)
    requires Index(rest, '\n') >= 0
    ensures var i := Index(rest, '\n'); IsLine(rest[..i + 1]) && rest == rest[..i + 1] + rest[i + 1..]
  {
  }

  lemma {:induction false} MessageEndsAtDot(rest: string, buf: string, maxBytes: int, raw: string, left: string)
    returns (lines: seq<string>, texts: seq<string>, end: string)
    requires ReadFrom(rest, buf, maxBytes) == (Message(raw), left)
    ensures EndsAtDot(rest, buf, lines, texts, end, left, raw)
    decreases |rest|
  {
    var i := Index(rest, '\n');
    var line, tail := rest[..i + 1], rest[i + 1..];
    NextIsText(rest);
    if IsTerminator(line) {
      lines, texts, end := [], [], line;
      DotAlone(line, tail, buf);
    } else {
      lines, texts, end := MessageEndsAtDot(tail, buf + Unstuff(line), maxBytes, raw, left);
      LineStripped(line);
      OneLineMore(line, tail, buf, Unstuff(line), lines, texts, end, left, raw);
      lines, texts := [line] + lines, [Unstuff(line)] + texts;
    }
  }

  lemma {:induction false} LineStripped(line: string)
    requires IsLine(line) && !IsTerminator(line)
    ensures IsText(line) && StripsDots([line], [Unstuff(line)])
  {
  }

  lemma {:induction false} WithoutFirst(rest: string, buf: string, lines: seq<string>, texts: seq<string>, end: string,
                                        left: string, raw: string) returns (tail: string)
    requires lines != [] && EndsAtDot(rest, buf, lines, texts, end, left, raw)
    ensures rest == lines[0] + tail && EndsAtDot(tail, buf + texts[0], lines[1..], texts[1..], end, left, raw)
    ensures IsText(lines[0]) && texts[0] == Unstuff(lines[0]) && |buf| + |texts[0]| <= |raw|
  {
    tail := Flatten(lines[1..]) + end + left;
    Associative(lines[0], Flatten(lines[1..]), end);
    Associative(lines[0], Flatten(lines[1..]) + end, left);
    Associative(buf, texts[0], Flatten(texts[1..]));
  }

  lemma {:induction false} DotEndsMessage(rest: string, buf: string, lines: seq<string>, texts: seq<string>, end: string,
                                          left: string, raw: string, maxBytes: int)
    requires EndsAtDot(rest, buf, lines, texts, end, left, raw) && (lines == [] || |raw| <= maxBytes)
    ensures ReadFrom(rest, buf, maxBytes) == (Message(raw), left)
    decreases |lines|
  {
    if lines == [] {
      assert rest == end + left && raw == buf;
      ReadLine(end, left, buf, maxBytes);
    } else {
      var tail := WithoutFirst(rest, buf, lines, texts, end, left, raw);
      DotEndsMessage(tail, buf + texts[0], lines[1..], texts[1..], end, left, raw, maxBytes);
      ReadLine(lines[0], tail, buf, maxBytes);
    }
  }

  /** A message is returned exactly if a line is a dot alone and what the lines before it say, with one
      of two leading dots taken off, fits the limit; reading stops behind that line. */
  lemma {:induction false} MessageIff(rest: string, maxBytes: int, raw: string, left: string)
    ensures ReadFrom(rest, "", maxBytes) == (Message(raw), left) <==>
            (raw == "" || |raw| <= maxBytes) && exists lines, texts, end :: EndsAtDot(rest, "", lines, texts, end, left, raw)
  {
    if ReadFrom(rest, "", maxBytes) == (Message(raw), left) {
      var lines, texts, end := MessageEndsAtDot(rest, "", maxBytes, raw, left);
      ReadFits(rest, "", maxBytes);
    }
    if (raw == "" || |raw| <= maxBytes) && exists lines, texts, end :: EndsAtDot(rest, "", lines, texts, end, left, raw) {
      var lines, texts, end :| EndsAtDot(rest, "", lines, texts, end, left, raw);
      if lines != [] {
        var tail := WithoutFirst(rest, "", lines, texts, end, left, raw);
      }
      DotEndsMessage(rest, "", lines, texts, end, left, raw, maxBytes);
    }
  }

  lemma {:induction false} ReadFits(rest: string, buf: string, maxBytes: int)
    ensures var data := ReadFrom(rest, buf, maxBytes).0;
            data.Message? ==> data.raw == buf || |data.raw| <= maxBytes
    decreases |rest|
  {
    var i := Index(rest, '\n');
    if i >= 0 && !IsTerminator(rest[..i + 1]) {
      ReadFits(rest[i + 1..], buf + Unstuff(rest[..i + 1]), maxBytes);
    }
  }

  /** Whatever arrives, a message that is accepted fits the limit and consists of whole lines. */
  lemma {:induction false} AcceptedFits(rest: string, buf: string, maxBytes: int)
    requires |buf| <= maxBytes && Complete(buf)
    ensures var r := ReadFrom(rest, buf, maxBytes).0;
            r.Message? ==> |r.raw| <= maxBytes && Complete(r.raw) && buf <= r.raw
    decreases |rest|
  {
    var i := Index(rest, '\n');
    if i >= 0 {
      var line := rest[..i + 1];
      var kept := Unstuff(line);
      if !IsTerminator(line) && |buf| + |kept| <= maxBytes {
        assert kept[|kept| - 1] == '\n';
        AcceptedFits(rest[i + 1..], buf + kept, maxBytes);
      }
    }
  }

  /** What is left once all of a message's lines have gone by, up to its terminator, whatever
      their size. */
  function SkipData(rest: string): (r: string)
    ensures rest != "" ==> |r| < |rest|
    decreases |rest|
  {
    var i := Index(rest, '\n');
    if i < 0 then ""
    else if IsTerminator(rest[..i + 1]) then rest[i + 1..]
    else SkipData(rest[i + 1..])
  }

  /** Reading stops at the end of the message unless the message is too large; then it stops
      somewhere inside. */
  lemma {:induction false} ReadStopsInside(rest: string, buf: string, maxBytes: int)
    ensures var r := ReadFrom(rest, buf, maxBytes);
            if r.0.TooLarge? then SkipData(r.1) == SkipData(rest) else r.1 == SkipData(rest)
    decreases |rest|
  {
    var i := Index(rest, '\n');
    if i >= 0 {
      var kept := Unstuff(rest[..i + 1]);
      if !IsTerminator(rest[..i + 1]) && |buf| + |kept| <= maxBytes {
        ReadStopsInside(rest[i + 1..], buf + kept, maxBytes);
      }
    }
  }

  /** The whole lines of the input, and what is behind the last of them. */
  function Lines(rest: string): seq<string>
    decreases |rest|
  {
    var i := Index(rest, '\n');
    if i < 0 then [] else [rest[..i + 1]] + Lines(rest[i + 1..])
  }

  function LastPart(rest: string): string
    decreases |rest|
  {
    var i := Index(rest, '\n');
    if i < 0 then rest else LastPart(rest[i + 1..])
  }

  /** How much text lines of data stand for. */
  function TextSize(lines: seq<string>): nat {
    if lines == [] then 0 else |Unstuff(lines[0])| + TextSize(lines[1..])
  }

  /** The first n lines are all of the message and more text than there is room for. */
  predicate TooLongHead(lines: seq<string>, n: int, room: int) {
    0 < n <= |lines| && (forall k :: 0 <= k < n ==> !IsTerminator(lines[k])) && TextSize(lines[..n]) > room
  }

  /** A message that begins like that, and the input goes on behind those lines. */
  ghost predicate Overruns(rest: string, room: int) {
    exists n :: TooLongHead(Lines(rest), n, room) && (n < |Lines(rest)| || LastPart(rest) != "")
  }

  /** Some line is the first to overrun, and something is behind it. */
  predicate CutsOff(lines: seq<string>, more: bool, room: int) {
    && lines != [] && !IsTerminator(lines[0])
    && if |Unstuff(lines[0])| > room then |lines| > 1 || more else CutsOff(lines[1..], more, room - |Unstuff(lines[0])|)
  }

  lemma SizeOfHead(lines: seq<string>, n: int)
    requires 0 < n <= |lines|
    ensures TextSize(lines[..n]) == |Unstuff(lines[0])| + TextSize(lines[1..][..n - 1])
  {
    assert lines[..n][1..] == lines[1..][..n - 1];
  }

  lemma {:induction false} LongHeadOf(lines: seq<string>, more: bool, room: int) returns (n: int)
    requires CutsOff(lines, more, room)
    ensures TooLongHead(lines, n, room) && (n < |lines| || more)
  {
    n := 1;
    if |Unstuff(lines[0])| <= room {
      var k := LongHeadOf(lines[1..], more, room - |Unstuff(lines[0])|);
      n := k + 1;
    }
    SizeOfHead(lines, n);
  }

  lemma {:induction false} LongHeadCutsOff(lines: seq<string>, more: bool, n: int, room: int)
    requires TooLongHead(lines, n, room) && (n < |lines| || more)
    ensures CutsOff(lines, more, room)
  {
    SizeOfHead(lines, n);
    if |Unstuff(lines[0])| <= room {
      assert n > 1;
      LongHeadCutsOff(lines[1..], more, n - 1, room - |Unstuff(lines[0])|);
    }
  }

  lemma {:induction false} CutsOffIff(rest: string, room: int)
    ensures CutsOff(Lines(rest), LastPart(rest) != "", room) <==> Overruns(rest, room)
  {
    if CutsOff(Lines(rest), LastPart(rest) != "", room) {
      var n := LongHeadOf(Lines(rest), LastPart(rest) != "", room);
    }
    if n :| TooLongHead(Lines(rest), n, room) && (n < |Lines(rest)| || LastPart(rest) != "") {
      LongHeadCutsOff(Lines(rest), LastPart(rest) != "", n, room);
    }
  }

  lemma {:induction false} FirstOfLines(rest: string)
    requires Index(rest, '\n') >= 0
    ensures var i, lines := Index(rest, '\n'), Lines(rest);
      && lines != [] && lines[0] == rest[..i + 1] && lines[1..] == Lines(rest[i + 1..])
      && LastPart(rest) == LastPart(rest[i + 1..])
      && (rest[i + 1..] != "" <==> |lines| > 1 || LastPart(rest) != "")
  {
  }

  lemma {:induction false} FirstLineOverruns(line: string, tail: string, room: int)
    requires IsLine(line) && !IsTerminator(line) && |Unstuff(line)| > room && tail != ""
    ensures Overruns(line + tail, room)
  {
    FirstLine(line, tail);
    FirstOfLines(line + tail);
    SizeOfHead(Lines(line + tail), 1);
    assert TooLongHead(Lines(line + tail), 1, room);
  }

  lemma CutsOffNext(lines: seq<string>, more: bool, room: int)
    requires lines != []
    ensures CutsOff(lines, more, room) <==>
      !IsTerminator(lines[0]) &&
      if |Unstuff(lines[0])| > room then |lines| > 1 || more else CutsOff(lines[1..], more, room - |Unstuff(lines[0])|)
  {
  }

  lemma {:induction false} ReadNext(rest: string, buf: string, maxBytes: int)
    requires Index(rest, '\n') >= 0
    ensures var i := Index(rest, '\n'); var line, tail := rest[..i + 1], rest[i + 1..];
      ReadFrom(rest, buf, maxBytes) ==
        if IsTerminator(line) then (Message(buf), tail)
        else if |buf| + |Unstuff(line)| > maxBytes then (TooLarge, tail)
        else ReadFrom(tail, buf + Unstuff(line), maxBytes)
  {
  }

  lemma {:induction false} ReadCutsOff(rest: string, buf: string, maxBytes: int, room: int)
    requires room == maxBytes - |buf|
    ensures var r := ReadFrom(rest, buf, maxBytes);
            CutsOff(Lines(rest), LastPart(rest) != "", room) <==> r.0.TooLarge? && r.1 != ""
    decreases |rest|
  {
    var i := Index(rest, '\n');
    if i >= 0 {
      FirstOfLines(rest);
      CutsOffNext(Lines(rest), LastPart(rest) != "", room);
      ReadNext(rest, buf, maxBytes);
      var line, tail := rest[..i + 1], rest[i + 1..];
      if !IsTerminator(line) && |Unstuff(line)| <= room {
        ReadCutsOff(tail, buf + Unstuff(line), maxBytes, room - |Unstuff(line)|);
      }
    }
  }

  lemma {:induction false} SkipIsLess(rest: string, r: string)
    requires SkipData(r) == SkipData(rest)
    ensures r == SkipData(rest) <==> r == ""
  {
  }

  /** What is left after reading is what is behind the message's end, unless the message begins
      with more text than there is room for and does not end there. */
  lemma {:induction false} SkippedIff(rest: string, maxBytes: int)
    ensures ReadFrom(rest, "", maxBytes).1 == SkipData(rest) <==> !Overruns(rest, maxBytes)
  {
    var r := ReadFrom(rest, "", maxBytes);
    ReadStopsInside(rest, "", maxBytes);
    ReadCutsOff(rest, "", maxBytes, maxBytes);
    if r.0.TooLarge? {
      SkipIsLess(rest, r.1);
    }
    CutsOffIff(rest, maxBytes);
  }

  class Reader {
    var rest: string

    constructor (input: string)
      ensures rest == input
    {
      rest := input;
    }

    /** bufio's ReadString('\n'); without a newline the rest is consumed and it is an error. */
    method ReadLine() returns (line: Option<string>)
      modifies this
      ensures var i := Index(old(rest), '\n');
              if i < 0 then line.None? && rest == ""
              else line == Some(old(rest)[..i + 1]) && rest == old(rest)[i + 1..]
    {
      var i := Index(rest, '\n');
      if i < 0 {
        line, rest := None, "";
      } else {
        line, rest := Some(rest[..i + 1]), rest[i + 1..];
      }
    }
  }

  method ReadData(r: Reader, maxBytes: int) returns (res: DataResult)
    modifies r
    ensures (res, r.rest) == ReadFrom(old(r.rest), "", maxBytes)
  {
    var buf := "";
    while true
      invariant ReadFrom(r.rest, buf, maxBytes) == ReadFrom(old(r.rest), "", maxBytes)
      decreases |r.rest|
    {
      var got := r.ReadLine();
      if got.None? {
        return EndOfInput;
      }
      var line := got.value;
      if line == ".\r\n" || line == ".\n" {
        return Message(buf);
      }
      if HasPrefix(line, "..") {
        line := line[1..];
      }
      if |buf| + |line| > maxBytes {
        return TooLarge;
      }
      buf := buf + line;
    }
  }
}

module SmtpSession {
  import opened Support
  import opened Text
  import opened Addresses
  import opened SmtpData

  datatype Command = Ehlo | Helo | AuthPlain | MailFrom | RcptTo(arg: string) | Data | Rset | Noop | Quit | Unknown

  function UpperChar(c: char): char {
    if 'a' <= c <= 'z' then (c as int - 32) as char else c
  }

  function Upper(s: string): (r: string)
    ensures |r| == |s|
  {
    seq(|s|, i requires 0 <= i < |s| => UpperChar(s[i]))
  }

  /** The switch of handleConn, first match wins. */
  function Classify(line: string): Command {
    var cmd := TrimSpace(line);
    var ucmd := Upper(cmd);
    if HasPrefix(ucmd, "EHLO") then Ehlo
    else if HasPrefix(ucmd, "HELO") then Helo
    else if HasPrefix(ucmd, "AUTH PLAIN") then AuthPlain
    else if HasPrefix(ucmd, "MAIL FROM:") then MailFrom
    else if HasPrefix(ucmd, "RCPT TO:") then RcptTo(cmd[|"RCPT TO:"|..])
    else if ucmd == "DATA" then Data
    else if ucmd == "RSET" then Rset
    else if ucmd == "NOOP" then Noop
    else if ucmd == "QUIT" then Quit
    else Unknown
  }

  /** The trimmed line begins with this word, in any case. */
  predicate Begins(line: string, word: string) {
    var cmd := TrimSpace(line);
    |cmd| >= |word| && SameText(cmd[..|word|], word)
  }

  /** The trimmed line is this word, in any case. */
  predicate Says(line: string, word: string) {
    SameText(TrimSpace(line), word)
  }

  /** How a line is to be read. */
  predicate ReadAs(line: string, c: Command) {
    match c
    case Ehlo => Begins(line, "EHLO")
    case Helo => Begins(line, "HELO")
    case AuthPlain => Begins(line, "AUTH PLAIN")
    case MailFrom => Begins(line, "MAIL FROM:")
    case RcptTo(arg) => Begins(line, "RCPT TO:") && arg == TrimSpace(line)[8..]
    case Data => Says(line, "DATA")
    case Rset => Says(line, "RSET")
    case Noop => Says(line, "NOOP")
    case Quit => Says(line, "QUIT")
    case Unknown =>
      && !Begins(line, "EHLO") && !Begins(line, "HELO") && !Begins(line, "AUTH PLAIN") && !Begins(line, "MAIL FROM:")
      && !Begins(line, "RCPT TO:") && !Says(line, "DATA") && !Says(line, "RSET") && !Says(line, "NOOP") && !Says(line, "QUIT")
  }

  lemma UpperIff(s: string, word: string)
    requires forall i :: 0 <= i < |word| ==> !('a' <= word[i] <= 'z')
    ensures Upper(s) == word <==> SameText(s, word)
  {
    if Upper(s) == word {
      forall i | 0 <= i < |s|
        ensures SameLetter(s[i], word[i])
      {
        assert Upper(s)[i] == word[i];
      }
    }
  }

  lemma {:induction false} UpperPrefixIff(line: string, word: string)
    requires forall i :: 0 <= i < |word| ==> !('a' <= word[i] <= 'z')
    ensures HasPrefix(Upper(TrimSpace(line)), word) <==> Begins(line, word)
  {
    var cmd := TrimSpace(line);
    if |cmd| >= |word| {
      UpperIff(cmd[..|word|], word);
      assert Upper(cmd)[..|word|] == Upper(cmd[..|word|]);
    }
  }

  lemma {:induction false} LongWords(line: string)
    ensures var u := Upper(TrimSpace(line));
      && (HasPrefix(u, "EHLO") <==> Begins(line, "EHLO")) && (HasPrefix(u, "HELO") <==> Begins(line, "HELO"))
      && (HasPrefix(u, "AUTH PLAIN") <==> Begins(line, "AUTH PLAIN"))
      && (HasPrefix(u, "MAIL FROM:") <==> Begins(line, "MAIL FROM:"))
      && (HasPrefix(u, "RCPT TO:") <==> Begins(line, "RCPT TO:"))
  {
    UpperPrefixIff(line, "EHLO");
    UpperPrefixIff(line, "HELO");
    UpperPrefixIff(line, "AUTH PLAIN");
    UpperPrefixIff(line, "MAIL FROM:");
    UpperPrefixIff(line, "RCPT TO:");
  }

  lemma {:induction false} ShortWords(line: string)
    ensures var u := Upper(TrimSpace(line));
      && (u == "DATA" <==> Says(line, "DATA")) && (u == "RSET" <==> Says(line, "RSET"))
      && (u == "NOOP" <==> Says(line, "NOOP")) && (u == "QUIT" <==> Says(line, "QUIT"))
  {
    UpperIff(TrimSpace(line), "DATA");
    UpperIff(TrimSpace(line), "RSET");
    UpperIff(TrimSpace(line), "NOOP");
    UpperIff(TrimSpace(line), "QUIT");
  }

  lemma ClassifyIs(line: string)
    ensures ReadAs(line, Classify(line))
  {
    LongWords(line);
    ShortWords(line);
  }

  /** The first and third letters tell the commands apart. */
  lemma ReadOneWay(line: string, c: Command, d: Command)
    requires ReadAs(line, c) && ReadAs(line, d)
    ensures c == d
  {
    var cmd := TrimSpace(line);
    assert !c.Unknown? && !d.Unknown? ==> |cmd| >= 4;
  }

  /** Every line is read as one command, and this is which. */
  lemma CommandIff(line: string, c: Command)
    ensures Classify(line) == c <==> ReadAs(line, c)
  {
    ClassifyIs(line);
    if ReadAs(line, c) {
      ReadOneWay(line, c, Classify(line));
    }
  }

  /** strings.Trim(s, "<>"). */
  function TrimAngles(s: string): string {
    if s != "" && (s[0] == '<' || s[0] == '>') then TrimAngles(s[1..])
    else if s != "" && (s[|s| - 1] == '<' || s[|s| - 1] == '>') then TrimAngles(s[..|s| - 1])
    else s
  }

  function ExtractPath(v: string): string {
    TrimSpace(TrimAngles(TrimSpace(v)))
  }

  predicate HasSuffix(s: string, x: string) {
    |x| <= |s| && s[|s| - |x|..] == x
  }

  predicate IsAllowed(addr: string, domain: string) {
    HasSuffix(TrimAngles(TrimSpace(Lower(addr))), "@" + Lower(TrimSpace(domain)))
  }

  lemma {:induction false} TrimAnglesIs(s: string)
    ensures CutFrom(s, TrimAngles(s), {'<', '>'})
    decreases |s|
  {
    if s != "" && (s[0] == '<' || s[0] == '>') {
      TrimAnglesIs(s[1..]);
      assert s[1..|s|] == s[1..];
      CutMore(s, TrimAngles(s), {'<', '>'}, 1, |s|);
    } else if s != "" && (s[|s| - 1] == '<' || s[|s| - 1] == '>') {
      TrimAnglesIs(s[..|s| - 1]);
      assert s[0..|s| - 1] == s[..|s| - 1];
      CutMore(s, TrimAngles(s), {'<', '>'}, 0, |s| - 1);
    } else {
      NothingToCut(s, {'<', '>'});
    }
  }

  ghost predicate IsPath(v: string, inner: string, bare: string, path: string) {
    && CutFrom(v, inner, {' ', '\t', '\n', '\U{0B}', '\U{0C}', '\r'}) && CutFrom(inner, bare, {'<', '>'})
    && CutFrom(bare, path, {' ', '\t', '\n', '\U{0B}', '\U{0C}', '\r'})
  }

  /** A path is what is left without white space, angle brackets, and white space inside them. */
  lemma PathIs(v: string)
    ensures exists inner, bare :: IsPath(v, inner, bare, ExtractPath(v))
  {
    TrimSpaceIs(v);
    TrimAnglesIs(TrimSpace(v));
    TrimSpaceIs(TrimAngles(TrimSpace(v)));
    assert IsPath(v, TrimSpace(v), TrimAngles(TrimSpace(v)), ExtractPath(v));
  }

  lemma {:induction false} LowerAngles(s: string)
    ensures TrimAngles(Lower(s)) == Lower(TrimAngles(s))
    decreases |s|
  {
    if s != "" {
      if s[0] == '<' || s[0] == '>' {
        assert Lower(s)[1..] == Lower(s[1..]);
        LowerAngles(s[1..]);
      } else if s[|s| - 1] == '<' || s[|s| - 1] == '>' {
        assert Lower(s)[..|s| - 1] == Lower(s[..|s| - 1]);
        LowerAngles(s[..|s| - 1]);
      }
    }
  }

  /** s ends with x, in any case. */
  predicate EndsWith(s: string, x: string) {
    |x| <= |s| && SameText(s[|s| - |x|..], x)
  }

  lemma SuffixIff(s: string, x: string)
    ensures HasSuffix(Lower(s), Lower(x)) <==> EndsWith(s, x)
  {
    if |x| <= |s| {
      LowerIff(s[|s| - |x|..], x);
      assert Lower(s)[|s| - |x|..] == Lower(s[|s| - |x|..]);
    }
  }

  lemma {:induction false} LowerBare(addr: string, domain: string)
    ensures TrimAngles(TrimSpace(Lower(addr))) == Lower(TrimAngles(TrimSpace(addr)))
    ensures "@" + Lower(TrimSpace(domain)) == Lower("@" + TrimSpace(domain))
  {
    LowerTrimCommute(addr);
    LowerAngles(TrimSpace(addr));
  }

  /** An address is allowed exactly if it ends with the domain behind a sign, in any case. */
  lemma {:induction false} AllowedIff(addr: string, domain: string)
    ensures IsAllowed(addr, domain) <==> EndsWith(TrimAngles(TrimSpace(addr)), "@" + TrimSpace(domain))
  {
    LowerBare(addr, domain);
    SuffixIff(TrimAngles(TrimSpace(addr)), "@" + TrimSpace(domain));
  }

  datatype RelayCall = RelayCall(rcpt: string, raw: string, ok: bool)

  /** One command, the reply codes it got, what was read as its data, and the relay calls it
      led to. */
  datatype Exchange = Exchange(cmd: Command, replies: seq<int>, data: Option<DataResult>, calls: seq<RelayCall>)

  datatype Config = Config(domain: string, parserDomain: string, maxBytes: int)

  function RcptReply(cfg: Config, aliases: Aliases, arg: string): int {
    var addr := ExtractPath(arg);
    if addr == "" then 501
    else if !IsAllowed(addr, cfg.domain) then 550
    else if ParseAddress(cfg.parserDomain, aliases, addr).Err? then 550
    else 250
  }

  /** A recipient needs a path, the served domain in any case, and an address that parses; the reply
      tells a missing path from the rest. */
  lemma RcptReplyIff(cfg: Config, aliases: Aliases, arg: string)
    ensures var path, code := ExtractPath(arg), RcptReply(cfg, aliases, arg);
      && code in {250, 501, 550} && (code == 501 <==> path == "")
      && (code == 250 <==> path != "" && EndsWith(TrimAngles(path), "@" + TrimSpace(cfg.domain))
                           && ParseAddress(cfg.parserDomain, aliases, path).Ok?)
  {
    AllowedIff(ExtractPath(arg), cfg.domain);
  }

  /** The recipients that a transcript adds up to: those accepted since the last MAIL FROM or
      RSET. A finished DATA does not clear them. */
  function Recipients(t: seq<Exchange>): seq<string> {
    if t == [] then [] else NextRecipients(Recipients(t[..|t| - 1]), t[|t| - 1])
  }

  function NextRecipients(before: seq<string>, x: Exchange): seq<string> {
    if x.cmd.MailFrom? || x.cmd.Rset? then []
    else if x.cmd.RcptTo? && x.replies == [250] then before + [ExtractPath(x.cmd.arg)]
    else before
  }

  ghost predicate CallsFor(calls: seq<RelayCall>, rcpts: seq<string>, raw: string) {
    |calls| <= |rcpts| && forall i :: 0 <= i < |calls| ==> calls[i].rcpt == rcpts[i] && calls[i].raw == raw
  }

  /** What the reply to DATA says about the data and the relay calls. */
  ghost predicate DataAnswer(rcpts: seq<string>, x: Exchange) {
    if rcpts == [] then x.replies == [503] && x.data.None? && x.calls == []
    else if x.data.None? then false
    else if !x.data.value.Message? then x.replies == [354, 552] && x.calls == []
    else CallsFor(x.calls, rcpts, x.data.value.raw) && (AllAccepted(rcpts, x) || LastFailed(x))
  }

  ghost predicate AllAccepted(rcpts: seq<string>, x: Exchange) {
    x.replies == [354, 250] && |x.calls| == |rcpts| && forall i :: 0 <= i < |x.calls| ==> x.calls[i].ok
  }

  ghost predicate LastFailed(x: Exchange) {
    x.replies == [354, 451] && x.calls != [] && forall i :: 0 <= i < |x.calls| ==> (x.calls[i].ok <==> i < |x.calls| - 1)
  }

  predicate RepliedUnder(cfg: Config, aliases: Aliases, arg: string, x: Exchange) {
    x.replies == [RcptReply(cfg, aliases, arg)]
  }

  /** RCPT is answered by the alias table of that moment. */
  ghost predicate RcptAnswer(cfg: Config, arg: string, x: Exchange) {
    x.calls == [] && x.data.None? && exists aliases :: RepliedUnder(cfg, aliases, arg, x)
  }

  ghost predicate Plain(x: Exchange, replies: seq<int>) {
    x.calls == [] && x.data.None? && x.replies == replies
  }

  /** The answer to one command after the exchanges so far. */
  ghost predicate ProperExchange(cfg: Config, rcpts: seq<string>, x: Exchange) {
    match x.cmd
    case Data => DataAnswer(rcpts, x)
    case RcptTo(arg) => RcptAnswer(cfg, arg, x)
    case Ehlo => Plain(x, [250, 250, 250])
    case AuthPlain => Plain(x, [235])
    case Quit => Plain(x, [221])
    case Unknown => Plain(x, [502])
    case _ => Plain(x, [250])
  }

  ghost predicate Proper(cfg: Config, t: seq<Exchange>) {
    forall i :: 0 <= i < |t| ==> ProperExchange(cfg, Recipients(t[..i]), t[i])
  }

  predicate HasLine(input: string) {
    Index(input, '\n') >= 0
  }

  function LineOf(input: string): string
    requires HasLine(input)
  {
    input[..Index(input, '\n') + 1]
  }

  function AfterLine(input: string): string
    requires HasLine(input)
  {
    input[Index(input, '\n') + 1..]
  }

  /** What an exchange leaves unread: it takes a line, and what reading the data takes. */
  function UnreadAfter(cfg: Config, input: string, x: Exchange): string {
    if !HasLine(input) then ""
    else if x.data.None? then AfterLine(input)
    else ReadFrom(AfterLine(input), "", cfg.maxBytes).1
  }

  function Unread(cfg: Config, input: string, t: seq<Exchange>): string {
    if t == [] then input else UnreadAfter(cfg, Unread(cfg, input, t[..|t| - 1]), t[|t| - 1])
  }

  /** The exchange belongs to this input: its command is what the next line says, and its data
      what follows that line. */
  predicate Serves(cfg: Config, input: string, x: Exchange) {
    && HasLine(input) && x.cmd == Classify(LineOf(input))
    && (x.data.Some? ==> x.data.value == ReadFrom(AfterLine(input), "", cfg.maxBytes).0)
  }

  ghost predicate ServesAll(cfg: Config, input: string, t: seq<Exchange>) {
    forall i :: 0 <= i < |t| ==> Serves(cfg, Unread(cfg, input, t[..i]), t[i])
  }

  ghost predicate NoQuit(t: seq<Exchange>) {
    forall i :: 0 <= i < |t| ==> !t[i].cmd.Quit?
  }

  /** A whole session on an input, which leaves rest unread: every line is answered in turn, and
      it ends with QUIT or when no whole line is left. */
  ghost predicate IsSession(cfg: Config, input: string, t: seq<Exchange>, rest: string) {
    && Proper(cfg, t) && ServesAll(cfg, input, t)
    && if t != [] && t[|t| - 1].cmd.Quit? then NoQuit(t[..|t| - 1]) && rest == Unread(cfg, input, t)
       else NoQuit(t) && !HasLine(Unread(cfg, input, t)) && rest == ""
  }

  lemma {:induction false} ServesOneMore(cfg: Config, input: string, t: seq<Exchange>, x: Exchange)
    requires ServesAll(cfg, input, t) && Serves(cfg, Unread(cfg, input, t), x)
    ensures ServesAll(cfg, input, t + [x])
    ensures Unread(cfg, input, t + [x]) == UnreadAfter(cfg, Unread(cfg, input, t), x)
  {
    var u := t + [x];
    assert u[..|t|] == t;
    assert forall i :: 0 <= i < |t| ==> u[..i] == t[..i];
  }

  lemma {:induction false} ExchangeServed(cfg: Config, input: string, t: seq<Exchange>, now: string, x: Exchange, rest: string)
    requires ServesAll(cfg, input, t) && now == Unread(cfg, input, t) && HasLine(now) && x.cmd == Classify(LineOf(now))
    requires if x.data.None? then rest == AfterLine(now) else (x.data.value, rest) == ReadFrom(AfterLine(now), "", cfg.maxBytes)
    ensures ServesAll(cfg, input, t + [x]) && Unread(cfg, input, t + [x]) == rest
  {
    ServesOneMore(cfg, input, t, x);
  }

  lemma NoQuitYet(t: seq<Exchange>, x: Exchange)
    requires NoQuit(t)
    ensures (t + [x])[..|t|] == t && (!x.cmd.Quit? ==> NoQuit(t + [x]))
  {
  }

  class Session {
    const cfg: Config
    const reader: Reader
    var rcpts: seq<string>
    var replies: seq<int>
    ghost var transcript: seq<Exchange>
    ghost var calls: seq<RelayCall>

    constructor (cfg: Config, reader: Reader)
      ensures this.cfg == cfg && this.reader == reader && transcript == [] && rcpts == [] && replies == [] && calls == []
    {
      this.cfg, this.reader := cfg, reader;
      rcpts, replies, transcript, calls := [], [], [], [];
    }

    ghost predicate Valid()
      reads this
    {
      rcpts == Recipients(transcript) && Proper(cfg, transcript)
    }

    /** The relay service, which may answer anything. */
    method Relay(rcpt: string, raw: string) returns (ok: bool)
      modifies `calls
      ensures calls == old(calls) + [RelayCall(rcpt, raw, ok)]
    {
      ok := *;
      calls := calls + [RelayCall(rcpt, raw, ok)];
    }

    method Reply(code: int)
      modifies `replies
      ensures replies == old(replies) + [code]
    {
      replies := replies + [code];
    }

    /** The loop over recipients after a message has been read. */
    method RelayAll(raw: string) returns (failed: bool, ghost made: seq<RelayCall>)
      modifies `calls
      ensures calls == old(calls) + made && CallsFor(made, rcpts, raw)
      ensures failed ==> made != []
      ensures !failed ==> |made| == |rcpts|
      ensures forall i :: 0 <= i < |made| ==> (made[i].ok <==> !failed || i < |made| - 1)
    {
      made := [];
      for i := 0 to |rcpts|
        invariant |made| == i && calls == old(calls) + made && CallsFor(made, rcpts, raw)
        invariant forall k :: 0 <= k < i ==> made[k].ok
      {
        var ok := Relay(rcpts[i], raw);
        made := made + [RelayCall(rcpts[i], raw, ok)];
        if !ok {
          return true, made;
        }
      }
      failed := false;
    }

    method HandleData() returns (ghost x: Exchange)
      modifies `replies, `calls, reader
      ensures x.cmd == Data && DataAnswer(rcpts, x)
      ensures replies == old(replies) + x.replies && calls == old(calls) + x.calls
      ensures if x.data.None? then reader.rest == old(reader.rest)
              else (x.data.value, reader.rest) == ReadFrom(old(reader.rest), "", cfg.maxBytes)
    {
      if |rcpts| == 0 {
        Reply(503);
        return Exchange(Data, [503], None, []);
      }
      Reply(354);
      var data := ReadData(reader, cfg.maxBytes);
      if !data.Message? {
        Reply(552);
        return Exchange(Data, [354, 552], Some(data), []);
      }
      var failed, made := RelayAll(data.raw);
      if failed {
        Reply(451);
        return Exchange(Data, [354, 451], Some(data), made);
      }
      Reply(250);
      x := Exchange(Data, [354, 250], Some(data), made);
    }

    /** aliases is the alias table at this moment. */
    method HandleRcpt(arg: string, aliases: Aliases) returns (ghost x: Exchange)
      modifies `replies, `rcpts
      ensures x.cmd == RcptTo(arg) && x.calls == [] && x.data.None? && RepliedUnder(cfg, aliases, arg, x)
      ensures replies == old(replies) + x.replies
      ensures rcpts == if x.replies == [250] then old(rcpts) + [ExtractPath(arg)] else old(rcpts)
    {
      var addr := ExtractPath(arg);
      var code := 250;
      if addr == "" {
        code := 501;
      } else if !IsAllowed(addr, cfg.domain) {
        code := 550;
      } else if ParseAddress(cfg.parserDomain, aliases, addr).Err? {
        code := 550;
      } else {
        rcpts := rcpts + [addr];
      }
      Reply(code);
      x := Exchange(RcptTo(arg), [code], None, []);
    }

    method HandleSimple(cmd: Command) returns (ghost x: Exchange)
      requires !cmd.Data? && !cmd.RcptTo?
      modifies `replies, `rcpts
      ensures x.cmd == cmd && ProperExchange(cfg, old(rcpts), x)
      ensures replies == old(replies) + x.replies && x.calls == []
      ensures rcpts == if cmd.MailFrom? || cmd.Rset? then [] else old(rcpts)
    {
      match cmd
      case Ehlo =>
        Reply(250);
        Reply(250);
        Reply(250);
        x := Exchange(cmd, [250, 250, 250], None, []);
      case AuthPlain =>
        Reply(235);
        x := Exchange(cmd, [235], None, []);
      case MailFrom =>
        rcpts := [];
        Reply(250);
        x := Exchange(cmd, [250], None, []);
      case Rset =>
        rcpts := [];
        Reply(250);
        x := Exchange(cmd, [250], None, []);
      case Quit =>
        Reply(221);
        x := Exchange(cmd, [221], None, []);
      case Unknown =>
        Reply(502);
        x := Exchange(cmd, [502], None, []);
      case Helo =>
        Reply(250);
        x := Exchange(cmd, [250], None, []);
      case Noop =>
        Reply(250);
        x := Exchange(cmd, [250], None, []);
    }

    /** The switch of handleConn. */
    method HandleCommand(cmd: Command, aliases: Aliases) returns (ghost x: Exchange)
      modifies `replies, `rcpts, `calls, reader
      ensures x.cmd == cmd && ProperExchange(cfg, old(rcpts), x)
      ensures rcpts == NextRecipients(old(rcpts), x)
      ensures replies == old(replies) + x.replies && calls == old(calls) + x.calls
      ensures if x.data.None? then reader.rest == old(reader.rest)
              else (x.data.value, reader.rest) == ReadFrom(old(reader.rest), "", cfg.maxBytes)
    {
      if cmd.Data? {
        x := HandleData();
      } else if cmd.RcptTo? {
        x := HandleRcpt(cmd.arg, aliases);
        assert RcptAnswer(cfg, cmd.arg, x);
      } else {
        x := HandleSimple(cmd);
      }
    }

    /** One round of the command loop. */
    method HandleLine(line: string, aliases: Aliases) returns (quit: bool, ghost x: Exchange)
      requires Valid()
      modifies this, reader
      ensures Valid() && transcript == old(transcript) + [x] && x.cmd == Classify(line)
      ensures replies == old(replies) + x.replies && calls == old(calls) + x.calls
      ensures quit <==> x.cmd == Quit
      ensures if x.data.None? then reader.rest == old(reader.rest)
              else (x.data.value, reader.rest) == ReadFrom(old(reader.rest), "", cfg.maxBytes)
    {
      var cmd := Classify(line);
      x := HandleCommand(cmd, aliases);
      ProperAppend(cfg, transcript, x);
      transcript := transcript + [x];
      quit := cmd.Quit?;
    }

    /** The transcript is what has become of the input so far, and the logs are what it says. */
    ghost predicate AnsweredSoFar(input: string)
      reads this, reader
    {
      && Valid() && ServesAll(cfg, input, transcript) && reader.rest == Unread(cfg, input, transcript)
      && replies == [220] + AllReplies(transcript) && calls == AllCalls(transcript)
    }

    /** The loop up to the next line and its answer; more says whether it goes on. */
    method HandleNext(ghost input: string) returns (more: bool)
      requires AnsweredSoFar(input) && NoQuit(transcript)
      modifies this, reader
      ensures AnsweredSoFar(input) || !more
      ensures more ==> NoQuit(transcript) && |reader.rest| < old(|reader.rest|)
      ensures !more ==> Valid() && IsSession(cfg, input, transcript, reader.rest)
      ensures !more ==> replies == [220] + AllReplies(transcript) && calls == AllCalls(transcript)
    {
      ghost var before, now := transcript, reader.rest;
      var got := reader.ReadLine();
      if got.None? {
        return false;
      }
      var aliases: Aliases := *;
      var quit;
      ghost var x;
      quit, x := HandleLine(got.value, aliases);
      ExchangeServed(cfg, input, before, now, x, reader.rest);
      NoQuitYet(before, x);
      TranscriptAppend(before, x);
      Associative([220], AllReplies(before), x.replies);
      more := !quit;
    }

    /** handleConn: every line of the input is answered in turn until QUIT or the end, rcpts is
        always what the transcript adds up to, and every reply is proper. */
    method HandleConn()
      requires transcript == [] && rcpts == [] && replies == [] && calls == []
      modifies this, reader
      ensures Valid() && IsSession(cfg, old(reader.rest), transcript, reader.rest)
      ensures replies == [220] + AllReplies(transcript) && calls == AllCalls(transcript)
    {
      Reply(220);
      ghost var input := reader.rest;
      while true
        invariant AnsweredSoFar(input) && NoQuit(transcript)
        decreases |reader.rest|
      {
        var more := HandleNext(input);
        if !more {
          return;
        }
      }
    }
  }

  function AllReplies(t: seq<Exchange>): seq<int> {
    if t == [] then [] else AllReplies(t[..|t| - 1]) + t[|t| - 1].replies
  }

  function AllCalls(t: seq<Exchange>): seq<RelayCall> {
    if t == [] then [] else AllCalls(t[..|t| - 1]) + t[|t| - 1].calls
  }

  lemma {:induction false} TranscriptAppend(t: seq<Exchange>, x: Exchange)
    ensures AllReplies(t + [x]) == AllReplies(t) + x.replies
    ensures AllCalls(t + [x]) == AllCalls(t) + x.calls
  {
  }

  lemma {:induction false} ProperAppend(cfg: Config, t: seq<Exchange>, x: Exchange)
    requires Proper(cfg, t) && ProperExchange(cfg, Recipients(t), x)
    ensures Proper(cfg, t + [x])
    ensures Recipients(t + [x]) == NextRecipients(Recipients(t), x)
  {
    var u := t + [x];
    assert u[..|t|] == t;
    assert forall i :: 0 <= i < |t| ==> u[..i] == t[..i];
  }

  /** Under some alias table this argument of RCPT TO names a recipient that can be relayed to. */
  ghost predicate CanBeRelayed(cfg: Config, aliases: Aliases, path: string) {
    && path != "" && EndsWith(TrimAngles(path), "@" + TrimSpace(cfg.domain))
    && ParseAddress(cfg.parserDomain, aliases, path).Ok?
  }

  lemma LineIsOne(line: string, c: Command)
    requires ReadAs(line, c)
    ensures Begins(line, "MAIL FROM:") <==> c.MailFrom?
    ensures Says(line, "RSET") <==> c.Rset?
    ensures Begins(line, "RCPT TO:") <==> c.RcptTo?
    ensures Says(line, "QUIT") <==> c.Quit?
  {
    if Begins(line, "MAIL FROM:") { ReadOneWay(line, c, MailFrom); }
    if Says(line, "RSET") { ReadOneWay(line, c, Rset); }
    if Begins(line, "RCPT TO:") { ReadOneWay(line, c, RcptTo(TrimSpace(line)[8..])); }
    if Says(line, "QUIT") { ReadOneWay(line, c, Quit); }
  }

  /** What a line does to the recipients, with the exchange it leads to. */
  ghost predicate Obeys(cfg: Config, line: string, before: seq<string>, x: Exchange, after: seq<string>) {
    && (Begins(line, "MAIL FROM:") || Says(line, "RSET") ==> after == [] && x.replies == [250])
    && (Begins(line, "RCPT TO:") ==> ObeysRcpt(cfg, ExtractPath(TrimSpace(line)[8..]), before, x, after))
    && (!Begins(line, "MAIL FROM:") && !Says(line, "RSET") && !Begins(line, "RCPT TO:") ==> after == before)
    && Answers(line, before, x)
  }

  /** The replies to the other lines; what DATA leads to with recipients is told elsewhere. */
  ghost predicate Answers(line: string, before: seq<string>, x: Exchange) {
    && (Begins(line, "EHLO") ==> x.replies == [250, 250, 250]) && (Begins(line, "HELO") ==> x.replies == [250])
    && (Begins(line, "AUTH PLAIN") ==> x.replies == [235]) && (Says(line, "NOOP") ==> x.replies == [250])
    && (Says(line, "QUIT") ==> x.replies == [221])
    && (Says(line, "DATA") ==> (before == [] ==> x.replies == [503]) && (before != [] ==> |x.replies| == 2 && x.replies[0] == 354))
    && (ReadAs(line, Unknown) ==> x.replies == [502])
  }

  lemma LineAnswers(cfg: Config, line: string, before: seq<string>, x: Exchange)
    requires ReadAs(line, x.cmd) && ProperExchange(cfg, before, x)
    ensures Answers(line, before, x)
  {
    if Begins(line, "EHLO") { ReadOneWay(line, x.cmd, Ehlo); }
    if Begins(line, "HELO") { ReadOneWay(line, x.cmd, Helo); }
    if Begins(line, "AUTH PLAIN") { ReadOneWay(line, x.cmd, AuthPlain); }
    if Says(line, "NOOP") { ReadOneWay(line, x.cmd, Noop); }
    if Says(line, "QUIT") { ReadOneWay(line, x.cmd, Quit); }
    if Says(line, "DATA") { ReadOneWay(line, x.cmd, Data); }
    if ReadAs(line, Unknown) { ReadOneWay(line, x.cmd, Unknown); }
  }

  ghost predicate ObeysRcpt(cfg: Config, path: string, before: seq<string>, x: Exchange, after: seq<string>) {
    if path == "" then x.replies == [501] && after == before
    else if x.replies == [250] then after == before + [path] && exists aliases :: CanBeRelayed(cfg, aliases, path)
    else x.replies == [550] && after == before
  }

  lemma RcptObeys(cfg: Config, before: seq<string>, x: Exchange)
    requires x.cmd.RcptTo? && RcptAnswer(cfg, x.cmd.arg, x)
    ensures ObeysRcpt(cfg, ExtractPath(x.cmd.arg), before, x, NextRecipients(before, x))
  {
    var aliases :| RepliedUnder(cfg, aliases, x.cmd.arg, x);
    RcptReplyIff(cfg, aliases, x.cmd.arg);
    assert x.replies[0] == RcptReply(cfg, aliases, x.cmd.arg);
    if x.replies == [250] {
      assert CanBeRelayed(cfg, aliases, ExtractPath(x.cmd.arg));
    }
  }

  lemma ExchangeObeys(cfg: Config, line: string, before: seq<string>, x: Exchange)
    requires ReadAs(line, x.cmd) && ProperExchange(cfg, before, x)
    ensures Obeys(cfg, line, before, x, NextRecipients(before, x))
  {
    LineIsOne(line, x.cmd);
    LineAnswers(cfg, line, before, x);
    if x.cmd.RcptTo? {
      RcptObeys(cfg, before, x);
    }
  }

  lemma QuitIsLast(t: seq<Exchange>, i: nat)
    requires i < |t| && if t[|t| - 1].cmd.Quit? then NoQuit(t[..|t| - 1]) else NoQuit(t)
    ensures t[i].cmd.Quit? ==> i == |t| - 1
  {
  }

  lemma {:induction false} RecipientsNext(t: seq<Exchange>, i: nat)
    requires i < |t|
    ensures Recipients(t[..i + 1]) == NextRecipients(Recipients(t[..i]), t[i])
  {
    assert t[..i + 1][..i] == t[..i];
  }

  lemma {:induction false} NextExchange(cfg: Config, input: string, t: seq<Exchange>, i: nat) returns (line: string)
    requires Proper(cfg, t) && ServesAll(cfg, input, t) && i < |t|
    ensures HasLine(Unread(cfg, input, t[..i])) && line == LineOf(Unread(cfg, input, t[..i])) && t[i].cmd == Classify(line)
    ensures ProperExchange(cfg, Recipients(t[..i]), t[i])
  {
    assert Serves(cfg, Unread(cfg, input, t[..i]), t[i]);
    line := LineOf(Unread(cfg, input, t[..i]));
  }

  /** In a session MAIL FROM: and RSET, in any case of their letters, leave no recipients; RCPT TO: adds
      its path exactly with a 250, which it gets only if that can be relayed to; no other line changes
      the recipients; and QUIT is the last line. */
  lemma {:induction false} SessionObeys(cfg: Config, input: string, t: seq<Exchange>, rest: string, i: nat) returns (line: string)
    requires IsSession(cfg, input, t, rest) && i < |t|
    ensures HasLine(Unread(cfg, input, t[..i])) && line == LineOf(Unread(cfg, input, t[..i]))
    ensures Obeys(cfg, line, Recipients(t[..i]), t[i], Recipients(t[..i + 1]))
    ensures Says(line, "QUIT") ==> i == |t| - 1
  {
    line := NextExchange(cfg, input, t, i);
    RecipientsNext(t, i);
    LineObeys(cfg, line, Recipients(t[..i]), t[i]);
    QuitIsLast(t, i);
  }

  lemma LineObeys(cfg: Config, line: string, before: seq<string>, x: Exchange)
    requires x.cmd == Classify(line) && ProperExchange(cfg, before, x)
    ensures Obeys(cfg, line, before, x, NextRecipients(before, x)) && (Says(line, "QUIT") <==> x.cmd.Quit?)
  {
    ClassifyIs(line);
    LineIsOne(line, x.cmd);
    ExchangeObeys(cfg, line, before, x);
  }

  /** DATA in a session on an input. If what follows the command line is a dot-stuffed message m
      with its terminator and anything behind it, then a 250 reply comes exactly when m fits the
      limit and relaying m to every recipient accepted since the last MAIL FROM or RSET gave nil;
      a 451 exactly when m fits and a prefix of them got nil, the next one failed, and the others
      were not tried; and then the next command is read right behind the terminator. A message
      that does not fit is relayed to nobody. */
  lemma {:induction false} DataReplyMeans(cfg: Config, input: string, t: seq<Exchange>, rest: string, i: nat,
                                          m: string, end: string, more: string)
    requires IsSession(cfg, input, t, rest)
    requires i < |t| && t[i].cmd == Data && Recipients(t[..i]) != []
    requires Complete(m) && IsTerminator(end)
    requires AfterLine(Unread(cfg, input, t[..i])) == Stuff(m) + end + more
    ensures var rcpts, calls, fits := Recipients(t[..i]), t[i].calls, Fits("", m, cfg.maxBytes);
      && (t[i].replies == [354, 250] <==> fits && calls == CallsOf(rcpts, m, |rcpts|))
      && (t[i].replies == [354, 451] <==> fits && FailedAt(calls, rcpts, m))
      && (t[i].replies == [354, 552] <==> !fits)
      && (fits ==> t[i].replies in {[354, 250], [354, 451]} && Unread(cfg, input, t[..i + 1]) == more)
      && (!fits ==> calls == [])
  {
    var x, rcpts, before := t[i], Recipients(t[..i]), Unread(cfg, input, t[..i]);
    assert ProperExchange(cfg, rcpts, x) && Serves(cfg, before, x);
    DataRoundTrip(m, end, more, cfg.maxBytes);
    assert t[..i + 1][..i] == t[..i];
    assert [354, 250][1] == 250 && [354, 451][1] == 451 && [354, 552][1] == 552;
    if Fits("", m, cfg.maxBytes) {
      FullOrFailed(rcpts, x, m);
    }
  }

  /** The first n recipients, each relayed m with nil. */
  function CallsOf(rcpts: seq<string>, m: string, n: nat): (calls: seq<RelayCall>)
    requires n <= |rcpts|
    ensures |calls| == n
  {
    seq(n, k requires 0 <= k < n => RelayCall(rcpts[k], m, true))
  }

  ghost predicate FailedAt(calls: seq<RelayCall>, rcpts: seq<string>, m: string) {
    && 0 < |calls| <= |rcpts|
    && calls == CallsOf(rcpts, m, |calls| - 1) + [RelayCall(rcpts[|calls| - 1], m, false)]
  }

  lemma FullOrFailed(rcpts: seq<string>, x: Exchange, m: string)
    requires rcpts != [] && DataAnswer(rcpts, x) && x.data == Some(Message(m))
    ensures x.replies in {[354, 250], [354, 451]}
    ensures x.replies == [354, 250] <==> x.calls == CallsOf(rcpts, m, |rcpts|)
    ensures x.replies == [354, 451] <==> FailedAt(x.calls, rcpts, m)
  {
    assert [354, 250][1] == 250 && [354, 451][1] == 451;
    var n := |x.calls| - 1;
    if LastFailed(x) {
      assert !x.calls[n].ok;
    }
  }

  // ----- commands and message data -----

  /** DATA with recipients: a message follows. */
  predicate TakesData(t: seq<Exchange>, x: Exchange) {
    x.cmd.Data? && Recipients(t) != []
  }

  /** Where the next command would be if every message were skipped to its terminator. */
  function Framed(input: string, t: seq<Exchange>): string {
    if t == [] then input
    else
      var n := |t| - 1;
      var before := Framed(input, t[..n]);
      if !HasLine(before) then ""
      else if TakesData(t[..n], t[n]) then SkipData(AfterLine(before)) else AfterLine(before)
  }

  /** Exchange i is a DATA whose message begins with more text than the limit and does not end
      there. */
  ghost predicate Overlong(cfg: Config, input: string, t: seq<Exchange>, i: nat)
    requires i < |t|
  {
    var before := Framed(input, t[..i]);
    TakesData(t[..i], t[i]) && HasLine(before) && Overruns(AfterLine(before), cfg.maxBytes)
  }

  lemma {:induction false} DataWhenTaken(cfg: Config, t: seq<Exchange>, x: Exchange)
    requires ProperExchange(cfg, Recipients(t), x)
    ensures x.data.Some? <==> TakesData(t, x)
  {
  }

  lemma {:induction false} FramedStep(cfg: Config, input: string, t: seq<Exchange>, i: nat)
    requires Proper(cfg, t) && ServesAll(cfg, input, t) && i < |t| && Unread(cfg, input, t[..i]) == Framed(input, t[..i])
    ensures Unread(cfg, input, t[..i + 1]) == Framed(input, t[..i + 1]) <==> !Overlong(cfg, input, t, i)
  {
    assert t[..i + 1][..i] == t[..i];
    assert Serves(cfg, Unread(cfg, input, t[..i]), t[i]);
    DataWhenTaken(cfg, t[..i], t[i]);
    SkippedIff(AfterLine(Unread(cfg, input, t[..i])), cfg.maxBytes);
  }

  /** The session takes its commands from outside the message data all along exactly when no
      message behind a DATA with recipients begins with more text than the limit and goes on
      behind it: the lines behind the cut are taken for commands. */
  lemma {:induction false} CommandsOutsideDataIff(cfg: Config, input: string, t: seq<Exchange>)
    requires Proper(cfg, t) && ServesAll(cfg, input, t)
    ensures (forall i: nat :: i <= |t| ==> Unread(cfg, input, t[..i]) == Framed(input, t[..i]))
            <==> forall i: nat :: i < |t| ==> !Overlong(cfg, input, t, i)
  {
    if forall i: nat :: i < |t| ==> !Overlong(cfg, input, t, i) {
      forall i: nat | i <= |t|
        ensures Unread(cfg, input, t[..i]) == Framed(input, t[..i])
      {
        FramedSoFar(cfg, input, t, i);
      }
    } else {
      var i: nat :| i < |t| && Overlong(cfg, input, t, i);
      if Unread(cfg, input, t[..i]) == Framed(input, t[..i]) {
        FramedStep(cfg, input, t, i);
      }
    }
  }

  lemma {:induction false} FramedSoFar(cfg: Config, input: string, t: seq<Exchange>, i: nat)
    requires Proper(cfg, t) && ServesAll(cfg, input, t)
    requires i <= |t| && forall k: nat :: k < i ==> !Overlong(cfg, input, t, k)
    ensures Unread(cfg, input, t[..i]) == Framed(input, t[..i])
  {
    if i > 0 {
      FramedSoFar(cfg, input, t, i - 1);
      FramedStep(cfg, input, t, i - 1);
    }
  }

  // ----- a session that executes its message -----

  const DATA := "DATA\n"
  const RSET := "RSET\n"
  const DOT := ".\n"

  lemma {:induction false} WordLine(word: string)
    requires word != "" && forall c :: c in word ==> 'A' <= c <= 'Z' || c == '.'
    ensures IsLine(word + "\n") && TrimSpace(word + "\n") == word
  {
    assert (word + "\n")[..|word|] == word;
    assert forall i :: 0 <= i < |word| ==> word[i] in word;
  }

  lemma CommandLines()
    ensures IsLine(DATA) && IsLine(RSET) && IsLine(DOT) && IsTerminator(DOT)
    ensures Classify(DATA) == Data && Classify(RSET) == Rset && Classify(DOT) == Unknown
  {
    WordLine("DATA");
    WordLine("RSET");
    WordLine(".");
    assert "DATA" + "\n" == DATA && "RSET" + "\n" == RSET && "." + "\n" == DOT;
    CommandIff(DATA, Data);
    CommandIff(RSET, Rset);
    CommandIff(DOT, Unknown);
  }

  /** One recipient, DATA, and a message of two lines, the first of which is too long. */
  function LongMail(rcpt: string, big: string): string {
    rcpt + (DATA + (StuffLine(big) + (RSET + DOT)))
  }

  function Welcome(arg: string): Exchange {
    Exchange(RcptTo(arg), [250], None, [])
  }

  const CUT := Exchange(Data, [354, 552], Some(TooLarge), [])
  const CLEARED := Exchange(Rset, [250], None, [])
  const REFUSED := Exchange(Unknown, [502], None, [])

  function BadSession(arg: string): seq<Exchange> {
    [Welcome(arg), CUT, CLEARED, REFUSED]
  }

  /** The session so far, with what is left to read and who is to get the mail. */
  ghost predicate SoFar(cfg: Config, input: string, t: seq<Exchange>, rest: string, rcpts: seq<string>) {
    Proper(cfg, t) && ServesAll(cfg, input, t) && Unread(cfg, input, t) == rest && Recipients(t) == rcpts
  }

  lemma {:induction false} NextLine(cfg: Config, input: string, t: seq<Exchange>, line: string, tail: string,
                                    rcpts: seq<string>, x: Exchange)
    requires SoFar(cfg, input, t, line + tail, rcpts) && IsLine(line)
    requires x.cmd == Classify(line) && ProperExchange(cfg, rcpts, x)
    requires x.data.Some? ==> x.data.value == ReadFrom(tail, "", cfg.maxBytes).0
    ensures SoFar(cfg, input, t + [x], if x.data.None? then tail else ReadFrom(tail, "", cfg.maxBytes).1, NextRecipients(rcpts, x))
  {
    FirstLine(line, tail);
    ServesOneMore(cfg, input, t, x);
    ProperAppend(cfg, t, x);
  }

  lemma {:induction false} RcptComes(cfg: Config, aliases: Aliases, rcpt: string, arg: string, tail: string)
    requires IsLine(rcpt) && Classify(rcpt) == RcptTo(arg) && RcptReply(cfg, aliases, arg) == 250
    ensures SoFar(cfg, rcpt + tail, [Welcome(arg)], tail, [ExtractPath(arg)])
  {
    assert RepliedUnder(cfg, aliases, arg, Welcome(arg));
    NextLine(cfg, rcpt + tail, [], rcpt, tail, [], Welcome(arg));
    assert [] + [Welcome(arg)] == [Welcome(arg)];
  }

  lemma {:induction false} DataComes(cfg: Config, input: string, t: seq<Exchange>, rcpts: seq<string>, big: string)
    requires IsLine(big) && |big| > cfg.maxBytes && rcpts != []
    requires SoFar(cfg, input, t, DATA + (StuffLine(big) + (RSET + DOT)), rcpts)
    ensures SoFar(cfg, input, t + [CUT], RSET + DOT, rcpts)
  {
    CommandLines();
    StuffedLine(big);
    ReadLine(StuffLine(big), RSET + DOT, "", cfg.maxBytes);
    NextLine(cfg, input, t, DATA, StuffLine(big) + (RSET + DOT), rcpts, CUT);
  }

  lemma {:induction false} RestComes(cfg: Config, input: string, t: seq<Exchange>, rcpts: seq<string>)
    requires SoFar(cfg, input, t, RSET + DOT, rcpts)
    ensures SoFar(cfg, input, t + [CLEARED], DOT, [])
    ensures SoFar(cfg, input, t + [CLEARED] + [REFUSED], "", [])
  {
    CommandLines();
    NextLine(cfg, input, t, RSET, DOT, rcpts, CLEARED);
    assert DOT == DOT + "";
    NextLine(cfg, input, t + [CLEARED], DOT, "", [], REFUSED);
  }

  lemma BadSessionParts(arg: string)
    ensures var t := BadSession(arg);
      && t[..1] == [Welcome(arg)] && t[..2] == t[..1] + [CUT] && t[..3] == t[..2] + [CLEARED] && t == t[..3] + [REFUSED]
      && NoQuit(t) && t[|t| - 1].cmd == Unknown && t[2].cmd == Rset
  {
  }

  lemma {:induction false} BadSessionRuns(cfg: Config, aliases: Aliases, rcpt: string, arg: string, big: string)
    requires IsLine(rcpt) && Classify(rcpt) == RcptTo(arg) && RcptReply(cfg, aliases, arg) == 250
    requires IsLine(big) && |big| > cfg.maxBytes
    ensures var input, t, rcpts := LongMail(rcpt, big), BadSession(arg), [ExtractPath(arg)];
      && SoFar(cfg, input, t[..1], DATA + (StuffLine(big) + (RSET + DOT)), rcpts)
      && SoFar(cfg, input, t[..2], RSET + DOT, rcpts) && SoFar(cfg, input, t[..3], DOT, []) && SoFar(cfg, input, t, "", [])
  {
    var input, t, rcpts := LongMail(rcpt, big), BadSession(arg), [ExtractPath(arg)];
    BadSessionParts(arg);
    RcptComes(cfg, aliases, rcpt, arg, DATA + (StuffLine(big) + (RSET + DOT)));
    DataComes(cfg, input, t[..1], rcpts, big);
    RestComes(cfg, input, t[..2], rcpts);
  }

  /** Under every limit and for every accepted recipient and every line beyond the limit: the
      second line of the message, RSET, is executed as a command, which clears the recipients. */
  lemma {:induction false} BodyIsExecuted(cfg: Config, aliases: Aliases, rcpt: string, arg: string, big: string)
    requires IsLine(rcpt) && Classify(rcpt) == RcptTo(arg) && RcptReply(cfg, aliases, arg) == 250
    requires IsLine(big) && |big| > cfg.maxBytes
    ensures var input, t := LongMail(rcpt, big), BadSession(arg);
      && IsSession(cfg, input, t, "")
      && Unread(cfg, input, t[..1]) == DATA + (Stuff(big + RSET) + DOT)
      && Unread(cfg, input, t[..2]) == RSET + DOT && t[2].cmd == Rset
      && Recipients(t[..2]) == [ExtractPath(arg)] && Recipients(t[..3]) == []
  {
    BadSessionParts(arg);
    BadSessionRuns(cfg, aliases, rcpt, arg, big);
    StuffTwo(big);
  }

  lemma {:induction false} StuffTwo(big: string)
    requires IsLine(big)
    ensures Stuff(big + RSET) + DOT == StuffLine(big) + (RSET + DOT)
  {
    FirstLine(big, RSET);
    IndexIs(RSET, '\n', 4);
    Associative(StuffLine(big), RSET, DOT);
  }

  lemma {:induction false} LongBody(big: string, maxBytes: int)
    requires IsLine(big) && |big| > maxBytes
    ensures var input := DATA + (StuffLine(big) + (RSET + DOT)); HasLine(input) && Overruns(AfterLine(input), maxBytes)
  {
    CommandLines();
    FirstLine(DATA, StuffLine(big) + (RSET + DOT));
    StuffedLine(big);
    FirstLineOverruns(StuffLine(big), RSET + DOT, maxBytes);
  }

  /** So the message is one the theorem above speaks of. */
  lemma {:induction false} BodyIsOverlong(cfg: Config, aliases: Aliases, rcpt: string, arg: string, big: string)
    requires IsLine(rcpt) && Classify(rcpt) == RcptTo(arg) && RcptReply(cfg, aliases, arg) == 250
    requires IsLine(big) && |big| > cfg.maxBytes
    ensures Overlong(cfg, LongMail(rcpt, big), BadSession(arg), 1)
  {
    var input, t := LongMail(rcpt, big), BadSession(arg);
    BadSessionParts(arg);
    BadSessionRuns(cfg, aliases, rcpt, arg, big);
    FramedSoFar(cfg, input, t, 1);
    LongBody(big, cfg.maxBytes);
  }

  // ----- one such session -----

  const RCPT_TO := "RCPT TO:"
  const ARG := "<chatid1@d>"
  const RCPT := RCPT_TO + ARG + "\n"
  const TINY := Config("d", "d", 0)

  lemma {:induction false} RcptLine()
    ensures IsLine(RCPT) && Classify(RCPT) == RcptTo(ARG)
  {
    var cmd := RCPT_TO + ARG;
    assert RCPT[..|cmd|] == cmd && cmd[..|RCPT_TO|] == RCPT_TO && cmd[|RCPT_TO|..] == ARG;
    assert TrimSpace(RCPT) == cmd;
    CommandIff(RCPT, RcptTo(ARG));
  }

  lemma {:induction false} SamplePath()
    ensures ExtractPath(ARG) == SAMPLE
  {
    assert TrimSpace(ARG) == ARG && ARG[1..][..9] == SAMPLE;
    assert TrimAngles(ARG[1..]) == SAMPLE;
    assert TrimSpace(SAMPLE) == SAMPLE;
  }

  lemma {:induction false} SampleAllowed()
    ensures IsAllowed(SAMPLE, "d")
  {
    SampleIsNormal();
    assert Lower(SAMPLE) == SAMPLE && Lower("d") == "d";
    assert SAMPLE[7..] == "@d";
  }

  lemma {:induction false} RcptWelcome()
    ensures RcptReply(TINY, map[], ARG) == 250
  {
    SamplePath();
    SampleAllowed();
    SampleResolves();
  }

  lemma {:induction false} SampleInput()
    ensures IsLine("a\n") && LongMail(RCPT, "a\n") == "RCPT TO:<chatid1@d>\nDATA\na\nRSET\n.\n"
  {
    assert "a\n" + (RSET + DOT) == "a\nRSET\n.\n";
    assert DATA + "a\nRSET\n.\n" == "DATA\na\nRSET\n.\n";
    assert RCPT + "DATA\na\nRSET\n.\n" == "RCPT TO:<chatid1@d>\nDATA\na\nRSET\n.\n";
  }

  /** With no room at all: the message is two lines, "a" and RSET, and the second is obeyed. */
  lemma {:induction false} SampleSession()
    ensures IsSession(TINY, "RCPT TO:<chatid1@d>\nDATA\na\nRSET\n.\n", BadSession(ARG), "")
  {
    RcptLine();
    RcptWelcome();
    SampleInput();
    BodyIsExecuted(TINY, map[], RCPT, ARG, "a\n");
  }
}
