/**
 Messages as they are written (src/sip/message.rs): what goes out on a stream
 comes in again, octet for octet.
 */
module PrintedMessages {
  import opened Prelude
  import opened TransactionKey
  import opened Octets
  import opened MessageParser
  import opened SipCodec
  import opened Framing

  type Header = (Octets, Octets)

  function HeaderLine(h: Header): Octets { h.0 + ": " + h.1 }

  function HeaderLines(hs: seq<Header>): seq<Octets> {
    if hs == [] then [] else [HeaderLine(hs[0])] + HeaderLines(hs[1..])
  }

  /** Lines with CRLF between them. */
  function Joined(lines: seq<Octets>): Octets
    requires lines != []
  {
    if |lines| == 1 then lines[0] else lines[0] + CRLF + Joined(lines[1..])
  }

  function Head(m: Parsed): Octets { Joined([m.startLine] + HeaderLines(m.headers)) }

  /** `to_bytes`: the body is written as it is. */
  function Print(m: Parsed): Octets { Head(m) + BREAK + m.body }

  // ---- Clean lines ---------------------------------------------------------------------------

  predicate CleanLine(l: Octets) {
    l != [] && Utf8(l) && forall i :: 0 <= i < |l| ==> l[i] != '\r' && l[i] != '\n'
  }

  predicate CleanLines(lines: seq<Octets>) {
    forall i :: 0 <= i < |lines| ==> CleanLine(lines[i])
  }

  /** A name without colon or white space around it, a value without white space around it. */
  predicate CleanHeader(h: Header) {
    && CleanLine(h.0) && Trimmed(h.0) && (forall i :: 0 <= i < |h.0| ==> h.0[i] != ':')
    && (h.1 == [] || CleanLine(h.1)) && Trimmed(h.1)
  }

  lemma {:induction false} Utf8Join(a: Octets, b: Octets)
    requires Utf8(a) && Utf8(b)
    ensures Utf8(a + b)
  {
    if a == [] {
      assert a + b == b;
    } else {
      var n := Utf8Length(a);
      assert Utf8Length(a + b) == n;
      Utf8Join(a[n..], b);
      assert (a + b)[n..] == a[n..] + b;
    }
  }

  lemma HeaderLineClean(h: Header)
    requires CleanHeader(h)
    ensures CleanLine(HeaderLine(h))
  {
    AsciiIsUtf8(": ");
    Utf8Join(h.0, ": ");
    Utf8Join(h.0 + ": ", h.1);
    hide Utf8;
  }

  lemma {:induction false} HeaderLinesClean(hs: seq<Header>)
    requires forall i :: 0 <= i < |hs| ==> CleanHeader(hs[i])
    ensures CleanLines(HeaderLines(hs)) && |HeaderLines(hs)| == |hs|
    ensures forall i :: 0 <= i < |hs| ==> HeaderLines(hs)[i] == HeaderLine(hs[i])
  {
    if hs != [] {
      HeaderLineClean(hs[0]);
      HeaderLinesClean(hs[1..]);
    }
    hide CleanLine, CleanHeader, HeaderLine;
  }

  // ---- The first blank line is the one after the head ------------------------------------------

  lemma {:induction false} BreakShift(a: Octets, s: Octets, from: nat)
    ensures FindBreak(a + s, |a| + from) == match FindBreak(s, from) case None => None case Some(i) => Some(|a| + i)
    decreases |s| - from
  {
    if from + 4 <= |s| {
      assert (a + s)[|a| + from..|a| + from + 4] == s[from..from + 4];
      if !At(s, from, BREAK) { BreakShift(a, s, from + 1); }
    }
  }

  /** Nothing blank before `i`: the search may start there. */
  lemma {:induction false} BreakSkip(s: Octets, from: nat, i: nat)
    requires from <= i <= |s| && forall k :: from <= k < i ==> !At(s, k, BREAK)
    ensures FindBreak(s, from) == FindBreak(s, i)
    decreases i - from
  {
    if from < i && from + 4 <= |s| { BreakSkip(s, from + 1, i); }
    else if from < i { assert i + 4 > |s|; }
  }

  /** A line with its end, before text that does not begin with CR, holds no blank line. */
  lemma NoBreakBefore(l: Octets, rest: Octets)
    requires CleanLine(l) && rest != [] && rest[0] != '\r'
    ensures forall k :: 0 <= k < |l| + 2 ==> !At(l + CRLF + rest, k, BREAK)
  {
    hide Utf8;
    var s := l + CRLF + rest;
    forall k | 0 <= k < |l| + 2 ensures !At(s, k, BREAK) {
      if k < |l| { assert s[k] == l[k]; }
      else if k == |l| { assert s[k + 2] == rest[0]; }
      else { assert s[k] == '\n'; }
      NoBreakAt(s, k);
    }
  }

  lemma NoBreakAt(s: Octets, k: nat)
    requires k + 4 <= |s| ==> s[k] != '\r' || s[k + 2] != '\r'
    ensures !At(s, k, BREAK)
  {
    if k + 4 <= |s| {
      assert s[k..k + 4][0] == s[k] && s[k..k + 4][2] == s[k + 2];
    }
  }

  lemma {:induction false} FirstBreak(lines: seq<Octets>, body: Octets)
    requires lines != [] && CleanLines(lines)
    ensures FindBreak(Joined(lines) + BREAK + body, 0) == Some(|Joined(lines)|)
  {
    var l := lines[0];
    var s := Joined(lines) + BREAK + body;
    if |lines| == 1 {
      forall k | 0 <= k < |l| ensures !At(s, k, BREAK) { assert s[k] == l[k] != '\r'; }
      BreakSkip(s, 0, |l|);
      assert At(s, |l|, BREAK);
    } else {
      var rest := Joined(lines[1..]) + BREAK + body;
      var a := l + CRLF;
      assert s == a + rest;
      FirstChar(lines[1..]);
      NoBreakBefore(l, rest);
      BreakSkip(s, 0, |a|);
      BreakShift(a, rest, 0);
      FirstBreak(lines[1..], body);
    }
  }

  lemma FirstChar(lines: seq<Octets>)
    requires lines != [] && CleanLines(lines)
    ensures Joined(lines) != [] && Joined(lines)[0] == lines[0][0] && lines[0][0] != '\r'
  {
  }

  // ---- Lines come apart again --------------------------------------------------------------------

  lemma FindShift(a: Octets, s: Octets, c: char, from: nat)
    requires from <= |s|
    ensures Find(a + s, c, |a| + from) == |a| + Find(s, c, from)
  {
    FindIs(a + s, c, |a| + from, |a| + Find(s, c, from));
  }

  /** The parser's next line, when a clean line and CRLF come first. */
  lemma LineThenMore(l: Octets, s: Octets)
    requires CleanLine(l)
    ensures NextLine(l + CRLF + s, 0) == Some(Line(l, |l| + 2))
  {
    var t := l + CRLF + s;
    FindIs(t, '\n', 0, |l| + 1);
    assert t[..|l|] == l && t[|l|] == '\r';
    hide Utf8, Find;
  }

  lemma LineAlone(l: Octets)
    requires CleanLine(l)
    ensures NextLine(l, 0) == Some(Line(l, |l|)) && NextLine(l, |l|) == None
  {
    FindIs(l, '\n', 0, |l|);
    assert l[..|l|] == l;
    hide Utf8, Find;
  }

  lemma NextLineShift(a: Octets, s: Octets, pos: nat)
    requires pos <= |s|
    ensures NextLine(a + s, |a| + pos) == match NextLine(s, pos) case None => None case Some(l) => Some(Line(l.text, |a| + l.next))
  {
    hide Utf8, Find;
    if pos < |s| {
      FindShift(a, s, '\n', pos);
      var lf := Find(s, '\n', pos);
      var end := if lf < |s| && lf > pos && s[lf - 1] == '\r' then lf - 1 else lf;
      assert (a + s)[|a| + pos..|a| + end] == s[pos..end];
    }
  }

  lemma {:induction false} ScanShift(a: Octets, s: Octets, pos: nat, st: Scan)
    requires pos <= |s|
    ensures ScanLines(a + s, |a| + pos, st) == ScanLines(s, pos, st)
    decreases |s| - pos
  {
    hide NextLine, ScanLine;
    NextLineShift(a, s, pos);
    var l := NextLine(s, pos);
    if l.Some? && l.value.text != [] { ScanShift(a, s, l.value.next, ScanLine(st, l.value.text)); }
  }

  /** The scan, line by line. */
  function Fold(lines: seq<Octets>, st: Scan): Scan
    requires CleanLines(lines)
    decreases |lines|
  {
    if lines == [] then st else assert CleanLine(lines[0]); Fold(lines[1..], ScanLine(st, lines[0]))
  }

  lemma {:induction false} ScanJoined(lines: seq<Octets>, st: Scan)
    requires lines != [] && CleanLines(lines)
    ensures ScanLines(Joined(lines), 0, st) == Fold(lines, st)
    decreases |lines|
  {
    hide NextLine, ScanLine;
    var l := lines[0];
    assert CleanLine(l);
    if |lines| == 1 {
      LineAlone(l);
      assert ScanLines(l, |l|, ScanLine(st, l)) == ScanLine(st, l);
      assert lines[1..] == [];
    } else {
      var rest := Joined(lines[1..]);
      LineThenMore(l, rest);
      ScanShift(l + CRLF, rest, 0, ScanLine(st, l));
      ScanJoined(lines[1..], ScanLine(st, l));
    }
  }

  // ---- Headers come apart again --------------------------------------------------------------------

  lemma TrimSpace(v: Octets)
    requires Trimmed(v)
    ensures Trim(" " + v) == v
  {
    assert (" " + v)[1..] == v;
    TrimTrimmed(v);
    assert TrimStart(" " + v) == TrimStart(v);
  }

  /** A printed header line is read as that header. */
  lemma ReadHeader(st: Scan, h: Header)
    requires CleanHeader(h)
    ensures HeaderLine(h) != [] && ScanLine(st, HeaderLine(h)) == Flush(st).(pending := Some(h))
  {
    var line := HeaderLine(h);
    assert line[0] == h.0[0] && !IsSpace(h.0[0]);
    FindIs(line, ':', 0, |h.0|);
    assert line[..|h.0|] == h.0 && line[|h.0| + 1..] == " " + h.1;
    TrimTrimmed(h.0);
    TrimSpace(h.1);
    hide Trim, Utf8, Find;
  }

  /** The Content-Length the parser ends with: the last one. */
  function LastLength(hs: seq<Header>, otherwise: nat): nat {
    if hs == [] then otherwise
    else LastLength(hs[1..], if IsContentLength(hs[0].0) then LengthOr0(hs[0].1) else otherwise)
  }

  lemma {:induction false} ReadHeaders(hs: seq<Header>, st: Scan)
    requires (forall i :: 0 <= i < |hs| ==> CleanHeader(hs[i])) && CleanLines(HeaderLines(hs))
    ensures var end := Flush(Fold(HeaderLines(hs), st));
            end.headers == Flush(st).headers + hs && end.contentLength == LastLength(hs, Flush(st).contentLength)
    decreases |hs|
  {
    hide ScanLine, CleanHeader, LengthOr0, IsContentLength, CleanLine;
    if hs != [] {
      ReadHeader(st, hs[0]);
      var st1 := Flush(st).(pending := Some(hs[0]));
      assert HeaderLines(hs)[1..] == HeaderLines(hs[1..]) && HeaderLines(hs)[0] == HeaderLine(hs[0]);
      ReadHeaders(hs[1..], st1);
      assert Flush(st).headers + hs == (Flush(st).headers + [hs[0]]) + hs[1..];
    }
  }

  /** The parser's scan of a printed head. */
  lemma HeadScan(start: Octets, hs: seq<Header>)
    requires CleanLine(start) && forall i :: 0 <= i < |hs| ==> CleanHeader(hs[i])
    ensures var head := Joined([start] + HeaderLines(hs));
            var first := NextLine(head, 0);
            && first.Some? && first.value.text == start
            && HeaderScan(head, first.value.next) == Scan(hs, LastLength(hs, 0), None)
  {
    hide NextLine, ScanLines, Fold, CleanLine, CleanHeader, Joined, Flush;
    var lines := HeaderLines(hs);
    HeaderLinesClean(hs);
    var empty := Scan([], 0, None);
    if hs == [] {
      assert [start] + lines == [start];
      StartAlone(start, empty);
    } else {
      StartThenLines(start, lines, empty);
      ReadHeaders(hs, empty);
      assert [] + hs == hs;
      FlushDone(Fold(lines, empty));
    }
  }

  lemma StartAlone(start: Octets, st: Scan)
    requires CleanLine(start)
    ensures Joined([start]) == start
    ensures NextLine(start, 0) == Some(Line(start, |start|)) && ScanLines(start, |start|, st) == st
    ensures st.pending.None? ==> Flush(st) == st
  {
    LineAlone(start);
    hide NextLine, CleanLine;
  }

  lemma StartThenLines(start: Octets, lines: seq<Octets>, st: Scan)
    requires CleanLine(start) && CleanLines(lines) && lines != []
    ensures var head := Joined([start] + lines);
            NextLine(head, 0) == Some(Line(start, |start| + 2)) && ScanLines(head, |start| + 2, st) == Fold(lines, st)
    ensures st.pending.None? ==> Flush(st) == st
  {
    hide NextLine, CleanLine, ScanLines, Fold;
    assert ([start] + lines)[1..] == lines;
    LineThenMore(start, Joined(lines));
    ScanShift(start + CRLF, Joined(lines), 0, st);
    ScanJoined(lines, st);
  }

  lemma FlushDone(st: Scan)
    ensures Flush(st).pending.None?
  {
  }

  // ---- Content-Length, as the decoder reads it --------------------------------------------------------

  /** The first line that announces a length. */
  function FirstOf(lines: seq<Octets>): Length {
    if lines == [] then Absent
    else if !LengthOfLine(lines[0]).Absent? then LengthOfLine(lines[0])
    else FirstOf(lines[1..])
  }

  lemma {:induction false} LengthShift(a: Octets, s: Octets, start: nat)
    requires start <= |s|
    ensures FirstLength(a + s, |a| + start) == FirstLength(s, start)
    decreases |s| - start
  {
    hide LengthOfLine, StripCr;
    if start < |s| {
      FindShift(a, s, '\n', start);
      var end := Find(s, '\n', start);
      assert (a + s)[|a| + start..|a| + end] == s[start..end];
      LengthShift(a, s, if end < |s| then end + 1 else end);
    }
  }

  /** One line of the head, then the rest. */
  lemma LengthStep(l: Octets, s: Octets)
    requires forall i :: 0 <= i < |l| ==> l[i] != '\r' && l[i] != '\n'
    ensures FirstLength(l + CRLF + s, 0) == if !LengthOfLine(l).Absent? then LengthOfLine(l) else FirstLength(s, 0)
  {
    hide LengthOfLine;
    var t := l + CRLF + s;
    FindIs(t, '\n', 0, |l| + 1);
    assert t[0..|l| + 1] == l + "\r";
    assert StripCr(l + "\r") == l;
    LengthShift(l + CRLF, s, 0);
  }

  lemma {:induction false} FirstOfHead(lines: seq<Octets>)
    requires lines != [] && CleanLines(lines)
    ensures FirstLength(Joined(lines) + BREAK, 0) == FirstOf(lines)
    decreases |lines|
  {
    hide LengthOfLine, FirstLength;
    var l := lines[0];
    assert CleanLine(l);
    assert LengthOfLine([]).Absent? by { BlankLine(); }
    assert FirstLength([], 0).Absent? by { BlankLine(); }
    assert CRLF == [] + CRLF + [];
    LengthStep([], []);
    if |lines| == 1 {
      assert Joined(lines) + BREAK == l + CRLF + CRLF;
      LengthStep(l, CRLF);
      assert lines[1..] == [];
    } else {
      assert Joined(lines) + BREAK == l + CRLF + (Joined(lines[1..]) + BREAK);
      LengthStep(l, Joined(lines[1..]) + BREAK);
      FirstOfHead(lines[1..]);
    }
  }

  lemma BlankLine()
    ensures LengthOfLine([]).Absent? && FirstLength([], 0).Absent?
  {
    FindIs([], ':', 0, 0);
  }

  /** What a header line announces. */
  lemma HeaderLength(h: Header)
    requires CleanHeader(h)
    ensures LengthOfLine(HeaderLine(h))
            == if !IsContentLength(h.0) then Absent
               else if ParseUsize(h.1).None? then Bad else Given(ParseUsize(h.1).value)
  {
    var line := HeaderLine(h);
    FindIs(line, ':', 0, |h.0|);
    assert line[..|h.0|] == h.0 && line[|h.0| + 1..] == " " + h.1;
    AsciiIsUtf8(" ");
    Utf8Join(" ", h.1);
    TrimSpace(h.1);
    hide Trim, Utf8, Find, IsContentLength, ParseUsize;
  }

  // ---- Round trip ------------------------------------------------------------------------------------------

  /** A message fit to be sent: clean lines, and exactly one Content-Length, that of its body. */
  ghost predicate Sendable(m: Parsed) {
    && CleanLine(m.startLine) && LengthOfLine(m.startLine).Absent?
    && (forall i :: 0 <= i < |m.headers| ==> CleanHeader(m.headers[i]))
    && OneLength(m.headers, |m.body|)
    && |Print(m)| <= MAX_SIP_MESSAGE_SIZE
  }

  /** Exactly one Content-Length header, and it says `n`. */
  ghost predicate OneLength(hs: seq<Header>, n: nat) {
    exists c :: 0 <= c < |hs| && IsContentLength(hs[c].0) && hs[c].1 == Decimal(n)
                && forall i :: 0 <= i < |hs| && i != c ==> !IsContentLength(hs[i].0)
  }

  lemma {:induction false} FirstIs(hs: seq<Header>, c: nat, n: nat)
    requires (forall i :: 0 <= i < |hs| ==> CleanHeader(hs[i])) && c < |hs|
    requires IsContentLength(hs[c].0) && ParseUsize(hs[c].1) == Some(n)
    requires forall i :: 0 <= i < c ==> !IsContentLength(hs[i].0)
    ensures FirstOf(HeaderLines(hs)) == Given(n)
    decreases c
  {
    hide CleanHeader, IsContentLength, ParseUsize, LengthOfLine;
    HeaderLength(hs[0]);
    if c > 0 {
      assert HeaderLines(hs)[1..] == HeaderLines(hs[1..]);
      FirstIs(hs[1..], c - 1, n);
    }
  }

  lemma {:induction false} LastIs(hs: seq<Header>, c: nat, n: nat, otherwise: nat)
    requires c < |hs| && IsContentLength(hs[c].0) && LengthOr0(hs[c].1) == n
    requires forall i :: c < i < |hs| ==> !IsContentLength(hs[i].0)
    ensures LastLength(hs, otherwise) == n
    decreases |hs|
  {
    hide IsContentLength, LengthOr0;
    if c > 0 {
      LastIs(hs[1..], c - 1, n, if IsContentLength(hs[0].0) then LengthOr0(hs[0].1) else otherwise);
    } else {
      NoneLater(hs[1..], n);
    }
  }

  lemma {:induction false} NoneLater(hs: seq<Header>, otherwise: nat)
    requires forall i :: 0 <= i < |hs| ==> !IsContentLength(hs[i].0)
    ensures LastLength(hs, otherwise) == otherwise
  {
    if hs != [] { NoneLater(hs[1..], otherwise); }
  }

  lemma OneLengthRead(hs: seq<Header>, n: nat)
    requires (forall i :: 0 <= i < |hs| ==> CleanHeader(hs[i])) && OneLength(hs, n) && n <= MAX_USIZE
    ensures FirstOf(HeaderLines(hs)) == Given(n) && LastLength(hs, 0) == n
  {
    var c :| 0 <= c < |hs| && IsContentLength(hs[c].0) && hs[c].1 == Decimal(n)
             && forall i :: 0 <= i < |hs| && i != c ==> !IsContentLength(hs[i].0);
    LengthReadsBack(n);
    TrimTrimmed(Decimal(n));
    hide CleanHeader, IsContentLength, Trim, ParseUsize;
    FirstIs(hs, c, n);
    LastIs(hs, c, n, 0);
  }

  /** What is printed parses to the same message ... */
  lemma PrintedParses(m: Parsed, typed: Octets -> bool)
    requires Sendable(m) && typed(m.startLine)
    ensures Parse(Print(m), typed) == Some(m)
  {
    hide HeaderScan, NextLine, CleanLine, CleanHeader, OneLength, LengthOfLine, Joined, FindBreak;
    var lines := [m.startLine] + HeaderLines(m.headers);
    HeaderLinesClean(m.headers);
    FirstBreak(lines, m.body);
    HeadScan(m.startLine, m.headers);
    OneLengthRead(m.headers, |m.body|);
    var data := Print(m);
    assert data[..|Head(m)|] == Head(m);
    assert data[|Head(m)| + 4..] == m.body;
    assert m.body[..|m.body|] == m.body;
  }

  /** ... and is one frame. */
  lemma PrintedIsFrame(m: Parsed, typed: Octets -> bool)
    requires Sendable(m) && typed(m.startLine)
    ensures Frame(Print(m), typed)
  {
    hide Parse, CleanHeader, OneLength, LengthOfLine, FindBreak, FirstLength;
    var lines := [m.startLine] + HeaderLines(m.headers);
    HeaderLinesClean(m.headers);
    FirstBreak(lines, m.body);
    FirstOfHead(lines);
    OneLengthRead(m.headers, |m.body|);
    assert lines[1..] == HeaderLines(m.headers);
    PrintedParses(m, typed);
    var data := Print(m);
    assert data[..|Head(m)| + 4] == Head(m) + BREAK;
    FirstChar(lines);
    Keepalives(data);
    assert data[0] == Head(m)[0];
  }

  ghost function Printed(ms: seq<Parsed>): seq<Octets> {
    if ms == [] then [] else [Print(ms[0])] + Printed(ms[1..])
  }

  ghost function AsItems(ms: seq<Parsed>): seq<Item> {
    if ms == [] then [] else [Message(ms[0])] + AsItems(ms[1..])
  }

  lemma {:induction false} PrintedFrames(ms: seq<Parsed>, typed: Octets -> bool)
    requires forall i :: 0 <= i < |ms| ==> Sendable(ms[i]) && typed(ms[i].startLine)
    ensures forall i :: 0 <= i < |Printed(ms)| ==> Frame(Printed(ms)[i], typed)
    ensures Items(Printed(ms), typed) == AsItems(ms)
  {
    hide Sendable, Frame, Parse, Print;
    if ms != [] {
      PrintedParses(ms[0], typed);
      PrintedIsFrame(ms[0], typed);
      PrintedFrames(ms[1..], typed);
    }
  }

  /** Any messages written one after the other, and any cut of the stream into reads: exactly
      these messages come out, in order, bodies octet for octet, and the buffer ends empty. */
  lemma StreamRoundTrip(ms: seq<Parsed>, chunks: seq<Octets>, typed: Octets -> bool)
    requires forall i :: 0 <= i < |ms| ==> Sendable(ms[i]) && typed(ms[i].startLine)
    requires Concat(chunks) == Concat(Printed(ms))
    ensures Serve([], chunks, typed) == Emptied(AsItems(ms), [], false)
  {
    hide Sendable, Frame, Serve;
    PrintedFrames(ms, typed);
    ChunkingDoesNotMatter(Printed(ms), chunks, typed);
  }
}
