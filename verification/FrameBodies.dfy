/**
 When the body of a frame survives the parser, told from the frame's text.  The
 decoder and the parser read Content-Length differently: the decoder takes the first
 line that has one, the parser the last header, unfolded, and only down to the first
 line that is empty or not UTF-8.
 */
module FrameBodies {
  import opened Prelude
  import opened Octets
  import opened TransactionKey
  import opened MessageParser
  import opened SipCodec
  import opened Framing
  import opened PrintedMessages

  // ---- The lines of a head -------------------------------------------------------------

  /** The text between line feeds, each line without its CR. */
  function Lines(s: Octets): seq<Octets>
    decreases |s|
  {
    if s == [] then []
    else
      var lf := Find(s, '\n', 0);
      if lf == |s| then [s] else [StripCr(s[..lf])] + Lines(s[lf + 1..])
  }

  predicate Readable(line: Octets) { line != [] && Utf8(line) }

  /** The lines above the first one that is empty or not UTF-8. */
  function Visible(lines: seq<Octets>): seq<Octets> {
    if lines == [] || !Readable(lines[0]) then [] else [lines[0]] + Visible(lines[1..])
  }

  /** A continuation of the header above it. */
  predicate Folded(line: Octets) { line != [] && (line[0] == ' ' || line[0] == '\t') }

  /** A header with the name Content-Length or l. */
  predicate LengthLine(line: Octets) {
    !Folded(line) && Find(line, ':', 0) < |line| && IsContentLength(Trim(line[..Find(line, ':', 0)]))
  }

  /** What stands behind the colon. */
  function ValueOf(line: Octets): Octets {
    var colon := Find(line, ':', 0);
    if colon < |line| then Trim(line[colon + 1..]) else []
  }

  /** A value with the continuations below it. */
  function Unfold(value: Octets, below: seq<Octets>): Octets
    decreases |below|
  {
    if below == [] || !Folded(below[0]) then value else Unfold(value + " " + Trim(below[0]), below[1..])
  }

  /** The last length line says `n`. */
  ghost predicate Announces(lines: seq<Octets>, n: nat) {
    exists i :: 0 <= i < |lines| && LastLengthLine(lines, i)
                && ParseUsize(Trim(Unfold(ValueOf(lines[i]), lines[i + 1..]))) == Some(n)
  }

  predicate LastLengthLine(lines: seq<Octets>, i: nat)
    requires i < |lines|
  {
    LengthLine(lines[i]) && forall j :: i < j < |lines| ==> !LengthLine(lines[j])
  }

  /** The header lines of a frame, and its body. */
  function HeaderLinesOf(f: Octets): seq<Octets>
    requires FindBreak(f, 0).Some?
  {
    var lines := Lines(f[..FindBreak(f, 0).value]);
    if lines == [] then [] else lines[1..]
  }

  function BodyOf(f: Octets): Octets
    requires FindBreak(f, 0).Some?
  {
    f[FindBreak(f, 0).value + 4..]
  }

  // ---- The parser's scan, line by line ----------------------------------------------------

  function ScanAll(lines: seq<Octets>, st: Scan): Scan
    requires forall i :: 0 <= i < |lines| ==> lines[i] != []
    decreases |lines|
  {
    if lines == [] then st else ScanAll(lines[1..], ScanLine(st, lines[0]))
  }

  lemma {:induction false} VisibleReadable(lines: seq<Octets>)
    ensures forall i :: 0 <= i < |Visible(lines)| ==> Readable(Visible(lines)[i])
  {
    hide Readable;
    if lines != [] && Readable(lines[0]) { VisibleReadable(lines[1..]); }
  }

  lemma NextLineIs(s: Octets)
    requires s != []
    ensures var lf := Find(s, '\n', 0);
            NextLine(s, 0) == if Utf8(Lines(s)[0]) then Some(Line(Lines(s)[0], if lf < |s| then lf + 1 else lf)) else None
    ensures Lines(s)[1..] == if Find(s, '\n', 0) < |s| then Lines(s[Find(s, '\n', 0) + 1..]) else []
  {
    hide Utf8, Find;
    var lf := Find(s, '\n', 0);
    if lf == |s| {
      assert s[0..lf] == s;
    } else {
      var line := s[..lf];
      if lf > 0 && s[lf - 1] == '\r' { assert StripCr(line) == s[0..lf - 1]; } else { assert StripCr(line) == s[0..lf]; }
    }
  }

  /** One line scanned, the rest of the text is left. */
  lemma ScanHead(s: Octets, st: Scan)
    requires s != [] && Readable(Lines(s)[0])
    ensures NextLine(s, 0).Some? && 0 < NextLine(s, 0).value.next <= |s|
    ensures var rest := s[NextLine(s, 0).value.next..];
            Lines(s)[1..] == Lines(rest) && ScanLines(s, 0, st) == ScanLines(rest, 0, ScanLine(st, Lines(s)[0]))
  {
    NextLineIs(s);
    hide NextLine, ScanLine, Utf8, Find, Lines;
    var n := NextLine(s, 0).value.next;
    var rest := s[n..];
    assert s[..n] + rest == s;
    ScanShift(s[..n], rest, 0, ScanLine(st, Lines(s)[0]));
    if n == |s| { NoLines(rest); }
  }

  lemma NoLines(s: Octets)
    ensures Lines(s) == [] <==> s == []
  {
  }

  lemma ScanStops(s: Octets, st: Scan)
    requires s == [] || !Readable(Lines(s)[0])
    ensures ScanLines(s, 0, st) == st
  {
    if s != [] { NextLineIs(s); }
    hide Utf8, Find, Lines;
  }

  lemma {:induction false} ScanIsScanAll(s: Octets, st: Scan)
    ensures VisibleFilled(Lines(s))
    ensures ScanLines(s, 0, st) == ScanAll(Visible(Lines(s)), st)
    decreases |s|
  {
    VisibleReadable(Lines(s));
    NoLines(s);
    hide NextLine, ScanLine, ScanLines, Utf8, Find, Lines;
    if s == [] || !Readable(Lines(s)[0]) {
      ScanStops(s, st);
    } else {
      ScanHead(s, st);
      ScanIsScanAll(s[NextLine(s, 0).value.next..], ScanLine(st, Lines(s)[0]));
    }
  }

  predicate VisibleFilled(lines: seq<Octets>) {
    forall i :: 0 <= i < |Visible(lines)| ==> Visible(lines)[i] != []
  }

  // ---- The length the parser ends with --------------------------------------------------------

  /** The last length said by these lines, or `otherwise`. */
  function LastSaid(lines: seq<Octets>, otherwise: nat): nat
    decreases |lines|
  {
    if lines == [] then otherwise
    else LastSaid(lines[1..], if LengthLine(lines[0]) then LengthOr0(Unfold(ValueOf(lines[0]), lines[1..])) else otherwise)
  }

  /** The length in force once the pending header is complete. */
  function InForce(st: Scan, below: seq<Octets>): nat {
    if st.pending.Some? && IsContentLength(st.pending.value.0) then LengthOr0(Unfold(st.pending.value.1, below))
    else st.contentLength
  }

  lemma {:induction false} ScanSaid(lines: seq<Octets>, st: Scan)
    requires forall i :: 0 <= i < |lines| ==> lines[i] != []
    ensures Flush(ScanAll(lines, st)).contentLength == LastSaid(lines, InForce(st, lines))
    decreases |lines|
  {
    hide IsContentLength, LengthOr0, Trim, Find, Utf8;
    if lines != [] {
      ScanSaid(lines[1..], ScanLine(st, lines[0]));
      OneLineSaid(lines, st);
      hide ScanLine, InForce, LengthLine;
    }
  }

  lemma OneLineSaid(lines: seq<Octets>, st: Scan)
    requires lines != [] && lines[0] != []
    ensures InForce(ScanLine(st, lines[0]), lines[1..])
            == if LengthLine(lines[0]) then LengthOr0(Unfold(ValueOf(lines[0]), lines[1..])) else InForce(st, lines)
  {
    hide IsContentLength, LengthOr0, Trim, Find, Utf8;
  }

  lemma {:induction false} LastSaidIs(lines: seq<Octets>, i: nat, otherwise: nat)
    requires i < |lines| && LastLengthLine(lines, i)
    ensures LastSaid(lines, otherwise) == LengthOr0(Unfold(ValueOf(lines[i]), lines[i + 1..]))
    decreases |lines|
  {
    hide LengthLine, LengthOr0, Unfold, ValueOf;
    var next := if LengthLine(lines[0]) then LengthOr0(Unfold(ValueOf(lines[0]), lines[1..])) else otherwise;
    if i == 0 {
      NothingSaid(lines[1..], next);
    } else {
      assert lines[1..][i - 1] == lines[i] && lines[1..][i..] == lines[i + 1..];
      assert forall j :: i - 1 < j < |lines[1..]| ==> lines[1..][j] == lines[j + 1];
      LastSaidIs(lines[1..], i - 1, next);
    }
  }

  lemma {:induction false} NothingSaid(lines: seq<Octets>, otherwise: nat)
    requires forall j :: 0 <= j < |lines| ==> !LengthLine(lines[j])
    ensures LastSaid(lines, otherwise) == otherwise
    decreases |lines|
  {
    hide LengthLine;
    if lines != [] { NothingSaid(lines[1..], otherwise); }
  }

  /** There is a last length line when there is one. */
  lemma {:induction false} LastExists(lines: seq<Octets>) returns (i: nat)
    requires exists j :: 0 <= j < |lines| && LengthLine(lines[j])
    ensures i < |lines| && LastLengthLine(lines, i)
    decreases |lines|
  {
    hide LengthLine;
    var n := |lines| - 1;
    if LengthLine(lines[n]) {
      i := n;
    } else {
      var j :| 0 <= j < |lines| && LengthLine(lines[j]);
      assert lines[..n][j] == lines[j];
      i := LastExists(lines[..n]);
      assert forall k :: 0 <= k < n ==> lines[..n][k] == lines[k];
    }
  }

  lemma SaidExactlyWhen(lines: seq<Octets>, k: nat)
    requires k > 0
    ensures LastSaid(lines, 0) >= k <==> exists n: nat :: n >= k && Announces(lines, n)
  {
    hide LengthLine, Unfold, ValueOf, ParseUsize, LastSaid;
    if exists j :: 0 <= j < |lines| && LengthLine(lines[j]) {
      var i := LastExists(lines);
      LastSaidIs(lines, i, 0);
      var said := ParseUsize(Trim(Unfold(ValueOf(lines[i]), lines[i + 1..])));
      if said.Some? { assert Announces(lines, said.value); }
      forall n: nat | Announces(lines, n) ensures said == Some(n) {
        var j :| 0 <= j < |lines| && LastLengthLine(lines, j)
                 && ParseUsize(Trim(Unfold(ValueOf(lines[j]), lines[j + 1..]))) == Some(n);
        assert i == j;
      }
    } else {
      NothingSaid(lines, 0);
    }
  }

  lemma HeadersScanned(f: Octets, typed: Octets -> bool)
    requires Frame(f, typed)
    ensures var head := f[..FindBreak(f, 0).value];
            NextLine(head, 0).Some?
            && HeaderScan(head, NextLine(head, 0).value.next).contentLength == LastSaid(Visible(HeaderLinesOf(f)), 0)
  {
    hide Parse, ScanLines, LastSaid, NextLine, Lines, Visible, FirstLength, Fits;
    BodyByLength(f, typed);
    HeadScanned(f[..FindBreak(f, 0).value]);
  }

  lemma HeadScanned(head: Octets)
    requires NextLine(head, 0).Some?
    ensures Lines(head) != []
    ensures HeaderScan(head, NextLine(head, 0).value.next).contentLength == LastSaid(Visible(Lines(head)[1..]), 0)
  {
    hide ScanLines, ScanAll, LastSaid, NextLine, Find, Utf8, Lines, Visible;
    var n := NextLine(head, 0).value.next;
    var empty := Scan([], 0, None);
    assert head[..n] + head[n..] == head;
    ScanShift(head[..n], head[n..], 0, empty);
    ScanIsScanAll(head[n..], empty);
    LinesBelow(head);
    ScanSaid(Visible(Lines(head[n..])), empty);
  }

  lemma NonemptyHead(head: Octets)
    requires NextLine(head, 0).Some?
    ensures head != []
  {
  }

  lemma LinesBelow(head: Octets)
    requires NextLine(head, 0).Some?
    ensures Lines(head) != [] && Lines(head)[1..] == Lines(head[NextLine(head, 0).value.next..])
  {
    NonemptyHead(head);
    NextLineIs(head);
    hide Find, Utf8;
    var n := NextLine(head, 0).value.next;
    if n == |head| { assert head[n..] == []; }
  }

  /** The parsed body is the framed body, octet for octet, exactly when that is empty, or the last
      length line above the first line that is empty or not UTF-8, unfolded, says as much or more. */
  lemma BodyExactlyWhen(f: Octets, typed: Octets -> bool)
    requires Frame(f, typed)
    ensures Parse(f, typed).value.body == BodyOf(f)
            <==> BodyOf(f) == [] || exists n: nat :: n >= |BodyOf(f)| && Announces(Visible(HeaderLinesOf(f)), n)
  {
    BodyByLength(f, typed);
    HeadersScanned(f, typed);
    hide Frame, HeaderScan, NextLine, Announces, Visible, HeaderLinesOf, Parse;
    if |BodyOf(f)| > 0 { SaidExactlyWhen(Visible(HeaderLinesOf(f)), |BodyOf(f)|); }
  }

  // ---- Frames with one length line ---------------------------------------------------------------

  lemma LastLineRead(head: Octets)
    requires head != [] && Find(head, '\n', 0) == |head|
    ensures FirstLength(head + BREAK, 0)
            == if LengthOfLine(head).Absent? then FirstLength(CRLF, 0) else LengthOfLine(head)
  {
    hide LengthOfLine, FirstLength;
    var t := head + BREAK;
    FindIs(t, '\n', 0, |head| + 1);
    LengthFrom(t, 0);
    assert t[0..|head| + 1] == head + "\r" && StripCr(head + "\r") == head;
    assert t == (head + CRLF) + CRLF;
    LengthShift(head + CRLF, CRLF, 0);
  }

  /** What the decoder reads is what the first line that has one says. */
  lemma {:induction false} DecoderReads(head: Octets)
    ensures FirstLength(head + BREAK, 0) == FirstOf(Lines(head))
    decreases |head|
  {
    hide LengthOfLine, FirstLength;
    AfterHead();
    var t, lf := head + BREAK, Find(head, '\n', 0);
    if head == [] {
      assert t == BREAK;
    } else if lf == |head| {
      LastLineRead(head);
      assert [head][1..] == [];
    } else {
      FindIs(t, '\n', 0, lf);
      LengthFrom(t, 0);
      assert t[0..lf] == head[..lf];
      var rest := head[lf + 1..];
      assert t == head[..lf + 1] + (rest + BREAK);
      LengthShift(head[..lf + 1], rest + BREAK, 0);
      DecoderReads(rest);
      assert Lines(head)[1..] == Lines(rest);
    }
  }

  lemma AfterHead()
    ensures FirstLength(CRLF, 0).Absent? && FirstLength(BREAK, 0).Absent?
  {
    BlankLine();
    assert CRLF == [] + CRLF + [] && BREAK == [] + CRLF + CRLF;
    LengthStep([], []);
    LengthStep([], CRLF);
    hide LengthOfLine, FirstLength;
  }

  /** A line the decoder takes for a Content-Length is one for the parser. */
  lemma DecoderLine(line: Octets)
    requires !LengthOfLine(line).Absent?
    ensures LengthLine(line)
    ensures LengthOfLine(line) == match ParseUsize(Trim(line[Find(line, ':', 0) + 1..])) case None => Bad case Some(n) =>
              if Utf8(line[Find(line, ':', 0) + 1..]) then Given(n) else Bad
  {
    hide Utf8, ParseUsize;
    var name := line[..Find(line, ':', 0)];
    assert name[0] == line[0] && !IsSpace(name[0]) && !IsSpace(name[|name| - 1]) by { NameHasNoSpace(name); }
    TrimTrimmed(name);
  }

  lemma NameHasNoSpace(name: Octets)
    requires IsContentLength(name)
    ensures name != [] && forall i :: 0 <= i < |name| ==> !IsSpace(name[i])
  {
    forall i | 0 <= i < |name| ensures !IsSpace(name[i]) {
      assert Lower(name[i]) == (if |name| == 1 then "l" else "content-length")[i] || Lower(name[i]) == Lower("content-length"[i]);
    }
  }

  lemma {:induction false} FirstOfOne(lines: seq<Octets>, c: nat)
    requires c < |lines| && forall j :: 0 <= j < |lines| && j != c ==> LengthOfLine(lines[j]).Absent?
    ensures FirstOf(lines) == LengthOfLine(lines[c])
    decreases |lines|
  {
    hide LengthOfLine;
    if c > 0 {
      assert lines[1..][c - 1] == lines[c];
      FirstOfOne(lines[1..], c - 1);
    } else if LengthOfLine(lines[0]).Absent? {
      NoneOf(lines[1..]);
    }
  }

  lemma {:induction false} NoneOf(lines: seq<Octets>)
    requires forall j :: 0 <= j < |lines| ==> LengthOfLine(lines[j]).Absent?
    ensures FirstOf(lines) == Absent
    decreases |lines|
  {
    hide LengthOfLine;
    if lines != [] { NoneOf(lines[1..]); }
  }

  /** Every line down to `c` is UTF-8 and not empty. */
  predicate ReadableTo(lines: seq<Octets>, c: nat) {
    forall j :: 0 <= j <= c && j < |lines| ==> Readable(lines[j])
  }

  lemma {:induction false} VisiblePrefix(lines: seq<Octets>, c: nat)
    requires c < |lines|
    ensures Visible(lines) <= lines && (c < |Visible(lines)| <==> ReadableTo(lines, c))
    decreases |lines|
  {
    hide Readable;
    VisibleIsPrefix(lines);
    if Readable(lines[0]) && c > 0 {
      var rest := lines[1..];
      VisiblePrefix(rest, c - 1);
      assert forall j :: 1 <= j < |lines| ==> lines[j] == rest[j - 1];
      if ReadableTo(rest, c - 1) {
        forall j | 0 <= j <= c && j < |lines| ensures Readable(lines[j]) { if j > 0 { assert Readable(rest[j - 1]); } }
      }
      if ReadableTo(lines, c) {
        forall j | 0 <= j <= c - 1 && j < |rest| ensures Readable(rest[j]) { assert Readable(lines[j + 1]); }
      }
    }
  }

  lemma {:induction false} VisibleIsPrefix(lines: seq<Octets>)
    ensures Visible(lines) <= lines
  {
    hide Readable;
    if lines != [] && Readable(lines[0]) { VisibleIsPrefix(lines[1..]); }
  }

  // ---- Continuations of a number ------------------------------------------------------------------

  /** The continuations right below are blank. */
  predicate Bare(below: seq<Octets>) {
    below == [] || !Folded(below[0]) || (Trim(below[0]) == [] && Bare(below[1..]))
  }

  lemma {:induction false} TrimIsTrimmed(s: Octets)
    ensures Trimmed(Trim(s))
  {
    StartTrimmed(s);
    EndTrimmed(TrimStart(s));
  }

  lemma {:induction false} StartTrimmed(s: Octets)
    ensures TrimStart(s) == [] || !IsSpace(TrimStart(s)[0])
  {
    if s != [] && IsSpace(s[0]) { StartTrimmed(s[1..]); }
  }

  lemma {:induction false} EndTrimmed(s: Octets)
    ensures TrimEnd(s) <= s && (TrimEnd(s) == [] || !IsSpace(TrimEnd(s)[|TrimEnd(s)| - 1]))
  {
    if s != [] && IsSpace(s[|s| - 1]) { EndTrimmed(s[..|s| - 1]); }
  }

  lemma {:induction false} EndKeeps(s: Octets, q: nat)
    requires q < |s| && !IsSpace(s[q])
    ensures q < |TrimEnd(s)| && TrimEnd(s) <= s
  {
    if IsSpace(s[|s| - 1]) { EndKeeps(s[..|s| - 1], q); }
  }

  /** Blank continuations do not change the number ... */
  lemma {:induction false} UnfoldBare(v: Octets, below: seq<Octets>)
    requires v != [] && !IsSpace(v[0]) && Bare(below)
    ensures Trim(Unfold(v, below)) == Trim(v)
    decreases |below|
  {
    if below != [] && Folded(below[0]) {
      assert v + " " + [] == v + " ";
      UnfoldBare(v + " ", below[1..]);
      assert (v + " ")[..|v|] == v;
      hide Folded, Bare;
    }
  }

  lemma {:induction false} UnfoldExtends(v: Octets, below: seq<Octets>)
    ensures v <= Unfold(v, below)
    decreases |below|
  {
    hide Trim;
    if below != [] && Folded(below[0]) {
      UnfoldExtends(v + " " + Trim(below[0]), below[1..]);
      assert v <= v + " " + Trim(below[0]);
    }
  }

  /** ... any other tears it apart. */
  lemma {:induction false} UnfoldTorn(v: Octets, below: seq<Octets>) returns (p: nat, q: nat)
    requires v != [] && !IsSpace(v[0]) && !Bare(below)
    ensures v <= Unfold(v, below) && 0 < p < q < |Unfold(v, below)|
    ensures Unfold(v, below)[p] == ' ' && !IsSpace(Unfold(v, below)[q])
    decreases |below|
  {
    hide Trim;
    UnfoldExtends(v, below);
    var t := Trim(below[0]);
    if t == [] {
      assert v + " " + t == v + " ";
      p, q := UnfoldTorn(v + " ", below[1..]);
    } else {
      TrimIsTrimmed(below[0]);
      var v' := v + " " + t;
      UnfoldExtends(v', below[1..]);
      p, q := |v|, |v| + 1;
      assert v'[p] == ' ' && v'[q] == t[0];
    }
  }

  lemma TornIsNoNumber(u: Octets, p: nat, q: nat)
    requires 0 < p < q < |u| && u[p] == ' ' && !IsSpace(u[q]) && !IsSpace(u[0])
    ensures ParseUsize(Trim(u)) == None
  {
    EndKeeps(u, q);
    var t := Trim(u);
    assert t == TrimEnd(u) && t[p] == u[p];
    var digits, i := if t[0] == '+' then t[1..] else t, if t[0] == '+' then p - 1 else p;
    assert digits[i] == ' ' && !AllDigits(digits);
  }

  lemma NumberNotBlank(v: Octets, n: nat)
    requires ParseUsize(v) == Some(n)
    ensures v != [] && !IsSpace(v[0])
  {
    var digits := if v != [] && v[0] == '+' then v[1..] else v;
    assert AllDigits(digits) && IsDigit(digits[0]);
  }

  /** The number of the one length line survives its continuations exactly when they are blank. */
  lemma UnfoldedNumber(v: Octets, below: seq<Octets>, n: nat)
    requires Trimmed(v) && ParseUsize(v) == Some(n)
    ensures ParseUsize(Trim(Unfold(v, below))) == if Bare(below) then Some(n) else None
  {
    NumberNotBlank(v, n);
    hide ParseUsize, Unfold, Bare;
    if Bare(below) {
      UnfoldBare(v, below);
      TrimTrimmed(v);
    } else {
      var p, q := UnfoldTorn(v, below);
      TornIsNoNumber(Unfold(v, below), p, q);
    }
  }

  /** `c` is the one length line of the head. */
  predicate OneLengthLine(start: Octets, lines: seq<Octets>, c: nat) {
    && c < |lines| && LengthLine(lines[c]) && LengthOfLine(start).Absent?
    && forall j :: 0 <= j < |lines| && j != c ==> !LengthLine(lines[j])
  }

  lemma OneLengthSays(f: Octets, typed: Octets -> bool, c: nat)
    requires Frame(f, typed) && BodyOf(f) != []
    requires var lines := Lines(f[..FindBreak(f, 0).value]); lines != [] && OneLengthLine(lines[0], HeaderLinesOf(f), c)
    ensures ParseUsize(ValueOf(HeaderLinesOf(f)[c])) == Some(|BodyOf(f)|) && Trimmed(ValueOf(HeaderLinesOf(f)[c]))
  {
    hide Parse, Lines, LengthOfLine, LengthLine, FirstOf, FindBreak, FirstLength, ParseUsize, ValueOf, Trimmed;
    var head := f[..FindBreak(f, 0).value];
    assert f[..FindBreak(f, 0).value + 4] == head + BREAK;
    DecoderReads(head);
    OneLengthRead1(Lines(head), c);
    var line := HeaderLinesOf(f)[c];
    assert Lines(head)[c + 1] == line;
    LineSays(line, |BodyOf(f)|);
  }

  lemma OneLengthRead1(lines: seq<Octets>, c: nat)
    requires lines != [] && OneLengthLine(lines[0], lines[1..], c)
    ensures FirstOf(lines) == LengthOfLine(lines[c + 1])
  {
    hide LengthOfLine, LengthLine;
    forall j | 0 <= j < |lines| && j != c + 1 ensures LengthOfLine(lines[j]).Absent? {
      if j > 0 {
        assert lines[1..][j - 1] == lines[j];
        if !LengthOfLine(lines[j]).Absent? { DecoderLine(lines[j]); }
      }
    }
    FirstOfOne(lines, c + 1);
  }

  lemma LineSays(line: Octets, n: nat)
    requires LengthOfLine(line) == Given(n)
    ensures ParseUsize(ValueOf(line)) == Some(n) && Trimmed(ValueOf(line))
  {
    hide Utf8, ParseUsize, IsContentLength, Trim, Trimmed;
    TrimIsTrimmed(line[Find(line, ':', 0) + 1..]);
  }

  /** With one length line in the head and a body to lose: the body survives exactly when every
      header line down to that one is UTF-8 and not empty, and it is continued by blanks at most. */
  lemma OneLengthExactlyWhen(f: Octets, typed: Octets -> bool, c: nat)
    requires Frame(f, typed) && BodyOf(f) != []
    requires var lines := Lines(f[..FindBreak(f, 0).value]); lines != [] && OneLengthLine(lines[0], HeaderLinesOf(f), c)
    ensures var lines := HeaderLinesOf(f);
            Parse(f, typed).value.body == BodyOf(f)
            <==> ReadableTo(lines, c) && Bare(Visible(lines)[Min(c + 1, |Visible(lines)|)..])
  {
    hide Frame, Parse, LengthLine, Lines, LengthOfLine, Bare, Unfold, ParseUsize, ValueOf, ReadableTo, Visible, FindBreak, HeaderLinesOf, BodyOf;
    FrameHead(f, typed);
    BodyExactlyWhen(f, typed);
    OneLengthSays(f, typed, c);
    var lines, n := HeaderLinesOf(f), |BodyOf(f)|;
    VisiblePrefix(lines, c);
    var seen := Visible(lines);
    if c < |seen| {
      assert seen[c] == lines[c] && forall j :: 0 <= j < |seen| ==> seen[j] == lines[j];
      assert LastLengthLine(seen, c);
      UnfoldedNumber(ValueOf(lines[c]), seen[c + 1..], n);
      OnlyAnnouncement(seen, c);
    } else {
      assert forall j :: 0 <= j < |seen| ==> seen[j] == lines[j];
    }
  }

  lemma OnlyAnnouncement(lines: seq<Octets>, c: nat)
    requires c < |lines| && LastLengthLine(lines, c)
    ensures forall n: nat :: Announces(lines, n) <==> ParseUsize(Trim(Unfold(ValueOf(lines[c]), lines[c + 1..]))) == Some(n)
  {
    hide LengthLine, Unfold, ValueOf, ParseUsize, Trim;
    forall n: nat | Announces(lines, n) ensures ParseUsize(Trim(Unfold(ValueOf(lines[c]), lines[c + 1..]))) == Some(n) {
      var j :| 0 <= j < |lines| && LastLengthLine(lines, j)
               && ParseUsize(Trim(Unfold(ValueOf(lines[j]), lines[j + 1..]))) == Some(n);
      assert j == c;
    }
  }

  // ---- Frames that lose their body --------------------------------------------------------------------

  /** A head of these lines, each with its own end. */
  function Text(start: Octets, first: Octets, firstEnd: Octets, second: Octets): Octets {
    start + CRLF + first + firstEnd + second
  }

  /** Lines without line ends come apart. */
  lemma ThreeLines(start: Octets, first: Octets, firstEnd: Octets, second: Octets)
    requires OneLine(start) && OneLine(first) && OneLine(second) && second != []
    requires firstEnd == CRLF || firstEnd == "\n"
    ensures Lines(Text(start, first, firstEnd, second)) == [start, first, second]
  {
    hide Lines, OneLine;
    LineOff(start, CRLF, first + firstEnd + second);
    LineOff(first, firstEnd, second);
    LastLine(second);
    assert start + CRLF + (first + firstEnd + second) == Text(start, first, firstEnd, second);
  }

  lemma LastLine(l: Octets)
    requires OneLine(l) && l != []
    ensures Lines(l) == [l]
  {
    FindIs(l, '\n', 0, |l|);
  }

  predicate OneLine(l: Octets) { forall i :: 0 <= i < |l| ==> l[i] != '\r' && l[i] != '\n' }

  lemma LineOff(l: Octets, end: Octets, rest: Octets)
    requires OneLine(l) && (end == CRLF || end == "\n")
    ensures Lines(l + end + rest) == [l] + Lines(rest)
  {
    var s, lf := l + end + rest, |l| + |end| - 1;
    FindIs(s, '\n', 0, lf);
    assert s[lf + 1..] == rest;
    if end == CRLF { assert s[..lf] == l + "\r" && StripCr(l + "\r") == l; } else { assert s[..lf] == l && StripCr(l) == l; }
    hide Find, Lines, StripCr;
    assert Lines(s) == [StripCr(s[..lf])] + Lines(s[lf + 1..]) by { LinesFirst(s, lf); }
  }

  lemma LinesFirst(s: Octets, lf: nat)
    requires lf < |s| && Find(s, '\n', 0) == lf
    ensures Lines(s) == [StripCr(s[..lf])] + Lines(s[lf + 1..])
  {
    hide Find, StripCr;
  }

  /** A start line the parser accepts, of a length that leaves room for the rest. */
  predicate StartLine(start: Octets, typed: Octets -> bool) {
    typed(start) && OneLine(start) && Readable(start) && LengthOfLine(start).Absent? && |start| <= MAX_SIP_MESSAGE_SIZE - 30
  }

  /** A head `start`, `first`, `l: 1` over the body Z is a frame with one, correct Content-Length. */
  lemma OneOctetFrame(start: Octets, first: Octets, firstEnd: Octets, typed: Octets -> bool)
    requires StartLine(start, typed) && OneLine(first) && ((firstEnd == CRLF && first != []) || firstEnd == "\n")
    requires !LengthLine(first)
    requires |first| <= 10
    ensures var head := Text(start, first, firstEnd, "l: 1");
            var f := head + BREAK + "Z";
            && FindBreak(f, 0) == Some(|head|) && f[..|head|] == head && Frame(f, typed)
            && BodyOf(f) == "Z" && HeaderLinesOf(f) == [first, "l: 1"] && OneLengthLine(start, HeaderLinesOf(f), 1)
            && Lines(head) == [start, first, "l: 1"]
  {
    hide FindBreak, Parse, FirstLength, Lines, LengthLine, LengthOfLine, Utf8, NextLine;
    var head := Text(start, first, firstEnd, "l: 1");
    var f := head + BREAK + "Z";
    assert OneLine("l: 1");
    ThreeLines(start, first, firstEnd, "l: 1");
    HeadBreak(start, first, firstEnd);
    assert f[..|head|] == head && f[|head| + 4..] == "Z" && f[..|head| + 4] == head + BREAK;
    DecoderReads(head);
    LengthOne(start, first);
    StartParses(f, head, start, typed);
    assert f[0] == start[0] != '\r';
    Keepalives(f);
  }

  /** The first blank line of such a frame is the one above the body. */
  lemma HeadBreak(start: Octets, first: Octets, firstEnd: Octets)
    requires OneLine(start) && OneLine(first) && ((firstEnd == CRLF && first != []) || firstEnd == "\n")
    ensures var head := Text(start, first, firstEnd, "l: 1"); FindBreak(head + BREAK + "Z", 0) == Some(|head|)
  {
    hide FindBreak;
    var head := Text(start, first, firstEnd, "l: 1");
    var f, n := head + BREAK + "Z", |start| + 2;
    forall k | 0 <= k < |head| ensures !At(f, k, BREAK) {
      assert forall i :: 0 <= i < |start| ==> f[i] == start[i];
      assert f[n - 2] == '\r' && f[n - 1] == '\n';
      assert forall i :: 0 <= i < |first| ==> f[n + i] == first[i];
      assert forall i :: 0 <= i < |firstEnd| ==> f[n + |first| + i] == firstEnd[i];
      assert forall i :: 0 <= i < 4 ==> f[n + |first| + |firstEnd| + i] == "l: 1"[i];
      NoBreakAt(f, k);
    }
    BreakSkip(f, 0, |head|);
    assert f[|head|..|head| + 4] == BREAK;
    FoundHere(f, |head|);
  }

  lemma FoundHere(s: Octets, i: nat)
    requires At(s, i, BREAK)
    ensures FindBreak(s, i) == Some(i)
  {
  }

  lemma LengthOne(start: Octets, first: Octets)
    requires LengthOfLine(start).Absent? && !LengthLine(first)
    ensures FirstOf([start, first, "l: 1"]) == Given(1) && LengthLine("l: 1")
  {
    FindIs("l: 1", ':', 0, 1);
    assert "l: 1"[..1] == "l" && "l: 1"[2..] == " " + "1";
    assert Decimal(1) == "1";
    LengthReadsBack(1);
    TrimSpace("1");
    TrimTrimmed("l");
    AsciiIsUtf8(" 1");
    assert LengthOfLine("l: 1") == Given(1) by { hide Find, Trim, Utf8, ParseUsize; }
    assert LengthLine("l: 1") by { hide Find, Trim; }
    if !LengthOfLine(first).Absent? { DecoderLine(first); }
    hide LengthOfLine, LengthLine;
    var lines := [start, first, "l: 1"];
    FirstOfOne(lines, 2);
  }

  lemma StartParses(f: Octets, head: Octets, start: Octets, typed: Octets -> bool)
    requires FindBreak(f, 0) == Some(|head|) && |head| + 4 <= |f| && f[..|head|] == head
    requires Lines(head) != [] && Lines(head)[0] == start && typed(start) && Readable(start)
    ensures Parse(f, typed).Some?
  {
    NextLineIs(head);
    hide Lines, HeaderScan, NextLine, FindBreak;
  }

  /** Under any start line, a header line that is not UTF-8 hides the Content-Length below it: the body is
      lost, and so is that header, without an error. */
  lemma NotUtf8LosesBody(start: Octets, typed: Octets -> bool)
    requires StartLine(start, typed)
    ensures var f := start + "\r\nX: \U{FF}\r\nl: 1\r\n\r\nZ";
            Frame(f, typed) && BodyOf(f) == "Z" && Parse(f, typed).value.body != "Z"
  {
    hide Frame, Parse, FindBreak, LengthLine, Readable, Lines, LengthOfLine, Bare, HeaderLinesOf, BodyOf, Visible;
    var first := "X: \U{FF}";
    PlainHeaderLine();
    BadOctet();
    OneOctetFrame(start, first, CRLF, typed);
    var f := Text(start, first, CRLF, "l: 1") + BREAK + "Z";
    assert f == start + "\r\nX: \U{FF}\r\nl: 1\r\n\r\nZ";
    OneLengthExactlyWhen(f, typed, 1);
    assert HeaderLinesOf(f)[0] == first;
  }

  lemma PlainHeaderLine()
    ensures !LengthLine("X: \U{FF}")
  {
    var first := "X: \U{FF}";
    FindIs(first, ':', 0, 1);
    assert first[..1] == "X" && !IsContentLength("X");
    TrimTrimmed("X");
    hide Find, Trim;
  }

  lemma BadOctet()
    ensures !Readable("X: \U{FF}")
  {
    var s := "X: \U{FF}";
    assert s[1..] == ": \U{FF}" && s[1..][1..] == " \U{FF}" && s[1..][1..][1..] == "\U{FF}";
    assert !Utf8("\U{FF}");
    assert !Utf8(" \U{FF}");
    assert !Utf8(": \U{FF}");
  }

  /** So does an empty line that ends in LF alone. */
  lemma EmptyLineLosesBody(start: Octets, typed: Octets -> bool)
    requires StartLine(start, typed)
    ensures var f := start + "\r\n\nl: 1\r\n\r\nZ";
            Frame(f, typed) && BodyOf(f) == "Z" && Parse(f, typed).value.body != "Z"
  {
    hide Frame, Parse, FindBreak, LengthLine, Readable, Lines, LengthOfLine, Bare, HeaderLinesOf, BodyOf, Visible;
    EmptyHeaderLine();
    OneOctetFrame(start, [], "\n", typed);
    var f := Text(start, [], "\n", "l: 1") + BREAK + "Z";
    assert f == start + "\r\n\nl: 1\r\n\r\nZ";
    OneLengthExactlyWhen(f, typed, 1);
    assert HeaderLinesOf(f)[0] == [];
  }

  lemma EmptyHeaderLine()
    ensures !LengthLine([]) && !Readable([])
  {
    FindIs([], ':', 0, 0);
  }

  /** A BYE is such a start line. */
  lemma ByeLosesBody(typed: Octets -> bool)
    requires typed("BYE sip:a SIP/2.0")
    ensures var f := "BYE sip:a SIP/2.0\r\nX: \U{FF}\r\nl: 1\r\n\r\nZ";
            Frame(f, typed) && BodyOf(f) == "Z" && Parse(f, typed).value.body != "Z"
    ensures var f := "BYE sip:a SIP/2.0\r\n\nl: 1\r\n\r\nZ";
            Frame(f, typed) && BodyOf(f) == "Z" && Parse(f, typed).value.body != "Z"
  {
    hide Frame, Parse, BodyOf, Readable, LengthOfLine;
    var start := "BYE sip:a SIP/2.0";
    ByeLine();
    NotUtf8LosesBody(start, typed);
    EmptyLineLosesBody(start, typed);
    assert start + "\r\nX: \U{FF}\r\nl: 1\r\n\r\nZ" == "BYE sip:a SIP/2.0\r\nX: \U{FF}\r\nl: 1\r\n\r\nZ";
    assert start + "\r\n\nl: 1\r\n\r\nZ" == "BYE sip:a SIP/2.0\r\n\nl: 1\r\n\r\nZ";
  }

  lemma ByeLine()
    ensures Readable("BYE sip:a SIP/2.0") && LengthOfLine("BYE sip:a SIP/2.0").Absent?
  {
    hide Utf8, Find, LengthOfLine;
    AsciiIsUtf8("BYE sip:a SIP/2.0");
    ByeHasNoLength();
  }

  lemma ByeHasNoLength()
    ensures LengthOfLine("BYE sip:a SIP/2.0").Absent?
  {
    hide Utf8, Find, Trim, ParseUsize;
    var start := "BYE sip:a SIP/2.0";
    FindIs(start, ':', 0, 7);
    assert start[..7] == "BYE sip";
    assert !IsContentLength("BYE sip");
  }
}
