/**
 What the parser reads, told from the lines of the text: a header for each line with a
 colon, with the continuations below it, down to the first line that is empty or not UTF-8.
 */
module HeaderLines {
  import opened Prelude
  import opened Octets
  import opened MessageParser
  import opened SipCodec
  import opened Framing
  import opened PrintedMessages
  import opened FrameBodies

  predicate StartsHeader(line: Octets) { !Folded(line) && Find(line, ':', 0) < |line| }

  /** One header for each line that starts one; a continuation without a header above it is skipped, and
      so is a line without a colon. */
  function HeadersIn(lines: seq<Octets>): seq<(Octets, Octets)>
    decreases |lines|
  {
    if lines == [] then []
    else if StartsHeader(lines[0]) then
      [(Trim(lines[0][..Find(lines[0], ':', 0)]), Unfold(ValueOf(lines[0]), lines[1..]))] + HeadersIn(lines[1..])
    else HeadersIn(lines[1..])
  }

  /** The headers scanned so far, the last one with what continues it. */
  function SoFar(st: Scan, below: seq<Octets>): seq<(Octets, Octets)> {
    match st.pending
    case None => st.headers
    case Some(h) => st.headers + [(h.0, Unfold(h.1, below))]
  }

  lemma OneLineScanned(lines: seq<Octets>, st: Scan)
    requires lines != [] && lines[0] != []
    ensures SoFar(ScanLine(st, lines[0]), lines[1..]) + HeadersIn(lines[1..]) == SoFar(st, lines) + HeadersIn(lines)
  {
    hide IsContentLength, LengthOr0, Trim, Find, Utf8;
  }

  lemma {:induction false} ScanReads(lines: seq<Octets>, st: Scan)
    requires forall i :: 0 <= i < |lines| ==> lines[i] != []
    ensures Flush(ScanAll(lines, st)).headers == SoFar(st, lines) + HeadersIn(lines)
    decreases |lines|
  {
    hide IsContentLength, LengthOr0, Trim, Find, Utf8;
    if lines != [] {
      ScanReads(lines[1..], ScanLine(st, lines[0]));
      OneLineScanned(lines, st);
      hide ScanLine, SoFar, HeadersIn;
    }
  }

  lemma HeadRead(head: Octets)
    requires NextLine(head, 0).Some?
    ensures Lines(head) != []
    ensures HeaderScan(head, NextLine(head, 0).value.next).headers == HeadersIn(Visible(Lines(head)[1..]))
  {
    hide ScanLines, ScanAll, HeadersIn, NextLine, Find, Utf8, Lines, Visible;
    var n := NextLine(head, 0).value.next;
    var empty := Scan([], 0, None);
    assert head[..n] + head[n..] == head;
    ScanShift(head[..n], head[n..], 0, empty);
    ScanIsScanAll(head[n..], empty);
    LinesBelow(head);
    ScanReads(Visible(Lines(head[n..])), empty);
  }

  /** Exactly which text parses, and into what: the lines above the first blank line, the first one of
      them a start line, and of what stands below it no more octets than the scan ended with. */
  lemma ParsesExactlyWhen(data: Octets, typed: Octets -> bool)
    ensures Parse(data, typed).Some?
            <==> FindBreak(data, 0).Some?
                 && var lines := Lines(data[..FindBreak(data, 0).value]); lines != [] && Utf8(lines[0]) && typed(lines[0])
    ensures Parse(data, typed).Some? ==>
              var m, lines := Parse(data, typed).value, Lines(data[..FindBreak(data, 0).value]);
              && lines != [] && m.startLine == lines[0] && m.headers == HeadersIn(Visible(lines[1..]))
              && m.body == BodyOf(data)[..Min(|BodyOf(data)|, LastSaid(Visible(lines[1..]), 0))]
  {
    if FindBreak(data, 0).Some? {
      var head := data[..FindBreak(data, 0).value];
      NoLines(head);
      if head != [] {
        NextLineIs(head);
        if NextLine(head, 0).Some? {
          HeadRead(head);
          HeadScanned(head);
        }
      }
    }
    hide HeaderScan, Lines, Visible, HeadersIn, LastSaid, Utf8, Find;
  }
}
