/**
 Cutting a message into start line, headers and body (src/sip/parser.rs).
 `typed` says whether a start line parses further, into method, URI and version
 or into version and status code.
 */
module MessageParser {
  import opened Prelude
  import opened Octets

  datatype Parsed = Parsed(startLine: Octets, headers: seq<(Octets, Octets)>, body: Octets)

  predicate Continuation(c: char) { 0x80 <= c as int <= 0xBF }

  /** How long a well-formed UTF-8 sequence starts here; 0 when none does. */
  function Utf8Length(s: Octets): nat
    requires s != []
    ensures Utf8Length(s) <= |s|
  {
    var a := s[0] as int;
    var next := i requires 0 < i => i < |s| && Continuation(s[i]);
    if a < 0x80 then 1
    else if 0xC2 <= a <= 0xDF then (if next(1) then 2 else 0)
    else if 0xE0 <= a <= 0xEF then
      if next(1) && next(2) && (a == 0xE0 ==> s[1] as int >= 0xA0) && (a == 0xED ==> s[1] as int <= 0x9F) then 3 else 0
    else if 0xF0 <= a <= 0xF4 then
      if next(1) && next(2) && next(3) && (a == 0xF0 ==> s[1] as int >= 0x90) && (a == 0xF4 ==> s[1] as int <= 0x8F) then 4 else 0
    else 0
  }

  /** `core::str::from_utf8(s).is_ok()`. */
  predicate Utf8(s: Octets) {
    s == [] || (Utf8Length(s) > 0 && Utf8(s[Utf8Length(s)..]))
  }

  predicate Ascii(s: Octets) {
    forall i :: 0 <= i < |s| ==> s[i] as int < 0x80
  }

  lemma {:induction false} AsciiIsUtf8(s: Octets)
    requires Ascii(s)
    ensures Utf8(s)
  {
    if s != [] {
      assert Utf8Length(s) == 1;
      AsciiIsUtf8(s[1..]);
    }
  }

  // ---- Lines ---------------------------------------------------------------------------

  datatype Line = Line(text: Octets, next: nat)

  /** `SplitCrLf::next`: a line that is not UTF-8 ends the iteration like the end of the text. */
  function NextLine(data: Octets, pos: nat): (r: Option<Line>)
    ensures r.Some? ==> pos < r.value.next <= |data|
  {
    if pos >= |data| then None
    else
      var lf := Find(data, '\n', pos);
      var end := if lf < |data| && lf > pos && data[lf - 1] == '\r' then lf - 1 else lf;
      var text := data[pos..end];
      if Utf8(text) then Some(Line(text, if lf < |data| then lf + 1 else lf)) else None
  }

  // ---- Headers -------------------------------------------------------------------------

  /** The locals of the header scan. */
  datatype Scan = Scan(headers: seq<(Octets, Octets)>, contentLength: nat, pending: Option<(Octets, Octets)>)

  predicate IsContentLength(name: Octets) {
    SameName(name, "content-length") || SameName(name, "l")
  }

  function LengthOr0(value: Octets): nat {
    var n := ParseUsize(Trim(value));
    if n.Some? then n.value else 0
  }

  /** The pending header is complete. */
  function Flush(st: Scan): Scan {
    match st.pending
    case None => st
    case Some(h) => Scan(st.headers + [h], if IsContentLength(h.0) then LengthOr0(h.1) else st.contentLength, None)
  }

  /** One header line: a continuation, or a new header. */
  function ScanLine(st: Scan, line: Octets): Scan
    requires line != []
  {
    if line[0] == ' ' || line[0] == '\t' then
      match st.pending
      case None => st
      case Some(h) => st.(pending := Some((h.0, h.1 + " " + Trim(line))))
    else
      var st1 := Flush(st);
      var colon := Find(line, ':', 0);
      if colon < |line| then st1.(pending := Some((Trim(line[..colon]), Trim(line[colon + 1..])))) else st1
  }

  /** The header lines from `pos` on, up to an empty one. */
  function ScanLines(data: Octets, pos: nat, st: Scan): Scan
    decreases |data| - pos
  {
    var l := NextLine(data, pos);
    if l.None? || l.value.text == [] then st
    else ScanLines(data, l.value.next, ScanLine(st, l.value.text))
  }

  /** The scan of all the lines below the start line. */
  function HeaderScan(head: Octets, pos: nat): Scan {
    Flush(ScanLines(head, pos, Scan([], 0, None)))
  }

  function Parse(data: Octets, typed: Octets -> bool): Option<Parsed> {
    var sep := FindBreak(data, 0);
    if sep.None? then None
    else
      var head := data[..sep.value];
      var first := NextLine(head, 0);
      if first.None? || !typed(first.value.text) then None
      else
        var scan := HeaderScan(head, first.value.next);
        var rest := data[sep.value + 4..];
        Some(Parsed(first.value.text, scan.headers, rest[..Min(|rest|, scan.contentLength)]))
  }

  /** The header loop of `parse_message`. */
  method ScanHeaders(head: Octets, start: nat) returns (headers: seq<(Octets, Octets)>, contentLength: nat)
    ensures Scan(headers, contentLength, None) == HeaderScan(head, start)
  {
    hide NextLine, Find, Trim, LengthOr0, SameName;
    headers, contentLength := [], 0;
    var pending: Option<(Octets, Octets)> := None;
    var pos := start;
    var line := NextLine(head, pos);
    while line.Some? && line.value.text != []
      invariant line == NextLine(head, pos)
      invariant ScanLines(head, start, Scan([], 0, None)) == ScanLines(head, pos, Scan(headers, contentLength, pending))
      decreases |head| - pos
    {
      var text := line.value.text;
      if text[0] == ' ' || text[0] == '\t' {
        if pending.Some? {
          pending := Some((pending.value.0, pending.value.1 + " " + Trim(text)));
        }
      } else {
        if pending.Some? {
          var (name, val) := pending.value;
          pending := None;
          if SameName(name, "content-length") || SameName(name, "l") {
            contentLength := LengthOr0(val);
          }
          headers := headers + [(name, val)];
        }
        var colon := Find(text, ':', 0);
        if colon < |text| {
          pending := Some((Trim(text[..colon]), Trim(text[colon + 1..])));
        }
      }
      pos := line.value.next;
      line := NextLine(head, pos);
    }
    if pending.Some? {
      var (name, val) := pending.value;
      if SameName(name, "content-length") || SameName(name, "l") {
        contentLength := LengthOr0(val);
      }
      headers := headers + [(name, val)];
    }
  }

  /** `parse_message`. */
  method ParseMessage(data: Octets, typed: Octets -> bool) returns (parsed: Option<Parsed>)
    ensures parsed == Parse(data, typed)
  {
    hide NextLine, HeaderScan, FindBreak;
    var sep := FindBreak(data, 0);
    if sep.None? {
      return None;
    }
    var headerSection := data[..sep.value];
    var bodyStart := sep.value + 4;
    var startLine := NextLine(headerSection, 0);
    if startLine.None? {
      return None;
    }
    var headers, contentLength := ScanHeaders(headerSection, startLine.value.next);
    var available := |data| - bodyStart;
    var take := Min(available, contentLength);
    var body := data[bodyStart..bodyStart + take];
    assert data[bodyStart..][..take] == body;
    if !typed(startLine.value.text) {
      return None;
    }
    return Some(Parsed(startLine.value.text, headers, body));
  }
}
