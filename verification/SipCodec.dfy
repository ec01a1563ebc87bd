/**
 The stream decoder and the read loop around it (src/transport/stream.rs).
 */
module SipCodec {
  import opened Prelude
  import opened Octets
  import opened MessageParser

  const MAX_SIP_MESSAGE_SIZE := 65535

  // ---- Content-Length as the decoder reads it ----------------------------------------------

  /** The line without a final CR. */
  function StripCr(line: Octets): Octets {
    if line != [] && line[|line| - 1] == '\r' then line[..|line| - 1] else line
  }

  datatype Length = Absent | Bad | Given(n: nat)

  /** What a line says: no Content-Length, a bad one, or a number. */
  function LengthOfLine(line: Octets): Length {
    var colon := Find(line, ':', 0);
    if colon == |line| || !IsContentLength(line[..colon]) then Absent
    else
      var value := line[colon + 1..];
      if !Utf8(value) then Bad
      else
        var n := ParseUsize(Trim(value));
        if n.None? then Bad else Given(n.value)
  }

  /** The first line from `start` on that has one. */
  function FirstLength(headers: Octets, start: nat): Length
    decreases |headers| - start
  {
    if start >= |headers| then Absent
    else
      var end := Find(headers, '\n', start);
      var here := LengthOfLine(StripCr(headers[start..end]));
      if !here.Absent? then here
      else FirstLength(headers, if end < |headers| then end + 1 else end)
  }

  // ---- One call of `decode` ------------------------------------------------------------------

  datatype Item = Message(msg: Parsed) | KeepaliveRequest | KeepaliveResponse

  /** An item and the unread rest, nothing yet, or an error. */
  datatype Outcome = Got(item: Item, rest: Octets) | More | Failed

  function IfSmall(src: Octets): Outcome {
    if |src| > MAX_SIP_MESSAGE_SIZE then Failed else More
  }

  function Decode(src: Octets, typed: Octets -> bool): Outcome {
    if StartsWith(src, BREAK) then Got(KeepaliveRequest, src[4..])
    else if StartsWith(src, CRLF) then Got(KeepaliveResponse, src[2..])
    else
      var headersEnd := FindBreak(src, 0);
      if headersEnd.None? then IfSmall(src)
      else
        match FirstLength(src[..headersEnd.value + 4], 0)
        case Bad => Failed
        case Absent => Cut(src, headersEnd.value + 4, typed)
        case Given(n) => Cut(src, headersEnd.value + 4 + n, typed)
  }

  /** The first `total` octets, once they are there. */
  function Cut(src: Octets, total: nat, typed: Octets -> bool): Outcome {
    if |src| < total then IfSmall(src)
    else
      var msg := Parse(src[..total], typed);
      if msg.None? then Failed else Got(Message(msg.value), src[total..])
  }

  // ---- The connection --------------------------------------------------------------------------

  /** Everything the buffer holds, decoded: items, what is left, and whether it failed. */
  datatype Emptied = Emptied(items: seq<Item>, rest: Octets, failed: bool)

  lemma DecodeShrinks(src: Octets, typed: Octets -> bool)
    ensures Decode(src, typed).Got? ==> |Decode(src, typed).rest| < |src|
  {
    hide Parse, FirstLength, FindBreak;
  }

  function DecodeAll(src: Octets, typed: Octets -> bool): Emptied
    decreases |src|
  {
    DecodeShrinks(src, typed);
    match Decode(src, typed)
    case Failed => Emptied([], src, true)
    case More => Emptied([], src, false)
    case Got(item, rest) =>
      var e := DecodeAll(rest, typed);
      Emptied([item] + e.items, e.rest, e.failed)
  }

  /** The loop over the reads: each read is appended, then everything is decoded. */
  function Serve(buffer: Octets, chunks: seq<Octets>, typed: Octets -> bool): Emptied
    decreases |chunks|
  {
    if chunks == [] then Emptied([], buffer, false)
    else
      var e := DecodeAll(buffer + chunks[0], typed);
      if e.failed then e
      else
        var later := Serve(e.rest, chunks[1..], typed);
        Emptied(e.items + later.items, later.rest, later.failed)
  }

  /** `BytesMut`. */
  class Buffer {
    var bytes: Octets

    constructor ()
      ensures bytes == []
    {
      bytes := [];
    }

    method Extend(more: Octets)
      modifies this
      ensures bytes == old(bytes) + more
    {
      bytes := bytes + more;
    }

    /** `split_to`, and `advance` when the result is dropped. */
    method SplitTo(n: nat) returns (head: Octets)
      requires n <= |bytes|
      modifies this
      ensures head == old(bytes)[..n] && bytes == old(bytes)[n..]
    {
      head := bytes[..n];
      bytes := bytes[n..];
    }
  }

  /** The scan of the header lines for Content-Length. */
  method ScanLength(headers: Octets) returns (length: Length)
    ensures length == FirstLength(headers, 0)
  {
    hide ParseUsize, Utf8, IsContentLength, Trim, FirstLength;
    var start := 0;
    while start < |headers|
      invariant 0 <= start <= |headers|
      invariant FirstLength(headers, 0) == FirstLength(headers, start)
      decreases |headers| - start
    {
      LengthFrom(headers, start);
      var end := Find(headers, '\n', start);
      var line := headers[start..end];
      if line != [] && line[|line| - 1] == '\r' {
        line := line[..|line| - 1];
      }
      var colon := Find(line, ':', 0);
      if colon < |line| {
        if IsContentLength(line[..colon]) {
          var value := line[colon + 1..];
          if !Utf8(value) {
            return Bad;
          }
          var n := ParseUsize(Trim(value));
          if n.None? {
            return Bad;
          }
          return Given(n.value);
        }
      }
      start := if end < |headers| then end + 1 else end;
    }
    LengthFrom(headers, start);
    return Absent;
  }

  /** One line of the scan. */
  lemma LengthFrom(headers: Octets, start: nat)
    requires start <= |headers|
    ensures FirstLength(headers, start) ==
            if start == |headers| then Absent
            else
              var end := Find(headers, '\n', start);
              var here := LengthOfLine(StripCr(headers[start..end]));
              if !here.Absent? then here else FirstLength(headers, if end < |headers| then end + 1 else end)
  {
    hide LengthOfLine, StripCr, Find;
  }

  class StreamConnection {
    const typed: Octets -> bool
    const buffer: Buffer
    var sent: seq<Item>

    constructor (typed: Octets -> bool)
      ensures this.typed == typed && sent == [] && fresh(buffer) && buffer.bytes == []
    {
      this.typed := typed;
      buffer := new Buffer();
      sent := [];
    }

    /** `SipCodec::decode`. */
    method DecodeNext() returns (item: Option<Item>, failed: bool)
      modifies buffer
      ensures match Decode(old(buffer.bytes), typed)
              case Got(i, rest) => item == Some(i) && !failed && buffer.bytes == rest
              case More => item == None && !failed && buffer.bytes == old(buffer.bytes)
              case Failed => item == None && failed
    {
      hide FirstLength, FindBreak, Parse;
      var src := buffer.bytes;
      if |src| >= 4 && src[..4] == BREAK {
        var _ := buffer.SplitTo(4);
        return Some(KeepaliveRequest), false;
      }
      if |src| >= 2 && src[..2] == CRLF {
        var _ := buffer.SplitTo(2);
        return Some(KeepaliveResponse), false;
      }
      var headersEnd := FindBreak(src, 0);
      if headersEnd.Some? {
        var length := ScanLength(src[..headersEnd.value + 4]);
        if length.Bad? {
          return None, true;
        }
        var contentLength := if length.Given? then length.n else 0;
        var totalLen := headersEnd.value + 4 + contentLength;
        if |src| >= totalLen {
          var msgData := buffer.SplitTo(totalLen);
          var msg := ParseMessage(msgData, typed);
          if msg.None? {
            return None, true;
          }
          return Some(Message(msg.value)), false;
        }
      }
      if |src| > MAX_SIP_MESSAGE_SIZE {
        return None, true;
      }
      return None, false;
    }

    /** The inner loop of `serve_loop`. */
    method DecodeBuffered() returns (failed: bool)
      modifies this`sent, buffer
      ensures var e := DecodeAll(old(buffer.bytes), typed);
              sent == old(sent) + e.items && failed == e.failed && (!failed ==> buffer.bytes == e.rest)
    {
      hide Decode;
      ghost var all := DecodeAll(buffer.bytes, typed);
      ghost var bytes := buffer.bytes;
      DecodeShrinks(buffer.bytes, typed);
      var item: Option<Item>;
      item, failed := DecodeNext();
      while item.Some?
        invariant var d := Decode(bytes, typed);
                  match d
                  case Got(i, rest) => item == Some(i) && !failed && buffer.bytes == rest && |rest| < |bytes|
                  case More => item == None && !failed && buffer.bytes == bytes
                  case Failed => item == None && failed
        invariant |old(sent)| <= |sent| && sent[..|old(sent)|] == old(sent)
        invariant all == Prefixed(sent[|old(sent)|..], DecodeAll(bytes, typed))
        decreases |bytes|
      {
        sent := sent + [item.value];
        bytes := buffer.bytes;
        DecodeShrinks(bytes, typed);
        item, failed := DecodeNext();
      }
    }

    /** `serve_loop`: `chunks` are what the successive reads return. */
    method ServeLoop(chunks: seq<Octets>) returns (failed: bool)
      modifies this`sent, buffer
      ensures var e := Serve(old(buffer.bytes), chunks, typed);
              sent == old(sent) + e.items && failed == e.failed && (!failed ==> buffer.bytes == e.rest)
    {
      hide DecodeAll;
      ghost var all := Serve(buffer.bytes, chunks, typed);
      failed := false;
      var i := 0;
      while i < |chunks|
        invariant 0 <= i <= |chunks| && !failed
        invariant |old(sent)| <= |sent| && sent[..|old(sent)|] == old(sent)
        invariant all == Prefixed(sent[|old(sent)|..], Serve(buffer.bytes, chunks[i..], typed))
      {
        assert chunks[i..][1..] == chunks[i + 1..];
        buffer.Extend(chunks[i]);
        failed := DecodeBuffered();
        if failed {
          return;
        }
        i := i + 1;
      }
    }
  }

  function Prefixed(items: seq<Item>, e: Emptied): Emptied {
    Emptied(items + e.items, e.rest, e.failed)
  }
}
