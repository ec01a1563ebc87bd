/**
 Framing does not depend on how the stream is cut into reads.
 */
module Framing {
  import opened Prelude
  import opened Octets
  import opened MessageParser
  import opened SipCodec

  // ---- Frames ---------------------------------------------------------------------------

  /** One whole message, as the decoder sees it: not a keepalive, a head, and as many
      octets below it as its Content-Length says. */
  ghost predicate Frame(f: Octets, typed: Octets -> bool) {
    && |f| <= MAX_SIP_MESSAGE_SIZE && !StartsWith(f, CRLF)
    && FindBreak(f, 0).Some?
    && Fits(FirstLength(f[..FindBreak(f, 0).value + 4], 0), |f| - (FindBreak(f, 0).value + 4))
    && Parse(f, typed).Some?
  }

  /** The announced length is the body's. */
  predicate Fits(length: Length, body: nat) {
    match length
    case Bad => false
    case Absent => body == 0
    case Given(n) => body == n
  }

  ghost function Concat(fs: seq<Octets>): Octets {
    if fs == [] then [] else fs[0] + Concat(fs[1..])
  }

  /** The messages in these frames. */
  ghost function Items(fs: seq<Octets>, typed: Octets -> bool): seq<Item> {
    if fs == [] then [] else [ItemOf(fs[0], typed)] + Items(fs[1..], typed)
  }

  ghost function ItemOf(f: Octets, typed: Octets -> bool): Item {
    var p := Parse(f, typed);
    Message(if p.Some? then p.value else Parsed([], [], []))
  }

  lemma Keepalives(s: Octets)
    ensures StartsWith(s, CRLF) <==> |s| >= 2 && s[0] == '\r' && s[1] == '\n'
    ensures StartsWith(s, BREAK) ==> StartsWith(s, CRLF)
  {
    if |s| >= 2 && s[0] == '\r' && s[1] == '\n' { assert s[..2] == CRLF; }
    if StartsWith(s, BREAK) { assert s[0] == BREAK[0] && s[1] == BREAK[1]; }
  }

  lemma FrameHead(f: Octets, typed: Octets -> bool)
    requires Frame(f, typed)
    ensures FindBreak(f, 0).Some? && 0 < FindBreak(f, 0).value + 4 <= |f|
  {
  }

  /** A frame at the front of the buffer comes out, whatever follows it. */
  lemma WholeFrame(f: Octets, rest: Octets, typed: Octets -> bool)
    requires Frame(f, typed)
    ensures Decode(f + rest, typed) == Got(ItemOf(f, typed), rest)
  {
    hide FirstLength, Parse;
    var src := f + rest;
    BreakInPrefix(f, rest);
    var head := FindBreak(f, 0).value + 4;
    assert src[..head] == f[..head];
    assert src[..|f|] == f && src[|f|..] == rest;
    Keepalives(src);
    Keepalives(f);
  }

  /** A piece of a frame waits for more. */
  lemma PartFrame(f: Octets, p: nat, typed: Octets -> bool)
    requires Frame(f, typed) && p < |f|
    ensures Decode(f[..p], typed) == More
  {
    hide FirstLength, Parse;
    var src := f[..p];
    BreakInPiece(f, p);
    if FindBreak(src, 0).Some? {
      var head := FindBreak(src, 0).value + 4;
      assert src[..head] == f[..head];
    }
    Keepalives(src);
    Keepalives(f);
  }

  lemma NothingThere(typed: Octets -> bool)
    ensures DecodeAll([], typed) == Emptied([], [], false)
  {
  }

  /** Decoding the buffer takes the whole frames in it and leaves a piece of the next. */
  lemma {:induction false} BufferedFrames(b: Octets, u: Octets, fs: seq<Octets>, typed: Octets -> bool) returns (m: nat)
    requires (forall i :: 0 <= i < |fs| ==> Frame(fs[i], typed)) && b + u == Concat(fs)
    ensures m <= |fs| && DecodeAll(b, typed).items == Items(fs[..m], typed) && !DecodeAll(b, typed).failed
    ensures DecodeAll(b, typed).rest + u == Concat(fs[m..])
    ensures if m == |fs| then DecodeAll(b, typed).rest == [] else |DecodeAll(b, typed).rest| < |fs[m]|
    decreases |fs|
  {
    hide Decode, Frame, Parse;
    if fs == [] {
      assert b == [];
      NothingThere(typed);
      m := 0;
    } else {
      var f, rest := fs[0], Concat(fs[1..]);
      assert b + u == f + rest;
      if |b| >= |f| {
        var b1 := b[|f|..];
        assert b == f + b1 by { assert (b + u)[..|f|] == f; }
        assert b1 + u == rest by { assert (b + u)[|f|..] == b1 + u; assert (f + rest)[|f|..] == rest; }
        WholeFrame(f, b1, typed);
        var k := BufferedFrames(b1, u, fs[1..], typed);
        m := k + 1;
        DecodedOne(f, b1, typed);
        assert fs[..m][1..] == fs[1..][..k] && fs[..m][0] == f;
        assert fs[1..][k..] == fs[m..];
      } else {
        assert b == f[..|b|] by { assert (b + u)[..|b|] == b; assert (f + rest)[..|b|] == f[..|b|]; }
        PartFrame(f, |b|, typed);
        DecodedNone(b, typed);
        m := 0;
      }
    }
  }

  lemma DecodedOne(f: Octets, rest: Octets, typed: Octets -> bool)
    requires Frame(f, typed) && Decode(f + rest, typed) == Got(ItemOf(f, typed), rest)
    ensures var e := DecodeAll(rest, typed);
            DecodeAll(f + rest, typed) == Emptied([ItemOf(f, typed)] + e.items, e.rest, e.failed)
  {
    hide Decode, Parse, Frame;
  }

  lemma DecodedNone(b: Octets, typed: Octets -> bool)
    requires Decode(b, typed) == More
    ensures DecodeAll(b, typed) == Emptied([], b, false)
  {
    hide Decode;
  }

  lemma {:induction false} ItemsJoin(fs: seq<Octets>, m: nat, typed: Octets -> bool)
    requires m <= |fs|
    ensures Items(fs, typed) == Items(fs[..m], typed) + Items(fs[m..], typed)
  {
    hide Frame, Parse;
    if m == 0 {
      assert fs[..0] == [] && fs[0..] == fs;
    } else {
      ItemsJoin(fs[1..], m - 1, typed);
      assert fs[1..][..m - 1] == fs[..m][1..] && fs[1..][m - 1..] == fs[m..] && fs[..m][0] == fs[0];
    }
  }

  lemma NoShorter(fs: seq<Octets>)
    ensures fs != [] ==> |Concat(fs)| >= |fs[0]|
  {
  }

  /** From a buffer that holds less than the next frame. */
  lemma {:induction false} ServedFrames(b: Octets, chunks: seq<Octets>, fs: seq<Octets>, typed: Octets -> bool)
    requires (forall i :: 0 <= i < |fs| ==> Frame(fs[i], typed)) && b + Concat(chunks) == Concat(fs)
    requires if fs == [] then b == [] else |b| < |fs[0]|
    ensures Serve(b, chunks, typed) == Emptied(Items(fs, typed), [], false)
    decreases |chunks|
  {
    hide DecodeAll, Frame;
    if chunks == [] {
      assert b + [] == b;
      NoShorter(fs);
    } else {
      var u := Concat(chunks[1..]);
      assert (b + chunks[0]) + u == b + Concat(chunks);
      var m := BufferedFrames(b + chunks[0], u, fs, typed);
      ItemsJoin(fs, m, typed);
      ServedFrames(DecodeAll(b + chunks[0], typed).rest, chunks[1..], fs[m..], typed);
    }
  }

  /** However the stream is cut into reads, the loop emits exactly the messages of the frames,
      in order, without error, and leaves nothing in the buffer. */
  lemma ChunkingDoesNotMatter(fs: seq<Octets>, chunks: seq<Octets>, typed: Octets -> bool)
    requires (forall i :: 0 <= i < |fs| ==> Frame(fs[i], typed)) && Concat(chunks) == Concat(fs)
    ensures Serve([], chunks, typed) == Emptied(Items(fs, typed), [], false)
  {
    assert [] + Concat(chunks) == Concat(chunks);
    if fs != [] { FrameHead(fs[0], typed); }
    hide Frame;
    ServedFrames([], chunks, fs, typed);
  }

  /** The parser cuts the body at the length its scan ends with. */
  lemma BodyByLength(f: Octets, typed: Octets -> bool)
    requires Frame(f, typed)
    ensures var sep := FindBreak(f, 0).value;
            var head := f[..sep];
            NextLine(head, 0).Some? &&
            (Parse(f, typed).value.body == f[sep + 4..] <==>
             HeaderScan(head, NextLine(head, 0).value.next).contentLength >= |f| - (sep + 4))
  {
    hide HeaderScan, FirstLength, NextLine;
  }

  // ---- Keepalives between frames (RFC 5626 section 4.4.1) ------------------------------------------------

  datatype Piece = Framed(f: Octets) | Ping | Pong

  function Text(p: Piece): Octets {
    match p case Framed(f) => f case Ping => BREAK case Pong => CRLF
  }

  ghost function PieceItem(p: Piece, typed: Octets -> bool): Item {
    match p case Framed(f) => ItemOf(f, typed) case Ping => KeepaliveRequest case Pong => KeepaliveResponse
  }

  ghost function AllText(ps: seq<Piece>): Octets {
    if ps == [] then [] else Text(ps[0]) + AllText(ps[1..])
  }

  ghost function AllItems(ps: seq<Piece>, typed: Octets -> bool): seq<Item> {
    if ps == [] then [] else [PieceItem(ps[0], typed)] + AllItems(ps[1..], typed)
  }

  /** Frames, and answers to keepalives that no other keepalive follows at once. */
  ghost predicate Separable(ps: seq<Piece>, typed: Octets -> bool) {
    forall i :: 0 <= i < |ps| ==>
      && (ps[i].Framed? ==> Frame(ps[i].f, typed))
      && (ps[i].Pong? && i + 1 < |ps| ==> ps[i + 1].Framed?)
  }

  /** What does not begin with CRLF does not make a keepalive of the CRLF before it. */
  lemma PongAlone(rest: Octets, typed: Octets -> bool)
    requires !StartsWith(rest, CRLF)
    ensures Decode(CRLF + rest, typed) == Got(KeepaliveResponse, rest)
  {
    var src := CRLF + rest;
    assert src[..2] == CRLF && src[2..] == rest;
    if StartsWith(src, BREAK) {
      assert src[2] == '\r' && src[3] == '\n';
      Keepalives(rest);
    }
    hide Parse, FirstLength, FindBreak;
  }

  lemma PingRead(rest: Octets, typed: Octets -> bool)
    ensures Decode(BREAK + rest, typed) == Got(KeepaliveRequest, rest)
  {
    var src := BREAK + rest;
    assert src[..4] == BREAK && src[4..] == rest;
    hide Parse, FirstLength, FindBreak;
  }

  lemma FrameStarts(f: Octets, rest: Octets, typed: Octets -> bool)
    requires Frame(f, typed)
    ensures !StartsWith(f + rest, CRLF)
  {
    Keepalives(f);
    Keepalives(f + rest);
    FrameHead(f, typed);
    hide Parse, FirstLength, FindBreak;
  }

  lemma NothingDecodes(typed: Octets -> bool)
    ensures DecodeAll([], typed) == Emptied([], [], false)
  {
    assert FindBreak([], 0).None?;
    Keepalives([]);
    hide Parse, FirstLength;
  }

  /** Messages, keepalive requests and their answers come out as what they are, in order. */
  lemma {:induction false} PiecesDecode(ps: seq<Piece>, typed: Octets -> bool)
    requires Separable(ps, typed)
    ensures DecodeAll(AllText(ps), typed) == Emptied(AllItems(ps, typed), [], false)
    decreases |ps|
  {
    hide Decode, Frame, Parse;
    if ps == [] {
      NothingDecodes(typed);
    } else {
      PiecesDecode(ps[1..], typed);
      var rest := AllText(ps[1..]);
      match ps[0]
      case Framed(f) => WholeFrame(f, rest, typed);
      case Ping => PingRead(rest, typed);
      case Pong =>
        if |ps| > 1 { FrameStarts(ps[1].f, AllText(ps[1..][1..]), typed); }
        PongAlone(rest, typed);
    }
  }
}
