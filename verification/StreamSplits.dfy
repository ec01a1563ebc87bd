/**
 The decoder's verdicts on any stream, well-formed or not: what it has taken or refused it takes or
 refuses whatever comes later, and so the reads may be cut as they like.
 */
module StreamSplits {
  import opened Prelude
  import opened Octets
  import opened MessageParser
  import opened SipCodec
  import opened Framing

  /** How much of `src` an item takes. */
  function Taken(src: Octets, o: Outcome): int { if o.Got? then |src| - |o.rest| else 0 }

  /** The decoder waits only while the buffer is within its bound. */
  lemma WaitsWithinBound(src: Octets, typed: Octets -> bool)
    requires Decode(src, typed).More?
    ensures |src| <= MAX_SIP_MESSAGE_SIZE && !StartsWith(src, CRLF)
  {
    Keepalives(src);
    hide FirstLength, FindBreak, Parse;
  }

  /** A message, once it can be taken, is taken whatever follows it. */
  lemma TakenStays(s: Octets, t: Octets, typed: Octets -> bool)
    requires Decode(s, typed).Got? && Decode(s, typed).item.Message?
    ensures Decode(s + t, typed) == Got(Decode(s, typed).item, Decode(s, typed).rest + t)
  {
    hide FirstLength, Parse;
    BreakInPrefix(s, t);
    var head := FindBreak(s, 0).value + 4;
    assert (s + t)[..head] == s[..head];
    Keepalives(s + t);
    Keepalives(s);
    hide FindBreak;
    var total := Taken(s, Decode(s, typed));
    assert (s + t)[..total] == s[..total];
    assert (s + t)[total..] == s[total..] + t;
  }

  /** So is a refusal, unless it was for the size of what had not arrived in full. */
  lemma RefusalStays(s: Octets, t: Octets, typed: Octets -> bool)
    requires Decode(s, typed).Failed? && |s| <= MAX_SIP_MESSAGE_SIZE
    ensures Decode(s + t, typed).Failed?
  {
    hide FirstLength, Parse;
    assert FindBreak(s, 0).Some?;
    BreakInPrefix(s, t);
    var head := FindBreak(s, 0).value + 4;
    assert (s + t)[..head] == s[..head];
    Keepalives(s + t);
    Keepalives(s);
    hide FindBreak;
    match FirstLength(s[..head], 0)
    case Bad =>
    case Absent => assert (s + t)[..head] == s[..head];
    case Given(n) => assert (s + t)[..head + n] == s[..head + n];
  }

  lemma BreakFits(s: Octets, t: Octets)
    requires FindBreak(s + t, 0).Some? && FindBreak(s + t, 0).value + 4 <= |s|
    ensures FindBreak(s, 0).Some?
  {
    var i := FindBreak(s + t, 0).value;
    assert s[i..i + 4] == (s + t)[i..i + 4];
    assert At(s, i, BREAK);
  }

  /** A message is not refused for its size before it is complete, if it is at most one octet over the bound. */
  lemma NotRefusedBefore(s: Octets, t: Octets, typed: Octets -> bool)
    requires Decode(s + t, typed).Got? && Decode(s + t, typed).item.Message?
    requires Taken(s + t, Decode(s + t, typed)) <= MAX_SIP_MESSAGE_SIZE + 1
    ensures Decode(s, typed).More? || (Decode(s, typed).Got? && Decode(s, typed).item.Message?)
  {
    hide FirstLength, Parse;
    Keepalives(s + t);
    Keepalives(s);
    BreakInPiece(s + t, |s|);
    if FindBreak(s + t, 0).value + 4 <= |s| { BreakFits(s, t); }
    assert (s + t)[..|s|] == s;
    var total := Taken(s + t, Decode(s + t, typed));
    if FindBreak(s, 0).Some? {
      var head := FindBreak(s, 0).value + 4;
      assert (s + t)[..head] == s[..head];
      if |s| >= total { assert (s + t)[..total] == s[..total]; }
    }
    hide FindBreak;
  }

  /** The stream holds messages within the bound, up to where it waits or fails; no keepalives. */
  ghost predicate Messages(src: Octets, typed: Octets -> bool)
    decreases |src|
  {
    DecodeShrinks(src, typed);
    var o := Decode(src, typed);
    o.Got? ==> o.item.Message? && Taken(src, o) <= MAX_SIP_MESSAGE_SIZE + 1 && Messages(o.rest, typed)
  }

  /** Decoding what is there first, and the rest with what comes, is decoding all of it. */
  lemma {:induction false} DecodedInTwo(s: Octets, t: Octets, typed: Octets -> bool)
    requires Messages(s + t, typed)
    ensures var first, all := DecodeAll(s, typed), DecodeAll(s + t, typed);
            if first.failed then all.failed && all.items == first.items
            else
              var second := DecodeAll(first.rest + t, typed);
              && Messages(first.rest + t, typed) && Decode(first.rest, typed).More?
              && all.items == first.items + second.items && all.failed == second.failed && all.rest == second.rest
    decreases |s|
  {
    DecodeShrinks(s, typed);
    hide Decode;
    match Decode(s, typed)
    case More =>
    case Failed => FailsAtOnce(s, t, typed);
    case Got(item, rest) =>
      GotIsMessage(s, t, typed);
      TakenStays(s, t, typed);
      DecodedInTwo(rest, t, typed);
  }

  lemma FailsAtOnce(s: Octets, t: Octets, typed: Octets -> bool)
    requires Messages(s + t, typed) && Decode(s, typed).Failed?
    ensures DecodeAll(s + t, typed).failed && DecodeAll(s + t, typed).items == []
  {
    var o := Decode(s + t, typed);
    if o.Got? { NotRefusedBefore(s, t, typed); }
    if o.More? { WaitsWithinBound(s + t, typed); RefusalStays(s, t, typed); }
    hide Decode;
  }

  lemma GotIsMessage(s: Octets, t: Octets, typed: Octets -> bool)
    requires Messages(s + t, typed) && Decode(s, typed).Got?
    ensures Decode(s, typed).item.Message?
  {
    Keepalives(s);
    Keepalives(s + t);
    hide FirstLength, FindBreak, Parse;
  }

  lemma WaitingDecodes(b: Octets, typed: Octets -> bool)
    requires Decode(b, typed).More?
    ensures DecodeAll(b, typed) == Emptied([], b, false)
  {
    hide Decode;
  }

  /** From a buffer that waits. */
  lemma {:induction false} SplitsDoNotMatter(b: Octets, chunks: seq<Octets>, typed: Octets -> bool)
    requires Decode(b, typed).More? && Messages(b + Concat(chunks), typed)
    ensures var cut, whole := Serve(b, chunks, typed), DecodeAll(b + Concat(chunks), typed);
            && cut.items == whole.items && cut.failed == whole.failed
            && (!whole.failed ==> cut.rest == whole.rest)
    decreases |chunks|
  {
    hide Decode, DecodeAll, Messages;
    if chunks == [] {
      assert b + Concat(chunks) == b;
      WaitingDecodes(b, typed);
    } else {
      var u := Concat(chunks[1..]);
      assert (b + chunks[0]) + u == b + Concat(chunks);
      DecodedInTwo(b + chunks[0], u, typed);
      var first := DecodeAll(b + chunks[0], typed);
      if !first.failed { SplitsDoNotMatter(first.rest, chunks[1..], typed); }
    }
  }

  lemma NothingWaits(typed: Octets -> bool)
    ensures Decode([], typed).More?
  {
    assert FindBreak([], 0).None?;
    Keepalives([]);
    hide Parse, FirstLength;
  }

  /** Any stream of messages, good or bad, in any reads: what comes out is what decoding it in one piece
      gives, and so is whether it fails. */
  lemma AnyReads(chunks: seq<Octets>, typed: Octets -> bool)
    requires Messages(Concat(chunks), typed)
    ensures var cut, whole := Serve([], chunks, typed), DecodeAll(Concat(chunks), typed);
            cut.items == whole.items && cut.failed == whole.failed && (!whole.failed ==> cut.rest == whole.rest)
  {
    NothingWaits(typed);
    assert [] + Concat(chunks) == Concat(chunks);
    SplitsDoNotMatter([], chunks, typed);
    hide Decode, DecodeAll, Messages;
  }

  lemma PrefixIsMessage(s: Octets, t: Octets, typed: Octets -> bool)
    requires Decode(s + t, typed).Got? && Decode(s + t, typed).item.Message? && Decode(s, typed).Got?
    ensures Decode(s, typed).item.Message?
  {
    Keepalives(s);
    Keepalives(s + t);
    hide FirstLength, FindBreak, Parse;
  }

  /** The bound is not one on messages: a larger one passes when it arrives in one read, and some cut makes
      the decoder refuse it. */
  lemma RefusedAtSomeCut(f: Octets, typed: Octets -> bool)
    requires Decode(f, typed).Got? && Decode(f, typed).item.Message? && Decode(f, typed).rest == []
    ensures (exists p :: 0 <= p <= |f| && Decode(f[..p], typed).Failed?) <==> |f| > MAX_SIP_MESSAGE_SIZE + 1
  {
    hide Decode;
    if |f| > MAX_SIP_MESSAGE_SIZE + 1 {
      var p := MAX_SIP_MESSAGE_SIZE + 1;
      assert f[..p] + f[p..] == f;
      if Decode(f[..p], typed).Got? {
        PrefixIsMessage(f[..p], f[p..], typed);
        TakenStays(f[..p], f[p..], typed);
      } else if Decode(f[..p], typed).More? {
        WaitsWithinBound(f[..p], typed);
      }
      assert Decode(f[..p], typed).Failed?;
    } else {
      forall p | 0 <= p <= |f| ensures !Decode(f[..p], typed).Failed? {
        assert f[..p] + f[p..] == f;
        NotRefusedBefore(f[..p], f[p..], typed);
      }
    }
  }
}
