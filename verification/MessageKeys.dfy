/** Responses, ACKs and CANCELs land on the transaction of their request (src/transaction/key.rs, src/transaction/message.rs). */
module MessageKeys {
  import opened Prelude
  import opened SipMessages
  import opened TransactionKey
  import opened EndpointSpec

  /** A response made for a request is matched to the client transaction that sent it. */
  lemma ResponseFindsItsRequest(request: Request, code: nat)
    requires request.ids.fromTag.Some?
    ensures ResponseKey(MakeResponse(request, code), Client) == RequestKey(request, Client)
  {
    hide BuildKey;
  }

  /** At a server the ACK of a failure and the CANCEL of an INVITE have the INVITE's key. */
  lemma AckOfFailureFindsItsInvite(invite: Request, code: nat, branch: string)
    requires invite.verb == Invite && invite.ids.fromTag.Some? && !(200 <= code <= 299)
    ensures var ack := MakeAck(invite, MakeResponse(invite, code), branch);
            ack.Some? && RequestKey(ack.value, Server) == RequestKey(invite, Server)
    ensures RequestKey(invite.(verb := Cancel), Server) == RequestKey(invite, Server)
  {
    hide BuildKey;
  }

  /** Keys of different roles, methods or CSeq numbers differ, so no message crosses over. */
  lemma KeysKeepApart(a: Request, ra: Role, b: Request, rb: Role)
    requires a.ids.fromTag.Some? && b.ids.fromTag.Some? && RequestKey(a, ra) == RequestKey(b, rb)
    ensures ra == rb && a.ids.cseq == b.ids.cseq
    ensures a.verb == b.verb || (ra.Server? && a.verb in {Invite, Ack, Cancel} && b.verb in {Invite, Ack, Cancel})
  {
    var va := if (a.verb == Ack || a.verb == Cancel) && ra == Server then Invite else a.verb;
    var vb := if (b.verb == Ack || b.verb == Cancel) && rb == Server then Invite else b.verb;
    KeyDeterminesHead(ra, a.ids.via, va, a.ids.cseq, a.ids.fromTag.value, a.ids.callId,
                      rb, b.ids.via, vb, b.ids.cseq, b.ids.fromTag.value, b.ids.callId);
    hide BuildKey, AfterCSeq;
  }

  // ---- A key is its message's role, method, CSeq number, Call-ID, From tag and branch ------------------

  /** At a server ACK and CANCEL stand for their INVITE. */
  predicate SameGroup(a: Method, b: Method, role: Role) {
    a == b || (role.Server? && a in {Invite, Ack, Cancel} && b in {Invite, Ack, Cancel})
  }

  /** The same branch, or the same sender where there is none; a branch that looks like a sender may stand for it. */
  predicate SameBranch(v: Via, w: Via) {
    match (v.branch, w.branch)
    case (Some(b), Some(c)) => b == c
    case (None, None) => v.sentBy == w.sentBy
    case (Some(b), None) => b == w.sentBy + ".2543"
    case (None, Some(c)) => c == v.sentBy + ".2543"
  }

  lemma SameEnd(x: string, y: string, end: string)
    requires x + end == y + end
    ensures x == y
  {
    assert |x + end| == |y + end|;
    assert x == (x + end)[..|x|] && y == (y + end)[..|y|];
  }

  lemma SameStart(start: string, x: string, y: string)
    requires start + x == start + y
    ensures x == y
  {
    assert x == (start + x)[|start|..] && y == (start + y)[|start|..];
  }

  /** Call-IDs and From tags that are equal, or have no underscore: the text behind the CSeq number tells them. */
  lemma TextTells(v: Via, t: string, c: string, w: Via, u: string, d: string)
    requires (c == d && t == u) || (NoUnderscore(c) && NoUnderscore(d) && NoUnderscore(t) && NoUnderscore(u))
    ensures AfterCSeq(v, t, c) == AfterCSeq(w, u, d) <==> c == d && t == u && SameBranch(v, w)
  {
    var x := if v.branch.Some? then v.branch.value else v.sentBy + ".2543";
    var y := if w.branch.Some? then w.branch.value else w.sentBy + ".2543";
    assert AfterCSeq(v, t, c) == c + "_" + (t + "_" + x) && AfterCSeq(w, u, d) == d + "_" + (u + "_" + y);
    if AfterCSeq(v, t, c) == AfterCSeq(w, u, d) {
      if c == d && t == u {
        SameStart(c + "_" + t + "_", x, y);
      } else {
        FirstField(c, d, t + "_" + x, u + "_" + y);
        FirstField(t, u, x, y);
      }
      if v.branch.None? && w.branch.None? { SameEnd(v.sentBy, w.sentBy, ".2543"); }
    }
  }

  /** Two requests share a key exactly when all of these agree, as far as underscores do not blur the fields. */
  lemma SameKeyExactlyWhen(a: Request, ra: Role, b: Request, rb: Role)
    requires a.ids.fromTag.Some? && b.ids.fromTag.Some?
    requires (a.ids.callId == b.ids.callId && a.ids.fromTag == b.ids.fromTag)
             || (NoUnderscore(a.ids.callId) && NoUnderscore(b.ids.callId)
                 && NoUnderscore(a.ids.fromTag.value) && NoUnderscore(b.ids.fromTag.value))
    ensures RequestKey(a, ra) == RequestKey(b, rb)
            <==> ra == rb && SameGroup(a.verb, b.verb, ra) && a.ids.cseq == b.ids.cseq && a.ids.callId == b.ids.callId
                 && a.ids.fromTag == b.ids.fromTag && SameBranch(a.ids.via, b.ids.via)
  {
    var va := if (a.verb == Ack || a.verb == Cancel) && ra == Server then Invite else a.verb;
    var vb := if (b.verb == Ack || b.verb == Cancel) && rb == Server then Invite else b.verb;
    KeyShape(ra, a.ids.via, va, a.ids.cseq, a.ids.fromTag.value, a.ids.callId);
    KeyShape(rb, b.ids.via, vb, b.ids.cseq, b.ids.fromTag.value, b.ids.callId);
    TextTells(a.ids.via, a.ids.fromTag.value, a.ids.callId, b.ids.via, b.ids.fromTag.value, b.ids.callId);
    if RequestKey(a, ra) == RequestKey(b, rb) {
      KeyDeterminesHead(ra, a.ids.via, va, a.ids.cseq, a.ids.fromTag.value, a.ids.callId,
                        rb, b.ids.via, vb, b.ids.cseq, b.ids.fromTag.value, b.ids.callId);
    }
    hide BuildKey, AfterCSeq, SameBranch, KeyHead;
  }

  /** With underscores they do: a piece can move from the Call-ID to the From tag. */
  lemma UnderscoresBlur(r: Request, x: string, y: string, z: string, role: Role)
    ensures var a := r.(ids := r.ids.(callId := x + "_" + y, fromTag := Some(z)));
            var b := r.(ids := r.ids.(callId := x, fromTag := Some(y + "_" + z)));
            a != b && RequestKey(a, role) == RequestKey(b, role)
  {
    assert |x + "_" + y| > |x|;
    var verb := if (r.verb == Ack || r.verb == Cancel) && role == Server then Invite else r.verb;
    KeyShape(role, r.ids.via, verb, r.ids.cseq, z, x + "_" + y);
    KeyShape(role, r.ids.via, verb, r.ids.cseq, y + "_" + z, x);
    var end := if r.ids.via.branch.Some? then r.ids.via.branch.value else r.ids.via.sentBy + ".2543";
    assert AfterCSeq(r.ids.via, z, x + "_" + y) == x + "_" + y + "_" + z + "_" + end;
    assert AfterCSeq(r.ids.via, y + "_" + z, x) == x + "_" + (y + "_" + z) + "_" + end;
    assert x + "_" + y + "_" + z == x + "_" + (y + "_" + z);
    hide BuildKey;
  }
}
