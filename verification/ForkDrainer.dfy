/**
 The drainer of the Accepted window (src/dialog/invitation.rs,
 src/dialog/invite_dialog.rs): the extra branches of a forked INVITE are ended,
 each by one BYE.
 */
module ForkDrainer {
  import opened Prelude
  import opened SipMessages

  /** A success of another branch than the confirmed one. */
  predicate IsFork(m: SipMessage, confirmedTag: string) {
    m.Resp? && Successful(m.response) && m.response.toTag.Some? && m.response.toTag.value != confirmedTag
  }

  function ForkTag(m: SipMessage): string {
    if m.Resp? && m.response.toTag.Some? then m.response.toTag.value else ""
  }

  /** A BYE to a branch, without its Via (its branch parameter is random). */
  datatype ByeRequest = ByeRequest(uri: string, callId: string, fromTag: Option<string>, toTag: Option<string>,
                                   cseq: nat, routes: seq<Hop>)

  /** To the success's Contact, along its Record-Route reversed (RFC 3261 section 12.2.1.1). */
  function ByeOf(r: Response, cseq: nat): ByeRequest
    requires r.contact.Some?
  {
    ByeRequest(r.contact.value.uri, r.ids.callId, r.ids.fromTag, r.toTag, cseq, Reverse(r.recordRoute))
  }

  /** The BYE is for the branch's dialog, goes to its Contact, and visits the proxies of its Record-Route,
      the one next to the caller first. */
  lemma ByeFollowsRecordRoute(r: Response, cseq: nat)
    requires r.contact.Some?
    ensures var bye, n := ByeOf(r, cseq), |r.recordRoute|;
            && bye.uri == r.contact.value.uri && bye.callId == r.ids.callId && bye.fromTag == r.ids.fromTag
            && bye.toTag == r.toTag && bye.cseq == cseq
            && |bye.routes| == n && forall i :: 0 <= i < n ==> bye.routes[i] == r.recordRoute[n - 1 - i]
  {
    forall i | 0 <= i < |r.recordRoute| ensures Reverse(r.recordRoute)[i] == r.recordRoute[|r.recordRoute| - 1 - i] {
      ReversedAt(r.recordRoute, i);
    }
    hide Reverse;
  }

  /** These branches, those whose success carries a Contact: the others cannot be reached. */
  function Reachable(forks: seq<Response>): seq<Response> {
    if forks == [] then []
    else
      var before := Reachable(forks[..|forks| - 1]);
      if forks[|forks| - 1].contact.Some? then before + [forks[|forks| - 1]] else before
  }

  /** One BYE for each of these branches, in order, with rising CSeq numbers. */
  ghost predicate Byes(sent: seq<ByeRequest>, forks: seq<Response>) {
    && |sent| == |forks|
    && (forall i :: 0 <= i < |sent| ==> forks[i].contact.Some? && sent[i] == ByeOf(forks[i], sent[i].cseq))
    && (forall i, j :: 0 <= i < j < |sent| ==> sent[i].cseq < sent[j].cseq)
  }

  /** `msgs[i]` is the first success with the To tag of a branch that was not confirmed. */
  ghost predicate FirstOfFork(msgs: seq<SipMessage>, i: nat, confirmedTag: string)
    requires i < |msgs|
  {
    IsFork(msgs[i], confirmedTag) &&
    forall k :: 0 <= k < i && IsFork(msgs[k], confirmedTag) ==> ForkTag(msgs[k]) != ForkTag(msgs[i])
  }

  /** The first success of each branch, in the order they came. */
  ghost function Forks(msgs: seq<SipMessage>, confirmedTag: string): seq<Response> {
    if msgs == [] then []
    else
      var n := |msgs| - 1;
      var before := Forks(msgs[..n], confirmedTag);
      if FirstOfFork(msgs, n, confirmedTag) then before + [msgs[n].response] else before
  }

  function Tags(forks: seq<Response>): seq<string> {
    seq(|forks|, i requires 0 <= i < |forks| => ForkTag(Resp(forks[i])))
  }

  class Drainer {
    const confirmedTag: string
    var seen: seq<string>
    var localSeq: nat
    var sent: seq<ByeRequest>
    /** The successes `seen` was filled from. */
    ghost var forks: seq<Response>

    /** `seen` are the tags of the branches met, each reachable one was sent its BYE. */
    ghost predicate Valid()
      reads this
    {
      && seen == Tags(forks)
      && Byes(sent, Reachable(forks))
      && (forall i :: 0 <= i < |sent| ==> sent[i].cseq <= localSeq)
    }

    constructor (confirmedTag: string, localSeq: nat)
      ensures Valid() && this.confirmedTag == confirmedTag && this.localSeq == localSeq
      ensures forks == [] && sent == []
    {
      this.confirmedTag := confirmedTag;
      this.localSeq := localSeq;
      seen, forks, sent := [], [], [];
    }

    /** `bye_forked_branch`: fails without a Contact, before a CSeq number is taken. */
    method ByeForkedBranch(r: Response) returns (ok: bool)
      modifies this`localSeq, this`sent
      ensures ok == r.contact.Some?
      ensures ok ==> localSeq == old(localSeq) + 1
      ensures ok ==> sent == old(sent) + [ByeOf(r, localSeq)]
      ensures !ok ==> localSeq == old(localSeq) && sent == old(sent)
    {
      if r.contact.None? {
        return false;
      }
      localSeq := localSeq + 1;
      sent := sent + [ByeOf(r, localSeq)];
      return true;
    }

    /** A success of a branch not met before is sent its BYE; everything else is let go. */
    method EndForkedBranch(msg: SipMessage)
      requires Valid()
      modifies this
      ensures Valid()
      ensures if IsFork(msg, confirmedTag) && ForkTag(msg) !in old(seen)
              then forks == old(forks) + [msg.response]
                   && localSeq == old(localSeq) + (if msg.response.contact.Some? then 1 else 0)
                   && sent == if msg.response.contact.Some? then old(sent) + [ByeOf(msg.response, localSeq)] else old(sent)
              else forks == old(forks) && localSeq == old(localSeq) && sent == old(sent)
    {
      hide Tags, Reachable, Byes;
      if msg.Req? {
        return;
      }
      var resp := msg.response;
      if !Successful(resp) {
        return;
      }
      if resp.toTag.None? {
        return;
      }
      var tag := resp.toTag.value;
      if tag == confirmedTag {
        return;
      }
      if tag in seen {
        return;
      }
      ByesGrow(sent, forks, resp, localSeq);
      OneMore(forks, resp);
      seen := seen + [tag];
      forks := forks + [resp];
      var ok := ByeForkedBranch(resp);
    }

    /** The loop of `do_invite`: `msgs` are what the transaction hands up until it ends.  Each branch
        other than the confirmed one is sent exactly one BYE, made from its first success. */
    method Drain(msgs: seq<SipMessage>)
      requires Valid() && forks == [] && sent == []
      modifies this
      ensures Valid() && forks == Forks(msgs, confirmedTag)
      ensures Byes(sent, Reachable(Forks(msgs, confirmedTag)))
    {
      var i := 0;
      while i < |msgs|
        invariant 0 <= i <= |msgs| && Valid()
        invariant forks == Forks(msgs[..i], confirmedTag)
      {
        TagsMet(msgs[..i], confirmedTag);
        assert msgs[..i + 1][..i] == msgs[..i];
        FirstIsNew(msgs[..i + 1], confirmedTag);
        EndForkedBranch(msgs[i]);
        i := i + 1;
      }
      assert msgs[..i] == msgs;
    }
  }

  /** One more branch. */
  lemma OneMore(forks: seq<Response>, r: Response)
    ensures Tags(forks + [r]) == Tags(forks) + [ForkTag(Resp(r))]
    ensures Reachable(forks + [r]) == if r.contact.Some? then Reachable(forks) + [r] else Reachable(forks)
  {
    assert (forks + [r])[..|forks|] == forks;
  }

  lemma ByesGrow(sent: seq<ByeRequest>, forks: seq<Response>, r: Response, localSeq: nat)
    requires Byes(sent, Reachable(forks)) && forall i :: 0 <= i < |sent| ==> sent[i].cseq <= localSeq
    ensures Byes(if r.contact.Some? then sent + [ByeOf(r, localSeq + 1)] else sent, Reachable(forks + [r]))
  {
    OneMore(forks, r);
    hide Reachable;
  }

  /** A tag was met exactly when a success of its branch came. */
  lemma {:induction false} TagsMet(msgs: seq<SipMessage>, confirmedTag: string)
    ensures forall tag :: tag in Tags(Forks(msgs, confirmedTag)) <==> Came(msgs, confirmedTag, tag)
  {
    if msgs != [] {
      var n := |msgs| - 1;
      TagsMet(msgs[..n], confirmedTag);
      OneMore(Forks(msgs[..n], confirmedTag), if msgs[n].Resp? then msgs[n].response else MakeResponse(msgs[n].request, 0));
      forall tag ensures Came(msgs, confirmedTag, tag) <==>
                         Came(msgs[..n], confirmedTag, tag) || (IsFork(msgs[n], confirmedTag) && ForkTag(msgs[n]) == tag)
      {
        CameNext(msgs, confirmedTag, tag);
      }
      hide Reachable, Tags, Came;
      FirstIsNew(msgs, confirmedTag);
    }
  }

  ghost predicate Came(msgs: seq<SipMessage>, confirmedTag: string, tag: string) {
    exists i :: 0 <= i < |msgs| && IsFork(msgs[i], confirmedTag) && ForkTag(msgs[i]) == tag
  }

  lemma CameNext(msgs: seq<SipMessage>, confirmedTag: string, tag: string)
    requires msgs != []
    ensures Came(msgs, confirmedTag, tag) <==>
            Came(msgs[..|msgs| - 1], confirmedTag, tag) || (IsFork(msgs[|msgs| - 1], confirmedTag) && ForkTag(msgs[|msgs| - 1]) == tag)
  {
    var n := |msgs| - 1;
    if Came(msgs[..n], confirmedTag, tag) {
      var i :| 0 <= i < n && IsFork(msgs[..n][i], confirmedTag) && ForkTag(msgs[..n][i]) == tag;
      assert msgs[i] == msgs[..n][i];
    }
    if Came(msgs, confirmedTag, tag) {
      var i :| 0 <= i < |msgs| && IsFork(msgs[i], confirmedTag) && ForkTag(msgs[i]) == tag;
      if i < n { assert msgs[..n][i] == msgs[i]; }
    }
  }

  lemma FirstIsNew(msgs: seq<SipMessage>, confirmedTag: string)
    requires msgs != []
    ensures var n := |msgs| - 1;
            FirstOfFork(msgs, n, confirmedTag) <==> IsFork(msgs[n], confirmedTag) && !Came(msgs[..n], confirmedTag, ForkTag(msgs[n]))
  {
    var n := |msgs| - 1;
    assert forall k :: 0 <= k < n ==> msgs[..n][k] == msgs[k];
  }

  /** No branch is met twice. */
  lemma {:induction false} TagsDistinct(msgs: seq<SipMessage>, confirmedTag: string)
    ensures Distinct(Tags(Forks(msgs, confirmedTag)))
  {
    if msgs != [] {
      var n := |msgs| - 1;
      TagsDistinct(msgs[..n], confirmedTag);
      TagsMet(msgs[..n], confirmedTag);
      FirstIsNew(msgs, confirmedTag);
      if FirstOfFork(msgs, n, confirmedTag) {
        OneMore(Forks(msgs[..n], confirmedTag), msgs[n].response);
        assert ForkTag(msgs[n]) !in Tags(Forks(msgs[..n], confirmedTag));
      }
      hide Tags, Came, Reachable;
    }
  }

  /** Among the reachable branches too. */
  lemma {:induction false} ReachableTags(forks: seq<Response>)
    requires Distinct(Tags(forks))
    ensures Distinct(Tags(Reachable(forks)))
    ensures forall tag :: tag in Tags(Reachable(forks)) ==> tag in Tags(forks)
  {
    if forks != [] {
      var n := |forks| - 1;
      assert forks == forks[..n] + [forks[n]];
      OneMore(forks[..n], forks[n]);
      OneMore(Reachable(forks[..n]), forks[n]);
      DistinctSplit(Tags(forks[..n]), ForkTag(Resp(forks[n])));
      ReachableTags(forks[..n]);
      hide Tags, Reachable;
      assert ForkTag(Resp(forks[n])) !in Tags(Reachable(forks[..n]));
    }
  }

  lemma DistinctSplit(s: seq<string>, x: string)
    requires Distinct(s + [x])
    ensures Distinct(s) && x !in s
  {
    var t := s + [x];
    assert forall i :: 0 <= i < |s| ==> t[i] == s[i];
    assert t[|s|] == x;
  }

  /** So no branch is sent two BYEs ... */
  lemma OneByePerBranch(sent: seq<ByeRequest>, msgs: seq<SipMessage>, confirmedTag: string)
    requires Byes(sent, Reachable(Forks(msgs, confirmedTag)))
    ensures forall i, j :: 0 <= i < j < |sent| ==> sent[i].toTag != sent[j].toTag
  {
    var forks := Reachable(Forks(msgs, confirmedTag));
    TagsDistinct(msgs, confirmedTag);
    ReachableTags(Forks(msgs, confirmedTag));
    forall i, j | 0 <= i < j < |sent| ensures sent[i].toTag != sent[j].toTag {
      assert Tags(forks)[i] != Tags(forks)[j];
      assert sent[i].toTag == forks[i].toTag && sent[j].toTag == forks[j].toTag;
    }
    hide Forks, Reachable;
  }

  /** ... and the first success of each branch that has a Contact is answered by one. */
  lemma EveryForkIsEnded(sent: seq<ByeRequest>, msgs: seq<SipMessage>, confirmedTag: string, i: nat)
    requires Byes(sent, Reachable(Forks(msgs, confirmedTag)))
    requires i < |msgs| && FirstOfFork(msgs, i, confirmedTag) && msgs[i].response.contact.Some?
    ensures exists k :: 0 <= k < |sent| && sent[k] == ByeOf(msgs[i].response, sent[k].cseq)
  {
    ReachesFork(msgs, confirmedTag, i);
    var k :| 0 <= k < |sent| && Reachable(Forks(msgs, confirmedTag))[k] == msgs[i].response;
    assert sent[k] == ByeOf(msgs[i].response, sent[k].cseq);
  }

  lemma {:induction false} ReachesFork(msgs: seq<SipMessage>, confirmedTag: string, i: nat)
    requires i < |msgs| && FirstOfFork(msgs, i, confirmedTag) && msgs[i].response.contact.Some?
    ensures msgs[i].response in Reachable(Forks(msgs, confirmedTag))
  {
    var n := |msgs| - 1;
    if FirstOfFork(msgs, n, confirmedTag) { OneMore(Forks(msgs[..n], confirmedTag), msgs[n].response); }
    if i < n {
      assert forall k :: 0 <= k < n ==> msgs[..n][k] == msgs[k];
      assert FirstOfFork(msgs[..n], i, confirmedTag);
      ReachesFork(msgs[..n], confirmedTag, i);
    }
    hide Reachable;
  }
}
