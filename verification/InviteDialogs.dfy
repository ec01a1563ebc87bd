/** The methods of the INVITE dialog (src/dialog/invite_dialog.rs), as the source runs them. */
module InviteDialogs {
  import opened Prelude
  import opened SipMessages
  import opened EndpointSpec
  import opened EndpointInner
  import opened DialogLifecycle

  /** The steps `process_invite` takes over what its transaction hands up. */
  function InviteSteps(msgs: seq<SipMessage>, authSent: bool, credential: bool): seq<Step> {
    if msgs == [] then []
    else
      match msgs[0]
      case Req(_) => InviteSteps(msgs[1..], authSent, credential)
      case Resp(r) =>
        if r.code == 100 then [GotTrying] + InviteSteps(msgs[1..], authSent, credential)
        else if Provisional(r) then [GotProvisional(r)] + InviteSteps(msgs[1..], authSent, credential)
        else if r.code == 401 || r.code == 407 then
          if authSent || !credential then [AuthFails] else InviteSteps(msgs[1..], true, credential)
        else [GotFinal(r)]
  }

  /** A dialog in Calling notifies it once more when its INVITE is handled. */
  function Begun(d: Dlg, answered: bool): Dlg {
    if d.seen.state.Calling? then Next(Next(d, InviteFound), InviteStarts(answered)) else d
  }

  /** The steps of `handle_invite` over what its transaction hands up. */
  function HandleSteps(msgs: seq<SipMessage>, answer: Response, replyOk: bool): seq<Step> {
    if msgs == [] then []
    else if msgs[0].Req? && msgs[0].request.verb == Ack then [AckHandled(answer)]
    else if msgs[0].Req? && msgs[0].request.verb == Cancel then [CancelHandled(replyOk)]
    else HandleSteps(msgs[1..], answer, replyOk)
  }

  /** The ACK or the CANCEL that comes first. */
  function FirstWord(msgs: seq<SipMessage>): Option<Method> {
    if msgs == [] then None
    else if msgs[0].Req? && (msgs[0].request.verb == Ack || msgs[0].request.verb == Cancel) then Some(msgs[0].request.verb)
    else FirstWord(msgs[1..])
  }

  predicate IsAck(m: SipMessage) { m.Req? && m.request.verb == Ack }

  predicate Acked(msgs: seq<SipMessage>) { exists i :: 0 <= i < |msgs| && IsAck(msgs[i]) }

  /** How `handle_reinvite` ends, over what its transaction hands up: the session ends when a success
      stays without an ACK until its transaction ends. */
  function ReinviteEnd(msgs: seq<SipMessage>, answer: Response, txTerminated: bool): seq<Step> {
    if Acked(msgs) then [RequestEnds(answer)]
    else if Successful(answer) && txTerminated then [EndCall(Timeout)] else []
  }

  /** On every undisturbed run of a dialog, a re-INVITE that finds it confirmed and is handled while other
      tasks take the steps `between`: the session is over after it exactly when one of those ended it, or
      the re-INVITE was accepted and its transaction ended without an ACK.  If it goes on, an ACK
      confirms it, whatever those steps were. */
  lemma ReinviteOutcome(role: Role, es: seq<Step>, request: Request, between: seq<Step>,
                        msgs: seq<SipMessage>, answer: Response, txTerminated: bool)
    requires Possible(NewDialog(role), es) && AllUndisturbed(NewDialog(role), es)
    requires Follow(NewDialog(role), es).seen.state.Confirmed?
    requires var d := Next(Follow(NewDialog(role), es), RequestStarts(Updated(request)));
             Possible(d, between) && AllUndisturbed(d, between)
    ensures var d := Next(Follow(NewDialog(role), es), RequestStarts(Updated(request)));
            var before := Follow(d, between);
            var after := Follow(before, ReinviteEnd(msgs, answer, txTerminated));
            && (after.seen.state.Terminated? <==> EndedIn(d, between) || (Successful(answer) && txTerminated && !Acked(msgs)))
            && (EndedIn(d, between) ==> after.seen == before.seen && after.seen.state == Terminated(FirstEnd(d, between)))
            && (!EndedIn(d, between) && after.seen.state.Terminated? ==> after.seen.state == Terminated(Timeout))
            && (!after.seen.state.Terminated? ==> if Acked(msgs) then after.seen.state == Confirmed(answer)
                                                  else after == before && (after.seen.state.Confirmed? || after.seen.state.Message?))
  {
    hide Follow, Possible, AllUndisturbed, EndedIn, FirstEnd, Successful, Next, Established, CanCancel;
    ConfirmedIsEstablished(role, es);
    var d := Follow(NewDialog(role), es);
    ReinviteBegins(d, request);
    SessionEndsExactlyWhen(Next(d, RequestStarts(Updated(request))), between);
    ReinviteTail(Follow(Next(d, RequestStarts(Updated(request))), between), msgs, answer, txTerminated);
  }

  lemma ReinviteBegins(d: Dlg, request: Request)
    requires Established(d) && d.seen.state.Confirmed?
    ensures var d' := Next(d, RequestStarts(Updated(request))); Established(d') && d'.seen.state == d.seen.state
  {
    EstablishedStep(d, RequestStarts(Updated(request)));
  }

  /** The end of a re-INVITE, in whatever state it finds the established dialog. */
  lemma ReinviteTail(d: Dlg, msgs: seq<SipMessage>, answer: Response, txTerminated: bool)
    requires Established(d)
    ensures var after := Follow(d, ReinviteEnd(msgs, answer, txTerminated));
            && (after.seen.state.Terminated? <==> d.seen.state.Terminated? || (Successful(answer) && txTerminated && !Acked(msgs)))
            && (d.seen.state.Terminated? ==> after.seen == d.seen)
            && (!d.seen.state.Terminated? && after.seen.state.Terminated? ==> after.seen.state == Terminated(Timeout))
            && (!after.seen.state.Terminated? ==> if Acked(msgs) then after.seen.state == Confirmed(answer)
                                                  else after == d && (after.seen.state.Confirmed? || after.seen.state.Message?))
  {
    FollowCons(d, RequestEnds(answer), []);
    FollowCons(d, EndCall(Timeout), []);
    hide Successful, Acked;
  }

  lemma FollowCons(d: Dlg, e: Step, es: seq<Step>)
    ensures Follow(d, [e] + es) == Follow(Next(d, e), es) && Follow(d, [e]) == Next(d, e)
  {
    Cons(d, e, es);
    Cons(d, e, []);
    hide Next;
    assert [e] + [] == [e];
  }

  lemma NoStep(d: Dlg, authSent: bool, credential: bool)
    ensures Follow(d, InviteSteps([], authSent, credential)) == d
  {
  }

  /** The dialog after `m`, then after the rest of the steps. */
  function Continue(d: Dlg, m: SipMessage, rest: seq<SipMessage>, authSent: bool, credential: bool): Dlg {
    if m.Req? then Follow(d, InviteSteps(rest, authSent, credential))
    else
      var r := m.response;
      if r.code == 100 then Follow(Next(d, GotTrying), InviteSteps(rest, authSent, credential))
      else if Provisional(r) then Follow(Next(d, GotProvisional(r)), InviteSteps(rest, authSent, credential))
      else if r.code == 401 || r.code == 407 then
        if authSent || !credential then Next(d, AuthFails) else Follow(d, InviteSteps(rest, true, credential))
      else Next(d, GotFinal(r))
  }

  /** One message of `process_invite`. */
  lemma NextStep(d: Dlg, msgs: seq<SipMessage>, authSent: bool, credential: bool)
    requires msgs != []
    ensures Follow(d, InviteSteps(msgs, authSent, credential)) == Continue(d, msgs[0], msgs[1..], authSent, credential)
  {
    hide Next, Follow;
    if msgs[0].Resp? {
      var r := msgs[0].response;
      FollowCons(d, GotTrying, InviteSteps(msgs[1..], authSent, credential));
      FollowCons(d, GotProvisional(r), InviteSteps(msgs[1..], authSent, credential));
      FollowCons(d, AuthFails, []);
      FollowCons(d, GotFinal(r), []);
    }
  }

  class InviteDialog {
    const role: Role
    const inner: DialogInner
    const tuSender: Channel
    const credential: bool
    /** The calls that are between their two halves. */
    ghost var half: Halves
    ghost var acked: bool
    ghost var written: bool
    ghost var finished: bool
    ghost var handling: nat
    /** What the INVITE's transaction was told to answer. */
    var replied: seq<nat>

    ghost function View(): Dlg
      reads this, inner, tuSender
    {
      Dlg(role, inner.View(), tuSender.events, half, acked, written, finished, handling, replied)
    }

    constructor (role: Role, credential: bool)
      ensures View() == NewDialog(role) && this.role == role && this.credential == credential
      ensures fresh(inner) && fresh(tuSender)
    {
      this.role, this.credential := role, credential;
      inner := new DialogInner();
      tuSender := new Channel();
      half, acked, written, finished, handling, replied := Halves(0, 0, 0, 0), false, false, false, 0, [];
    }

    /** The first step of `ringing`: the guard, and the 180 to the transaction's queue. */
    method SendRinging(resp: Response) returns (sent: bool)
      modifies this`half, tuSender
      ensures View() == Next(old(View()), RingingSend(resp))
      ensures sent <==> role.Server? && CanCancel(inner.state)
    {
      if role.Client? || !CanCancel(inner.state) {
        return false;
      }
      tuSender.Send(Respond(resp));
      half := half.(ringing := half.ringing + 1);
      sent := true;
    }

    /** The second one, whatever ran in between. */
    method FinishRinging(resp: Response)
      requires half.ringing > 0
      modifies this`half, inner
      ensures View() == Next(old(View()), RingingState(resp))
    {
      half := half.(ringing := half.ringing - 1);
      inner.Transition(Early(resp));
    }

    method Ringing(resp: Response)
      modifies this`half, inner, tuSender
      ensures View() == if role.Client? || !CanCancel(old(inner.state)) then old(View())
                        else Next(Next(old(View()), RingingSend(resp)), RingingState(resp))
      ensures role.Server? && CanCancel(old(inner.state)) ==>
                tuSender.events == old(tuSender.events) + [Respond(resp)] && inner.state == Early(resp)
    {
      var sent := SendRinging(resp);
      if sent {
        FinishRinging(resp);
      }
    }

    /** The first step of `accept`: the 200 goes to the transaction's queue. */
    method SendAccept(resp: Response)
      requires role.Server?
      modifies this`half, tuSender
      ensures View() == Next(old(View()), AcceptSend(resp))
    {
      tuSender.Send(Respond(resp));
      half := half.(accepting := half.accepting + 1);
    }

    /** The second one, whatever ran in between. */
    method FinishAccept(resp: Response)
      requires half.accepting > 0
      modifies this`half, inner
      ensures View() == Next(old(View()), AcceptState(resp))
    {
      half := half.(accepting := half.accepting - 1);
      inner.Transition(WaitAck(resp));
    }

    method Accept(resp: Response)
      modifies this`half, inner, tuSender
      ensures View() == if role.Client? then old(View()) else Next(Next(old(View()), AcceptSend(resp)), AcceptState(resp))
      ensures role.Server? ==> tuSender.events == old(tuSender.events) + [Respond(resp)]
      ensures role.Server? && !old(inner.state).Confirmed? && !old(inner.state).Terminated? ==> inner.state == WaitAck(resp)
    {
      if role.Client? {
        return;
      }
      SendAccept(resp);
      FinishAccept(resp);
    }

    method Reject(resp: Response)
      modifies inner, tuSender
      ensures View() == Next(old(View()), RejectCall(resp))
      ensures if role.Server? && !old(inner.state).Confirmed? && !old(inner.state).Terminated?
              then tuSender.events == old(tuSender.events) + [Respond(resp)] && inner.state == Terminated(UasDecline)
              else tuSender.events == old(tuSender.events) && inner.state == old(inner.state)
    {
      if role.Client? {
        return;
      }
      if inner.state.Terminated? || inner.state.Confirmed? {
        return;
      }
      tuSender.Send(Respond(resp));
      inner.Transition(Terminated(UasDecline));
    }

    method OnTrying()
      modifies inner
      ensures View() == Next(old(View()), GotTrying)
    {
      inner.Transition(Trying);
    }

    method OnProvisional(r: Response)
      modifies inner
      ensures View() == Next(old(View()), GotProvisional(r))
    {
      inner.Transition(Early(r));
    }

    method OnAuthFails()
      modifies this`finished, inner
      ensures View() == Next(old(View()), AuthFails)
    {
      finished := true;
      inner.Transition(Terminated(ProxyAuthRequired));
    }

    method OnFinal(r: Response)
      modifies this`finished, inner
      ensures View() == Next(old(View()), GotFinal(r))
    {
      finished := true;
      if r.code == 200 {
        inner.Transition(Confirmed(r));
      } else {
        inner.Transition(Terminated(UasOther(r.code)));
      }
    }

    /** The receive loop of `process_invite`; `msgs` are what the transaction hands up. */
    method ProcessInvite(msgs: seq<SipMessage>) returns (finalResponse: Option<Response>)
      modifies this`finished, inner
      ensures View() == Follow(old(View()), InviteSteps(msgs, false, credential))
    {
      hide Next, Follow, Provisional, InviteSteps;
      ghost var end := Follow(View(), InviteSteps(msgs, false, credential));
      var authSent := false;
      finalResponse := None;
      var i := 0;
      assert msgs[0..] == msgs;
      while i < |msgs|
        invariant 0 <= i <= |msgs|
        invariant end == Follow(View(), InviteSteps(msgs[i..], authSent, credential))
      {
        assert msgs[i..][1..] == msgs[i + 1..] && msgs[i..][0] == msgs[i];
        NextStep(View(), msgs[i..], authSent, credential);
        if msgs[i].Resp? {
          var r := msgs[i].response;
          if r.code == 100 {
            OnTrying();
          } else if Provisional(r) {
            OnProvisional(r);
          } else if r.code == 401 || r.code == 407 {
            if authSent || !credential {
              finalResponse := Some(r);
              OnAuthFails();
              return;
            }
            authSent := true;
          } else {
            finalResponse := Some(r);
            OnFinal(r);
            return;
          }
        }
        i := i + 1;
      }
      assert msgs[i..] == [];
      NoStep(View(), authSent, credential);
    }

    /** The loop of `handle_invite`, and what follows it; `answer` is the transaction's last response, none
        at the start if not `answered`.  A CANCEL that cannot be answered ends it with an error. */
    method HandleInvite(msgs: seq<SipMessage>, answered: bool, answer: Response, replyOk: bool, txTerminated: bool) returns (ok: bool)
      modifies this`acked, this`half, this`replied, inner
      ensures ok == (replyOk || FirstWord(msgs) != Some(Cancel))
      ensures var d := Follow(Begun(old(View()), answered), HandleSteps(msgs, answer, replyOk));
              View() == if ok then Next(d, NoAck(txTerminated)) else d
    {
      hide Next, Follow, HandleSteps, Begun;
      OnInvite(answered);
      ok := HandleMessages(msgs, answer, replyOk);
      if ok {
        OnNoAck(txTerminated);
      }
    }

    /** The first half of the start of `handle_invite`: the dialog is in Calling. */
    method FindInvite() returns (calling: bool)
      modifies this`half
      ensures View() == Next(old(View()), InviteFound) && calling == inner.state.Calling?
    {
      calling := inner.state.Calling?;
      if calling {
        half := half.(starting := half.starting + 1);
      }
    }

    /** The second one, whatever ran in between. */
    method StartInvite(answered: bool)
      requires half.starting > 0
      modifies this`half, this`replied, inner
      ensures View() == Next(old(View()), InviteStarts(answered))
    {
      if !answered {
        replied := replied + [100];
      }
      half := half.(starting := half.starting - 1);
      inner.Transition(Calling);
    }

    method OnInvite(answered: bool)
      modifies this`half, this`replied, inner
      ensures View() == Begun(old(View()), answered)
    {
      var calling := FindInvite();
      if calling {
        StartInvite(answered);
      }
    }

    /** A provisional response to an in-dialog request (`send_dialog_request`), first half. */
    method FindProvisional(resp: Response) returns (early: bool)
      modifies this`half
      ensures View() == Next(old(View()), MidFound(resp)) && early == CanCancel(inner.state)
    {
      early := CanCancel(inner.state);
      if early {
        half := half.(provisional := half.provisional + 1);
      }
    }

    method StoreProvisional(resp: Response)
      requires half.provisional > 0
      modifies this`half, inner
      ensures View() == Next(old(View()), MidProvisional(resp))
    {
      half := half.(provisional := half.provisional - 1);
      inner.Transition(Early(resp));
    }

    /** Undisturbed, it never moves a dialog that is out of setup. */
    method OnMidProvisional(resp: Response)
      modifies this`half, inner
      ensures View() == if CanCancel(old(inner.state)) then Next(Next(old(View()), MidFound(resp)), MidProvisional(resp)) else old(View())
      ensures inner.state == if CanCancel(old(inner.state)) then Early(resp) else old(inner.state)
    {
      var early := FindProvisional(resp);
      if early {
        StoreProvisional(resp);
      }
    }

    method OnNoAck(txTerminated: bool)
      modifies inner
      ensures View() == Next(old(View()), NoAck(txTerminated))
    {
      EndSessionWithoutAck(inner.state.WaitAck?, txTerminated);
    }

    method HandleMessages(msgs: seq<SipMessage>, answer: Response, replyOk: bool) returns (ok: bool)
      modifies this`acked, this`replied, inner
      ensures View() == Follow(old(View()), HandleSteps(msgs, answer, replyOk))
      ensures ok == (replyOk || FirstWord(msgs) != Some(Cancel))
    {
      ghost var d := View();
      var i := 0;
      assert msgs[0..] == msgs;
      while i < |msgs|
        invariant 0 <= i <= |msgs| && View() == d
        invariant HandleSteps(msgs, answer, replyOk) == HandleSteps(msgs[i..], answer, replyOk)
        invariant FirstWord(msgs) == FirstWord(msgs[i..])
      {
        assert msgs[i..][1..] == msgs[i + 1..] && msgs[i..][0] == msgs[i];
        if msgs[i].Req? && msgs[i].request.verb == Ack {
          OneStep(d, AckHandled(answer));
          if inner.state.Terminated? {
            return true;
          }
          acked := true;
          inner.Transition(Confirmed(answer));
          return true;
        }
        if msgs[i].Req? && msgs[i].request.verb == Cancel {
          OneStep(d, CancelHandled(replyOk));
          replied := replied + [487];
          if !replyOk {
            return false;
          }
          inner.Transition(Terminated(UacCancel));
          return true;
        }
        i := i + 1;
      }
      assert msgs[i..] == [];
      return true;
    }

    method StartUpdate(request: Request)
      modifies this`handling, inner
      ensures View() == Next(old(View()), RequestStarts(Updated(request)))
    {
      handling := handling + 1;
      inner.Transition(Updated(request));
    }

    method OnReinviteAck(answer: Response)
      modifies this`handling, inner
      ensures View() == Next(old(View()), RequestEnds(answer))
    {
      handling := if handling > 0 then handling - 1 else 0;
      inner.Transition(Confirmed(answer));
    }

    method EndSessionWithoutAck(answered2xx: bool, txTerminated: bool)
      modifies inner
      ensures View() == if answered2xx && txTerminated then Next(old(View()), EndCall(Timeout)) else old(View())
    {
      if !answered2xx || !txTerminated || inner.state.Terminated? {
        return;
      }
      inner.Transition(Terminated(Timeout));
    }

    /** The rest of `handle_reinvite`, whatever ran in between. */
    method AwaitReinviteAck(msgs: seq<SipMessage>, answer: Response, txTerminated: bool)
      modifies this`handling, inner
      ensures View() == Follow(old(View()), ReinviteEnd(msgs, answer, txTerminated))
    {
      ghost var d := View();
      FollowCons(d, RequestEnds(answer), []);
      FollowCons(d, EndCall(Timeout), []);
      assert Follow(d, []) == d;
      hide Follow, Next;
      var answered2xx := Successful(answer);
      var acked := false;
      var i := 0;
      while i < |msgs|
        invariant 0 <= i <= |msgs|
        invariant !acked && View() == d
        invariant forall j :: 0 <= j < i ==> !IsAck(msgs[j])
      {
        if msgs[i].Req? && msgs[i].request.verb == Ack {
          assert IsAck(msgs[i]);
          OnReinviteAck(answer);
          acked := true;
          break;
        }
        i := i + 1;
      }
      EndSessionWithoutAck(answered2xx && !acked, txTerminated);
    }

    /** `handle_reinvite`, once the application has answered with `answer`. */
    method HandleReinvite(request: Request, msgs: seq<SipMessage>, answer: Response, txTerminated: bool)
      modifies this`handling, inner
      ensures View() == Follow(Next(old(View()), RequestStarts(Updated(request))), ReinviteEnd(msgs, answer, txTerminated))
    {
      hide Follow, Next, ReinviteEnd;
      StartUpdate(request);
      AwaitReinviteAck(msgs, answer, txTerminated);
    }

    lemma OneStep(d: Dlg, e: Step)
      ensures Follow(d, [e]) == Next(d, e)
    {
      assert [e][1..] == [];
    }
  }

  /** A dialog in Calling notifies it at the start, on either side, and a server's INVITE that was not
      answered yet is answered 100. */
  lemma CallingIsTold(d: Dlg, answered: bool)
    requires d.seen.state.Calling?
    ensures Begun(d, answered).seen == Observed(Calling, d.seen.notified + [Calling])
    ensures Begun(d, answered).replied == d.replied + (if answered then [] else [100]) && Begun(d, answered).half == d.half
    ensures Next(d, FirstWrite).seen == Observed(Calling, d.seen.notified + [Calling]) && Next(d, FirstWrite).written
  {
  }

  /** What becomes of a server dialog in `handle_invite`, whatever state its other tasks left it in and
      whatever the transaction hands up: an ACK confirms it; a CANCEL is answered 487 and ends it, if the
      answer can be sent; with neither, it ends as a timeout exactly when it waits for an ACK and the
      transaction has ended; an ended dialog stays as it is. */
  lemma {:induction false} InviteOutcome(d: Dlg, msgs: seq<SipMessage>, answer: Response, replyOk: bool, txTerminated: bool)
    ensures var m := Follow(d, HandleSteps(msgs, answer, replyOk));
            var after := if replyOk || FirstWord(msgs) != Some(Cancel) then Next(m, NoAck(txTerminated)) else m;
            && after.queue == d.queue
            && after.replied == d.replied + (if FirstWord(msgs) == Some(Cancel) then [487] else [])
            && after.seen.state ==
               if d.seen.state.Terminated? then d.seen.state
               else match FirstWord(msgs)
                    case Some(word) => if word == Ack then Confirmed(answer) else if replyOk then Terminated(UacCancel) else d.seen.state
                    case None => if d.seen.state.WaitAck? && txTerminated then Terminated(Timeout) else d.seen.state
    decreases |msgs|
  {
    hide Next, Follow;
    if msgs == [] {
      NoWord(d, txTerminated);
    } else if msgs[0].Req? && msgs[0].request.verb == Ack {
      FollowCons(d, AckHandled(answer), []);
      AckWord(d, answer, txTerminated);
    } else if msgs[0].Req? && msgs[0].request.verb == Cancel {
      FollowCons(d, CancelHandled(replyOk), []);
      CancelWord(d, replyOk, txTerminated);
    } else {
      InviteOutcome(d, msgs[1..], answer, replyOk, txTerminated);
    }
  }

  lemma NoWord(d: Dlg, txTerminated: bool)
    ensures Follow(d, []) == d
    ensures var after := Next(d, NoAck(txTerminated));
            && after.queue == d.queue && after.replied == d.replied
            && after.seen.state == if d.seen.state.WaitAck? && txTerminated then Terminated(Timeout) else d.seen.state
  {
  }

  lemma AckWord(d: Dlg, answer: Response, txTerminated: bool)
    ensures var after := Next(Next(d, AckHandled(answer)), NoAck(txTerminated));
            && after.queue == d.queue && after.replied == d.replied
            && after.seen.state == if d.seen.state.Terminated? then d.seen.state else Confirmed(answer)
  {
  }

  lemma CancelWord(d: Dlg, replyOk: bool, txTerminated: bool)
    ensures var m := Next(d, CancelHandled(replyOk));
            var after := if replyOk then Next(m, NoAck(txTerminated)) else m;
            && after.queue == d.queue && after.replied == d.replied + [487]
            && after.seen.state == if d.seen.state.Terminated? || !replyOk then d.seen.state else Terminated(UacCancel)
  {
  }

  /** However many messages the transaction hands up, `process_invite` ends the dialog's setup at
      the first final response that is not retried, and keeps the steps within their order. */
  lemma {:induction false} InviteStepsPossible(d: Dlg, msgs: seq<SipMessage>, authSent: bool, credential: bool)
    requires d.role.Client? && d.written && !d.finished
    ensures Possible(d, InviteSteps(msgs, authSent, credential))
    decreases |msgs|
  {
    hide Apply;
    if msgs != [] {
      match msgs[0]
      case Req(_) => InviteStepsPossible(d, msgs[1..], authSent, credential);
      case Resp(r) =>
        if r.code == 100 {
          InviteStepsPossible(Next(d, GotTrying), msgs[1..], authSent, credential);
        } else if Provisional(r) {
          InviteStepsPossible(Next(d, GotProvisional(r)), msgs[1..], authSent, credential);
        } else if r.code == 401 || r.code == 407 {
          if authSent || !credential {
          } else {
            InviteStepsPossible(d, msgs[1..], true, credential);
          }
        }
    }
  }

  /** The final response `process_invite` ends with: the first one it does not retry with credentials. */
  function FinalOf(msgs: seq<SipMessage>, authSent: bool, credential: bool): Option<Response> {
    if msgs == [] then None
    else if msgs[0].Req? || Provisional(msgs[0].response) then FinalOf(msgs[1..], authSent, credential)
    else if msgs[0].response.code == 401 || msgs[0].response.code == 407 then
      if authSent || !credential then Some(msgs[0].response) else FinalOf(msgs[1..], true, credential)
    else Some(msgs[0].response)
  }

  /** The state the provisional responses lead to. */
  function Progress(state: DialogState, msgs: seq<SipMessage>): DialogState
    decreases |msgs|
  {
    if msgs == [] then state
    else if msgs[0].Resp? && Provisional(msgs[0].response)
    then Progress(if msgs[0].response.code == 100 then Trying else Early(msgs[0].response), msgs[1..])
    else Progress(state, msgs[1..])
  }

  lemma SetupGoesOn(d: Dlg, r: Response)
    requires d.role.Client? && CanCancel(d.seen.state)
    ensures var n := Next(d, GotTrying); n.role.Client? && n.seen.state == Trying && n.finished == d.finished
    ensures var n := Next(d, GotProvisional(r)); n.role.Client? && n.seen.state == Early(r) && n.finished == d.finished
    ensures Next(d, AuthFails).seen.state == Terminated(ProxyAuthRequired) && Next(d, AuthFails).finished
    ensures Next(d, GotFinal(r)).seen.state == (if r.code == 200 then Confirmed(r) else Terminated(UasOther(r.code)))
    ensures Next(d, GotFinal(r)).finished
  {
  }

  /** What becomes of a client dialog in `process_invite`, whatever the transaction hands up: it follows the
      provisional responses until the first final one that is not retried, and is confirmed exactly when that is
      a 200.  Any other 2xx, which established a session too and was acknowledged, ends the dialog as a
      refusal does. */
  lemma {:induction false} ConfirmedExactlyWhen(d: Dlg, msgs: seq<SipMessage>, authSent: bool, credential: bool)
    requires d.role.Client? && CanCancel(d.seen.state) && !d.finished
    ensures var after := Follow(d, InviteSteps(msgs, authSent, credential));
            && after.finished == FinalOf(msgs, authSent, credential).Some?
            && after.seen.state == match FinalOf(msgs, authSent, credential)
                                   case None => Progress(d.seen.state, msgs)
                                   case Some(r) =>
                                     if r.code == 200 then Confirmed(r)
                                     else if r.code == 401 || r.code == 407 then Terminated(ProxyAuthRequired)
                                     else Terminated(UasOther(r.code))
    decreases |msgs|
  {
    hide Follow, InviteSteps, Next;
    if msgs == [] {
      NoStep(d, authSent, credential);
    } else {
      NextStep(d, msgs, authSent, credential);
      if msgs[0].Req? {
        ConfirmedExactlyWhen(d, msgs[1..], authSent, credential);
      } else {
        var r := msgs[0].response;
        SetupGoesOn(d, r);
        if r.code == 100 {
          ConfirmedExactlyWhen(Next(d, GotTrying), msgs[1..], authSent, credential);
        } else if Provisional(r) {
          ConfirmedExactlyWhen(Next(d, GotProvisional(r)), msgs[1..], authSent, credential);
        } else if (r.code == 401 || r.code == 407) && !authSent && credential {
          ConfirmedExactlyWhen(d, msgs[1..], true, credential);
        }
      }
    }
  }
}
