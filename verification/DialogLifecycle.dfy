/**
 The INVITE dialog: its stored state and the notifications of it
 (src/dialog/dialog.rs), and the steps of the tasks that drive it
 (src/dialog/invite_dialog.rs).
 */
module DialogLifecycle {
  import opened Prelude
  import opened SipMessages
  import opened EndpointSpec

  datatype Reason = Timeout | UacCancel | UacBye | UasBye | UasDecline | ProxyAuthRequired | UasOther(code: nat)

  datatype DialogState =
    | Calling | Trying | Early(response: Response) | WaitAck(response: Response) | Confirmed(response: Response)
    | Updated(request: Request) | Publish(request: Request) | Notify(request: Request) | Refer(request: Request)
    | Message(request: Request) | Info(request: Request) | Options(request: Request)
    | Terminated(reason: Reason)

  predicate CanCancel(s: DialogState) { s.Calling? || s.Trying? || s.Early? }

  /** The in-dialog request events, which are only notified. */
  predicate IsEvent(s: DialogState) {
    s.Updated? || s.Notify? || s.Info? || s.Options? || s.Refer?
  }

  // ---- transition -----------------------------------------------------------------------

  /** The stored state, and what the observers were sent. */
  datatype Observed = Observed(state: DialogState, notified: seq<DialogState>)

  function Apply(o: Observed, s: DialogState): Observed {
    if o.state.Terminated? then o
    else if IsEvent(s) then o.(notified := o.notified + [s])
    else if o.state.Confirmed? && s.WaitAck? then o
    else Observed(s, o.notified + [s])
  }

  class DialogInner {
    var state: DialogState
    var notified: seq<DialogState>

    ghost function View(): Observed
      reads this
    {
      Observed(state, notified)
    }

    constructor ()
      ensures View() == Observed(Calling, [])
    {
      state, notified := Calling, [];
    }

    method Transition(s: DialogState)
      modifies this
      ensures View() == Apply(old(View()), s)
    {
      if state.Terminated? {
        return;
      }
      if s.Updated? || s.Notify? || s.Info? || s.Options? || s.Refer? {
        notified := notified + [s];
        return;
      }
      if state.Confirmed? && s.WaitAck? {
        return;
      }
      state := s;
      notified := notified + [s];
    }
  }

  function ApplyAll(o: Observed, ss: seq<DialogState>): Observed {
    if ss == [] then o else Apply(ApplyAll(o, ss[..|ss| - 1]), ss[|ss| - 1])
  }

  /** The state the notifications describe: the last one that is not an event. */
  function LastState(initial: DialogState, notified: seq<DialogState>): DialogState {
    if notified == [] then initial
    else if !IsEvent(notified[|notified| - 1]) then notified[|notified| - 1]
    else LastState(initial, notified[..|notified| - 1])
  }

  /** Terminated comes last, so at most once. */
  ghost predicate TerminatedIsLast(notified: seq<DialogState>) {
    forall i :: 0 <= i < |notified| - 1 ==> !notified[i].Terminated?
  }

  /** An event changes nothing but the notifications. */
  lemma EventsChangeNothing(o: Observed, s: DialogState)
    requires IsEvent(s)
    ensures Apply(o, s).state == o.state
    ensures Apply(o, s).notified == o.notified + if o.state.Terminated? then [] else [s]
  {
  }

  /** The stored state is the one last notified, and Terminated is notified at most once, as the last
      notification, exactly when the dialog is terminated. */
  ghost predicate Tells(initial: DialogState, o: Observed) {
    && o.state == LastState(initial, o.notified) && !IsEvent(o.state)
    && TerminatedIsLast(o.notified)
    && (o.state.Terminated? <==> o.notified != [] && o.notified[|o.notified| - 1].Terminated?)
  }

  lemma NothingTold(initial: DialogState)
    requires !initial.Terminated? && !IsEvent(initial)
    ensures Tells(initial, Observed(initial, []))
  {
  }

  lemma ApplyTells(initial: DialogState, o: Observed, s: DialogState)
    requires Tells(initial, o)
    ensures Tells(initial, Apply(o, s))
  {
    if IsEvent(s) { EventsChangeNothing(o, s); }
    assert (o.notified + [s])[..|o.notified|] == o.notified;
  }

  /** For every sequence of requested transitions, from a live dialog: the stored state is the one
      last notified, and Terminated is notified at most once, as the last notification, exactly
      when the dialog is terminated. */
  lemma {:induction false} NotificationsTellTheState(initial: DialogState, ss: seq<DialogState>)
    requires !initial.Terminated? && !IsEvent(initial)
    ensures Tells(initial, ApplyAll(Observed(initial, []), ss))
  {
    hide Tells;
    if ss == [] {
      NothingTold(initial);
    } else {
      NotificationsTellTheState(initial, ss[..|ss| - 1]);
      ApplyTells(initial, ApplyAll(Observed(initial, []), ss[..|ss| - 1]), ss[|ss| - 1]);
    }
  }

  // ---- The tasks ----------------------------------------------------------------------------

  /** A dialog and its tasks.  Four of its methods look at the state or send first and store a state
      later: `ringing`, `accept`, `handle_invite`, and the reading of a provisional response to an
      in-dialog request.  `half` counts the calls of each that are in between.  Further: whether an ACK
      was handled, whether the INVITE is on the wire, whether `process_invite` returned, the in-dialog
      requests being handled, the codes the INVITE's transaction was told to answer directly. */
  datatype Dlg = Dlg(role: Role, seen: Observed, queue: seq<TxEvent>, half: Halves, acked: bool,
                     written: bool, finished: bool, handling: nat, replied: seq<nat>)

  datatype Halves = Halves(ringing: nat, accepting: nat, starting: nat, provisional: nat)

  datatype Step =
    // the application of a server dialog
    | RingingSend(resp: Response) | RingingState(resp: Response) | AcceptSend(resp: Response) | AcceptState(resp: Response) | RejectCall(resp: Response)
    // the task of the server's INVITE transaction
    | InviteFound | InviteStarts(answered: bool) | AckHandled(resp: Response) | CancelHandled(replyOk: bool) | NoAck(txTerminated: bool)
    // the task of the client's INVITE transaction
    | FirstWrite | GotTrying | GotProvisional(resp: Response) | GotFinal(resp: Response) | AuthFails
    // later requests, in either direction
    | MidFound(resp: Response) | MidProvisional(resp: Response) | RequestStarts(event: DialogState) | RequestEnds(resp: Response) | ByeReceived
    | EndCall(reason: Reason)

  function Become(d: Dlg, s: DialogState): Dlg { d.(seen := Apply(d.seen, s)) }

  function Queue(d: Dlg, r: Response): Dlg { d.(queue := d.queue + [Respond(r)]) }

  function Next(d: Dlg, e: Step): Dlg {
    match e
    case RingingSend(r) =>
      if d.role.Client? || !CanCancel(d.seen.state) then d else Queue(d, r).(half := d.half.(ringing := d.half.ringing + 1))
    case RingingState(r) =>
      if d.half.ringing == 0 then d else Become(d.(half := d.half.(ringing := d.half.ringing - 1)), Early(r))
    case AcceptSend(r) =>
      if d.role.Client? then d else Queue(d, r).(half := d.half.(accepting := d.half.accepting + 1))
    case AcceptState(r) =>
      if d.half.accepting == 0 then d else Become(d.(half := d.half.(accepting := d.half.accepting - 1)), WaitAck(r))
    case RejectCall(r) =>
      if d.role.Client? || d.seen.state.Terminated? || d.seen.state.Confirmed? then d
      else Become(Queue(d, r), Terminated(UasDecline))
    case InviteFound => if d.seen.state.Calling? then d.(half := d.half.(starting := d.half.starting + 1)) else d
    case InviteStarts(answered) =>
      if d.half.starting == 0 then d
      else Become(d.(half := d.half.(starting := d.half.starting - 1), replied := d.replied + if answered then [] else [100]), Calling)
    case AckHandled(r) => if d.seen.state.Terminated? then d else Become(d.(acked := true), Confirmed(r))
    case CancelHandled(replyOk) =>
      var told := d.(replied := d.replied + [487]);
      if replyOk then Become(told, Terminated(UacCancel)) else told
    case NoAck(txTerminated) => if d.seen.state.WaitAck? && txTerminated then Become(d, Terminated(Timeout)) else d
    case FirstWrite => Become(d.(written := true), Calling)
    case GotTrying => Become(d, Trying)
    case GotProvisional(r) => Become(d, Early(r))
    case GotFinal(r) => Become(d.(finished := true), if r.code == 200 then Confirmed(r) else Terminated(UasOther(r.code)))
    case AuthFails => Become(d.(finished := true), Terminated(ProxyAuthRequired))
    case MidFound(r) =>
      if CanCancel(d.seen.state) then d.(half := d.half.(provisional := d.half.provisional + 1)) else d
    case MidProvisional(r) =>
      if d.half.provisional == 0 then d else Become(d.(half := d.half.(provisional := d.half.provisional - 1)), Early(r))
    case RequestStarts(event) => Become(d.(handling := d.handling + 1), event)
    case RequestEnds(r) => Become(d.(handling := if d.handling > 0 then d.handling - 1 else 0), Confirmed(r))
    case ByeReceived => Become(d, Terminated(if d.role.Server? then UacBye else UasBye))
    case EndCall(reason) => Become(d, Terminated(reason))
  }

  /** When each task takes its step: the transaction tasks by role, an ACK after the 2xx was queued,
      responses after a write and until the final one, in-dialog requests from a confirmed dialog. */
  predicate Enabled(d: Dlg, e: Step) {
    match e
    case RingingState(_) => d.half.ringing > 0
    case AcceptState(_) => d.half.accepting > 0
    case InviteFound => d.role.Server?
    case InviteStarts(_) => d.half.starting > 0
    case MidProvisional(_) => d.half.provisional > 0
    case AckHandled(_) => d.role.Server? && d.queue != []
    case CancelHandled(_) => d.role.Server?
    case NoAck(_) => d.role.Server?
    case FirstWrite => d.role.Client? && !d.written
    case GotTrying => d.role.Client? && d.written && !d.finished
    case GotProvisional(_) => d.role.Client? && d.written && !d.finished
    case GotFinal(_) => d.role.Client? && d.written && !d.finished
    case AuthFails => d.role.Client? && d.written && !d.finished
    case RequestStarts(event) => d.seen.state.Confirmed? && (IsEvent(event) || event.Message?)
    case RequestEnds(_) => d.handling > 0
    case _ => true
  }

  predicate Possible(d: Dlg, es: seq<Step>)
    decreases |es|
  {
    es != [] ==> Enabled(d, es[0]) && Possible(Next(d, es[0]), es[1..])
  }

  function Follow(d: Dlg, es: seq<Step>): Dlg
    decreases |es|
  {
    if es == [] then d else Follow(Next(d, es[0]), es[1..])
  }

  function NewDialog(role: Role): Dlg {
    Dlg(role, Observed(Calling, []), [], Halves(0, 0, 0, 0), false, false, false, 0, [])
  }

  // ---- Half-done calls --------------------------------------------------------------------------------

  /** The second half of a call that looked at a dialog in setup, and takes it for one still. */
  predicate SetupHalf(e: Step) { e.RingingState? || e.InviteStarts? || e.MidProvisional? }

  /** A second half finds the dialog as the first one left it: still in setup, and for `accept` with no
      MESSAGE being handled. */
  predicate Undisturbed(d: Dlg, e: Step) {
    && (SetupHalf(e) ==> CanCancel(d.seen.state) || d.seen.state.Terminated?)
    && (e.AcceptState? ==> !d.seen.state.Message?)
  }

  predicate AllUndisturbed(d: Dlg, es: seq<Step>)
    decreases |es|
  {
    es != [] ==> Undisturbed(d, es[0]) && AllUndisturbed(Next(d, es[0]), es[1..])
  }

  // ---- A client that may no longer cancel never may again -------------------------------------------

  /** Beyond setup the INVITE's task is over; no client waits for an ACK. */
  predicate ClientOk(d: Dlg) {
    && d.role.Client? && d.half.ringing == 0 && d.half.accepting == 0 && d.half.starting == 0
    && (!CanCancel(d.seen.state) ==> d.seen.state.Terminated? || (d.written && d.finished))
    && (d.handling > 0 ==> !CanCancel(d.seen.state))
    && (CanCancel(d.seen.state) || d.seen.state.Confirmed? || d.seen.state.Message? || d.seen.state.Terminated?)
  }

  lemma ClientStep(d: Dlg, e: Step)
    requires ClientOk(d) && Enabled(d, e) && Undisturbed(d, e)
    ensures ClientOk(Next(d, e))
    ensures !CanCancel(d.seen.state) ==> !CanCancel(Next(d, e).seen.state)
  {
  }

  lemma {:induction false} NeverCancellableAgain(d: Dlg, es: seq<Step>)
    requires ClientOk(d) && Possible(d, es) && AllUndisturbed(d, es)
    ensures ClientOk(Follow(d, es))
    ensures !CanCancel(d.seen.state) ==> !CanCancel(Follow(d, es).seen.state)
    decreases |es|
  {
    hide ClientOk, Enabled, Next, CanCancel, Undisturbed;
    if es != [] {
      ClientStep(d, es[0]);
      NeverCancellableAgain(Next(d, es[0]), es[1..]);
    }
  }

  /** Split anywhere: once a client dialog has left Calling, Trying and Early, it stays out, as long
      as no provisional response to an in-dialog request was read half before and half after that. */
  lemma ClientPhases(es: seq<Step>, later: seq<Step>)
    requires Possible(NewDialog(Client), es) && AllUndisturbed(NewDialog(Client), es)
    requires var d := Follow(NewDialog(Client), es); Possible(d, later) && AllUndisturbed(d, later)
    ensures var d := Follow(NewDialog(Client), es);
            !CanCancel(d.seen.state) ==> !CanCancel(Follow(d, later).seen.state)
  {
    NeverCancellableAgain(NewDialog(Client), es);
    NeverCancellableAgain(Follow(NewDialog(Client), es), later);
  }

  /** One step takes a dialog back to setup exactly when it is such a second half and the dialog lives. */
  lemma SetupReenteredExactlyWhen(d: Dlg, e: Step)
    requires (ClientOk(d) || ServerOk(d)) && Enabled(d, e) && !CanCancel(d.seen.state)
    ensures CanCancel(Next(d, e).seen.state) <==> SetupHalf(e) && !d.seen.state.Terminated?
  {
  }

  /** And it can happen: a 1xx to an in-dialog request of an early dialog, read while the 200 confirms it. */
  lemma ProvisionalUndoesConfirm(early: Response, ok: Response, mid: Response)
    requires ok.code == 200
    ensures var es := [FirstWrite, GotProvisional(early), MidFound(mid), GotFinal(ok), MidProvisional(mid)];
            && Possible(NewDialog(Client), es)
            && Follow(NewDialog(Client), es[..4]).seen.state == Confirmed(ok)
            && CanCancel(Follow(NewDialog(Client), es).seen.state)
  {
    var e1, e2, e3, e4, e5 := FirstWrite, GotProvisional(early), MidFound(mid), GotFinal(ok), MidProvisional(mid);
    assert [e1, e2, e3, e4, e5][..4] == [e1, e2, e3, e4];
    assert [e1, e2, e3, e4, e5] == [e1] + [e2, e3, e4, e5];
    FourSteps(NewDialog(Client), e1, e2, e3, e4);
    Cons(NewDialog(Client), e1, [e2, e3, e4, e5]);
    FourSteps(Next(NewDialog(Client), e1), e2, e3, e4, e5);
  }

  // ---- An acknowledged dialog stays acknowledged --------------------------------------------------------

  predicate ServerOk(d: Dlg) {
    && d.role.Server? && !d.seen.state.Publish? && !IsEvent(d.seen.state)
    && (d.acked ==> d.seen.state.Confirmed? || d.seen.state.Message? || d.seen.state.Terminated?)
    && (d.handling > 0 || d.seen.state.Message? || d.seen.state.Confirmed? ==> d.acked)
  }

  lemma ServerStep(d: Dlg, e: Step)
    requires ServerOk(d) && Enabled(d, e) && Undisturbed(d, e)
    ensures ServerOk(Next(d, e)) && (d.acked ==> Next(d, e).acked)
    ensures !CanCancel(d.seen.state) ==> !CanCancel(Next(d, e).seen.state)
  {
  }

  lemma {:induction false} ServerRun(d: Dlg, es: seq<Step>)
    requires ServerOk(d) && Possible(d, es) && AllUndisturbed(d, es)
    ensures ServerOk(Follow(d, es)) && (d.acked ==> Follow(d, es).acked)
    ensures !CanCancel(d.seen.state) ==> !CanCancel(Follow(d, es).seen.state)
    decreases |es|
  {
    hide ServerOk, Enabled, Next, Undisturbed, CanCancel;
    if es != [] {
      ServerStep(d, es[0]);
      ServerRun(Next(d, es[0]), es[1..]);
    }
  }

  /** Whatever the undisturbed interleaving of the steps of the application with the transaction and the
      ACK: once acknowledged, the dialog is never in WaitAck again, and once out of setup, it
      cannot be cancelled again. */
  lemma AcknowledgedStays(es: seq<Step>, later: seq<Step>)
    requires Possible(NewDialog(Server), es) && AllUndisturbed(NewDialog(Server), es)
    requires var d := Follow(NewDialog(Server), es); Possible(d, later) && AllUndisturbed(d, later)
    ensures var d, d' := Follow(NewDialog(Server), es), Follow(Follow(NewDialog(Server), es), later);
            && (d.acked ==> d'.seen.state.Confirmed? || d'.seen.state.Message? || d'.seen.state.Terminated?)
            && (!CanCancel(d.seen.state) ==> !CanCancel(d'.seen.state))
  {
    ServerRun(NewDialog(Server), es);
    ServerRun(Follow(NewDialog(Server), es), later);
  }

  /** One step undoes the ACK exactly when it is the late second half of an `accept` that meets a
      MESSAGE, whose state is stored while those of other in-dialog requests are not, or of a call
      that saw the dialog in setup. */
  lemma AckUndoneExactlyWhen(d: Dlg, e: Step)
    requires ServerOk(d) && d.acked && Enabled(d, e)
    ensures var s := Next(d, e).seen.state;
            !(s.Confirmed? || s.Message? || s.Terminated?)
            <==> (e.AcceptState? && d.seen.state.Message?) || (SetupHalf(e) && !d.seen.state.Terminated?)
  {
  }

  /** And it can happen: from `accept` ... */
  lemma MessageUndoesAck(r: Response, request: Request)
    ensures var es := [AcceptSend(r), AckHandled(r), RequestStarts(DialogState.Message(request)), AcceptState(r)];
            && Possible(NewDialog(Server), es)
            && Follow(NewDialog(Server), es).acked && Follow(NewDialog(Server), es).seen.state.WaitAck?
  {
    FourSteps(NewDialog(Server), AcceptSend(r), AckHandled(r), RequestStarts(DialogState.Message(request)), AcceptState(r));
  }

  /** ... and from `ringing`, whose late second half makes a confirmed dialog cancellable. */
  lemma RingingUndoesAck(ringing: Response, r: Response)
    ensures var es := [RingingSend(ringing), AcceptSend(r), AckHandled(r), RingingState(ringing)];
            && Possible(NewDialog(Server), es)
            && Follow(NewDialog(Server), es).acked && CanCancel(Follow(NewDialog(Server), es).seen.state)
  {
    FourSteps(NewDialog(Server), RingingSend(ringing), AcceptSend(r), AckHandled(r), RingingState(ringing));
  }

  // ---- What ends an established session -----------------------------------------------------------------

  /** A dialog on one of its runs, out of setup; a server's was acknowledged. */
  predicate Established(d: Dlg) {
    (ClientOk(d) || (ServerOk(d) && d.acked)) && !CanCancel(d.seen.state)
  }

  /** A BYE, the end of the call, and at a server a CANCEL handled late, or a `reject` while a MESSAGE is
      being handled, which its guard lets through. */
  predicate Ends(d: Dlg, e: Step) {
    e.ByeReceived? || e.EndCall? || (d.role.Server? && ((e.CancelHandled? && e.replyOk) || (e.RejectCall? && d.seen.state.Message?)))
  }

  /** What its observers are told then. */
  function ReasonOf(d: Dlg, e: Step): Reason {
    if e.ByeReceived? then (if d.role.Server? then UacBye else UasBye)
    else if e.EndCall? then e.reason
    else if e.CancelHandled? then UacCancel
    else UasDecline
  }

  /** The reason of the first of them. */
  function FirstEnd(d: Dlg, es: seq<Step>): Reason
    requires EndedIn(d, es)
    decreases |es|
  {
    if Ends(d, es[0]) then ReasonOf(d, es[0]) else FirstEnd(Next(d, es[0]), es[1..])
  }

  predicate EndedIn(d: Dlg, es: seq<Step>)
    decreases |es|
  {
    es != [] && (Ends(d, es[0]) || EndedIn(Next(d, es[0]), es[1..]))
  }

  lemma EstablishedStep(d: Dlg, e: Step)
    requires Established(d) && Enabled(d, e) && Undisturbed(d, e)
    ensures Established(Next(d, e))
    ensures Next(d, e).seen.state.Terminated? <==> d.seen.state.Terminated? || Ends(d, e)
    ensures d.seen.state.Terminated? ==> Next(d, e).seen == d.seen
    ensures !d.seen.state.Terminated? && Ends(d, e) ==> Next(d, e).seen.state == Terminated(ReasonOf(d, e))
  {
  }

  /** Over any undisturbed interleaving, these steps end an established session, and no others; the first
      of them gives the reason. */
  lemma {:induction false} SessionEndsExactlyWhen(d: Dlg, es: seq<Step>)
    requires Established(d) && Possible(d, es) && AllUndisturbed(d, es)
    ensures Established(Follow(d, es))
    ensures Follow(d, es).seen.state.Terminated? <==> d.seen.state.Terminated? || EndedIn(d, es)
    ensures d.seen.state.Terminated? ==> Follow(d, es).seen == d.seen
    ensures !d.seen.state.Terminated? && EndedIn(d, es) ==> Follow(d, es).seen.state == Terminated(FirstEnd(d, es))
    decreases |es|
  {
    hide Established, Ends, Enabled, Next, Undisturbed, ReasonOf;
    if es != [] {
      EstablishedStep(d, es[0]);
      SessionEndsExactlyWhen(Next(d, es[0]), es[1..]);
    }
  }

  /** An in-dialog request of an established dialog, with any steps of the other tasks while it is handled:
      observers are told of it, a MESSAGE is the dialog's state meanwhile, and after it the dialog is
      confirmed again, unless it ended. */
  lemma RequestOutcome(d: Dlg, event: DialogState, between: seq<Step>, r: Response)
    requires Established(d) && d.seen.state.Confirmed? && (IsEvent(event) || event.Message?)
    requires Possible(Next(d, RequestStarts(event)), between) && AllUndisturbed(Next(d, RequestStarts(event)), between)
    ensures var d1 := Next(d, RequestStarts(event));
            var before := Follow(d1, between);
            && d1.seen == Observed(if IsEvent(event) then d.seen.state else event, d.seen.notified + [event])
            && Next(before, RequestEnds(r)).seen.state == if EndedIn(d1, between) then Terminated(FirstEnd(d1, between)) else Confirmed(r)
  {
    hide Follow, Possible, AllUndisturbed, EndedIn, FirstEnd, Established;
    EstablishedStep(d, RequestStarts(event));
    SessionEndsExactlyWhen(Next(d, RequestStarts(event)), between);
  }

  // ---- What the INVITE's transaction is told to send --------------------------------------------------------

  /** A ringing in setup, every acceptance and a refusal of a call neither confirmed nor ended, of a server. */
  function ToSend(d: Dlg, e: Step): seq<TxEvent> {
    if d.role.Client? then []
    else if e.RingingSend? && CanCancel(d.seen.state) then [Respond(e.resp)]
    else if e.AcceptSend? then [Respond(e.resp)]
    else if e.RejectCall? && !d.seen.state.Confirmed? && !d.seen.state.Terminated? then [Respond(e.resp)]
    else []
  }

  function ToSendIn(d: Dlg, es: seq<Step>): seq<TxEvent>
    decreases |es|
  {
    if es == [] then [] else ToSend(d, es[0]) + ToSendIn(Next(d, es[0]), es[1..])
  }

  lemma StepQueues(d: Dlg, e: Step)
    ensures Next(d, e).queue == d.queue + ToSend(d, e)
  {
  }

  /** Over any steps whatever, the queue of the INVITE's transaction grows by just these responses. */
  lemma {:induction false} QueueHoldsWhatWasAsked(d: Dlg, es: seq<Step>)
    ensures Follow(d, es).queue == d.queue + ToSendIn(d, es)
    decreases |es|
  {
    hide Next, ToSend;
    if es != [] {
      StepQueues(d, es[0]);
      QueueHoldsWhatWasAsked(Next(d, es[0]), es[1..]);
    }
  }

  /** A confirmed dialog is established, on every undisturbed run. */
  lemma ConfirmedIsEstablished(role: Role, es: seq<Step>)
    requires Possible(NewDialog(role), es) && AllUndisturbed(NewDialog(role), es)
    requires Follow(NewDialog(role), es).seen.state.Confirmed?
    ensures Established(Follow(NewDialog(role), es))
  {
    match role
    case Client => NeverCancellableAgain(NewDialog(Client), es);
    case Server => ServerRun(NewDialog(Server), es);
  }

  lemma Cons(d: Dlg, e: Step, es: seq<Step>)
    ensures Follow(d, [e] + es) == Follow(Next(d, e), es)
    ensures Possible(d, [e] + es) <==> Enabled(d, e) && Possible(Next(d, e), es)
  {
    hide Next, Enabled;
    assert ([e] + es)[1..] == es && ([e] + es)[0] == e;
  }

  lemma FourSteps(d0: Dlg, e1: Step, e2: Step, e3: Step, e4: Step)
    ensures var d1 := Next(d0, e1); var d2 := Next(d1, e2); var d3 := Next(d2, e3);
            && Follow(d0, [e1, e2, e3, e4]) == Next(d3, e4)
            && (Possible(d0, [e1, e2, e3, e4]) <==> Enabled(d0, e1) && Enabled(d1, e2) && Enabled(d2, e3) && Enabled(d3, e4))
  {
    hide Next, Enabled;
    assert [e1, e2, e3, e4] == [e1] + ([e2] + ([e3] + ([e4] + [])));
    var d1 := Next(d0, e1);
    var d2 := Next(d1, e2);
    Cons(d0, e1, [e2] + ([e3] + ([e4] + [])));
    Cons(d1, e2, [e3] + ([e4] + []));
    Cons(d2, e3, [e4] + []);
    Cons(Next(d2, e3), e4, []);
  }
}
