/**
 The endpoint's shared tables as a value (src/transaction/endpoint.rs): live
 transactions, cached last messages with their cleanup timers, ACK routes, and
 the messages written to the network.
 */
module EndpointSpec {
  import opened Prelude
  import opened SipMessages
  import opened TransactionKey

  /** The eight `timer_x` fields of a transaction. */
  datatype Slot = A | B | C | D | K | G | L | M

  /** `span` is the delay the timer was armed with (read back for A and G only). */
  datatype TxTimer = TxTimer(slot: Slot, key: Key, span: nat) | Cleanup(key: Key)

  datatype EndpointOption = EndpointOption(t1: nat, t2: nat, t4: nat, t1x64: nat, timerC: nat, autoAck2xx: bool)

  /** `Udp` is the unreliable one; `Stream` is TCP, TLS or WebSocket. */
  datatype Conn = Udp | Stream | Channel

  predicate Reliable(c: Conn) { c != Udp }

  datatype TxEvent = Received(msg: SipMessage, conn: Option<Conn>)
                   | Fired(timer: TxTimer)
                   | Respond(response: Response)
                   | Terminate(key: Key)

  /** A pending timer. */
  datatype Shot = Shot(due: nat, span: nat)

  /** `cleanups` holds the deadlines of the pending TimerCleanup entries. */
  datatype Ep = Ep(
    opt: EndpointOption,
    cleanups: map<Key, nat>,
    table: set<Key>,
    finished: map<Key, SipMessage>,
    waitingAck: map<DialogId, Key>,
    waitingAckCseq: map<(DialogId, nat), Key>,
    wire: seq<SipMessage>)

  /** Hand `msg` to the transport; it is on the wire when the write succeeds. */
  function Write(ep: Ep, msg: SipMessage, sendOk: bool): Ep {
    if sendOk then ep.(wire := ep.wire + [msg]) else ep
  }

  function Detach(ep: Ep, key: Key, lastMessage: Option<SipMessage>, now: nat): Ep {
    var ep1 := ep.(table := ep.table - {key});
    if lastMessage.None? then ep1
    else ep1.(cleanups := ep1.cleanups[key := now + ep.opt.t1x64],
              finished := ep1.finished[key := lastMessage.value])
  }

  /** Drop `key`'s ACK routes for `dialog`, never another transaction's. */
  function ForgetWaitingAck(ep: Ep, dialog: DialogId, cseq: nat, key: Key): Ep {
    var byCseq := if (dialog, cseq) in ep.waitingAckCseq && ep.waitingAckCseq[(dialog, cseq)] == key
                  then ep.waitingAckCseq - {(dialog, cseq)} else ep.waitingAckCseq;
    var byDialog := if dialog in ep.waitingAck && ep.waitingAck[dialog] == key
                    then ep.waitingAck - {dialog} else ep.waitingAck;
    ep.(waitingAckCseq := byCseq, waitingAck := byDialog)
  }

  /** `process_timer` on a TimerCleanup. */
  function RunCleanup(ep: Ep, key: Key): Ep {
    ep.(cleanups := ep.cleanups - {key},
        table := ep.table - {key},
        finished := ep.finished - {key},
        waitingAck := map d | d in ep.waitingAck && ep.waitingAck[d] != key :: ep.waitingAck[d],
        waitingAckCseq := map d | d in ep.waitingAckCseq && ep.waitingAckCseq[d] != key :: ep.waitingAckCseq[d])
  }

  // ---- Incoming messages -------------------------------------------------

  /** What `on_received_message` does besides changing the tables. */
  datatype Action = Ignore
                  | Deliver(key: Key, event: TxEvent)
                  | NewServer(key: Key, request: Request)

  datatype Routed = Routed(ep: Ep, action: Action)

  /** The transaction a request is for: an ACK goes by dialog and CSeq number first. */
  function TargetKey(ep: Ep, r: Request): Option<Key> {
    var dialog := RequestDialog(r, Server);
    if r.verb == Ack && dialog.Some? && (dialog.value, r.ids.cseq) in ep.waitingAckCseq
    then Some(ep.waitingAckCseq[(dialog.value, r.ids.cseq)])
    else RequestKey(r, Server)
  }

  function RouteRequest(ep: Ep, r: Request, conn: Conn, sendOk: bool): Routed {
    var target := TargetKey(ep, r);
    if target.None? then Routed(ep, Ignore)
    else if target.value in ep.finished then
      if r.verb == Ack then
        var dialog := RequestDialog(r, Server);
        Routed(if dialog.Some? then ForgetWaitingAck(ep, dialog.value, r.ids.cseq, target.value) else ep, Ignore)
      else
        Routed(Write(ep, ep.finished[target.value], sendOk), Ignore)
    else if target.value in ep.table then
      Routed(ep, Deliver(target.value, Received(Req(r), Some(conn))))
    else if r.verb == Cancel then
      Routed(Write(ep, Resp(MakeResponse(r, 481)), sendOk), Ignore)
    else if r.verb == Ack then
      Routed(ep, Ignore)
    else
      Routed(ep, NewServer(target.value, r))
  }

  /** The cached ACK, addressed to the branch of the response it now answers. */
  function ReplayedAck(ack: Request, r: Response): Request {
    if r.toTag.Some? then ack.(toTag := r.toTag) else ack
  }

  function RouteResponse(ep: Ep, r: Response, conn: Conn, sendOk: bool): Routed {
    var target := ResponseKey(r, Client);
    if target.None? then Routed(ep, Ignore)
    else if target.value in ep.finished && !(Successful(r) && MultipleVias(r)) then
      var last := ep.finished[target.value];
      if last.Req? && last.request.verb == Ack && !Provisional(r)
      then Routed(Write(ep, Req(ReplayedAck(last.request, r)), sendOk), Ignore)
      else Routed(ep, Ignore)
    else if target.value in ep.table then
      Routed(ep, Deliver(target.value, Received(Resp(r), Some(conn))))
    else Routed(ep, Ignore)
  }

  function Route(ep: Ep, msg: SipMessage, conn: Conn, sendOk: bool): Routed {
    match msg
    case Req(r) => RouteRequest(ep, r, conn, sendOk)
    case Resp(r) => RouteResponse(ep, r, conn, sendOk)
  }
}
