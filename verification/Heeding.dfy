/**
 Which responses a client transaction hands to its user: all it handles, but a
 100 after a later provisional one, and a provisional one that repeats the last.
 */
module Heeding {
  import opened Prelude
  import opened SipMessages
  import opened TransactionKey
  import opened EndpointSpec
  import opened TransactionSpec
  import opened TransactionSanity
  import opened TransactionInvariant
  import opened TransactionHandlers
  import opened NeverStuck
  import opened TableSteps
  import opened StateOrder
  import opened LocalEvents
  import opened System
  import opened SystemSteps
  import opened RunTheorems
  import opened ClientStory
  import opened AckRuns

  // ---- One response -------------------------------------------------------------------------

  /** `r` says what the last response said already, in the state that one led to. */
  predicate Repeats(tx: Tx, r: Response) {
    && tx.lastResponse.Some? && tx.lastResponse.value.code == r.code && tx.lastResponse.value.body == r.body
    && (if r.code == 100 then tx.state.Trying? else tx.state.Proceeding?)
  }

  /** A client that waits for its final response hands up every response but a 100 in Proceeding, which is
      too late, and a provisional one that repeats the last; those two leave it as it was, and any
      other is the last one from then on. */
  lemma HandsUpExactlyWhen(s: TE, r: Response, conn: Option<Conn>, env: Env)
    requires IsClient(s.tx.kind) && (s.tx.state.Calling? || s.tx.state.Trying? || s.tx.state.Proceeding?) && !s.tx.cleanedUp
    ensures var h, dropped := OnResponse(s, r, conn, env), Provisional(r) && ((r.code == 100 && s.tx.state.Proceeding?) || Repeats(s.tx, r));
            && h.up == (if dropped then None else Some(Resp(r)))
            && (dropped ==> h.s == s)
            && (!dropped ==> h.s.tx.lastResponse == Some(r))
            && (!dropped && Provisional(r) ==> h.s.tx.state == if r.code == 100 then Trying else Proceeding)
            && (!Provisional(r) ==> h.s.tx.state.Terminated? || (h.s.tx.state.Accepted? && Successful(r)) || h.s.tx.state.Completed?)
  {
    hide OnResponse, Repeats;
    if Provisional(r) { ProvisionalUp(s, r, conn, env); } else { FinalUp(s, r, conn, env); }
  }

  lemma ProvisionalUp(s: TE, r: Response, conn: Option<Conn>, env: Env)
    requires IsClient(s.tx.kind) && (s.tx.state.Calling? || s.tx.state.Trying? || s.tx.state.Proceeding?) && Provisional(r)
    ensures var h, dropped := OnResponse(s, r, conn, env), (r.code == 100 && s.tx.state.Proceeding?) || Repeats(s.tx, r);
            if dropped then h == Handled(s, None)
            else h.up == Some(Resp(r)) && h.s.tx.lastResponse == Some(r) && h.s.tx.state == if r.code == 100 then Trying else Proceeding
  {
    hide Transition, SendAck;
    TransitionFacts(s.(tx := s.tx.(lastResponse := Some(r))), ResponseState(s.tx.kind, r, s.ep.opt), env);
  }

  lemma FinalUp(s: TE, r: Response, conn: Option<Conn>, env: Env)
    requires IsClient(s.tx.kind) && (s.tx.state.Calling? || s.tx.state.Trying? || s.tx.state.Proceeding?) && !s.tx.cleanedUp && !Provisional(r)
    ensures var h := OnResponse(s, r, conn, env);
            && h.up == Some(Resp(r)) && h.s.tx.lastResponse == Some(r)
            && (h.s.tx.state.Terminated? || (h.s.tx.state.Accepted? && Successful(r)) || h.s.tx.state.Completed?)
  {
    hide Transition, SendAck, LastMessage, Detach;
    var target := ResponseState(s.tx.kind, r, s.ep.opt);
    var s0 := s.(tx := s.tx.(lastResponse := Some(r)));
    if s.tx.kind.ClientInvite? && Successful(r) && MultipleVias(r) {
      TransitionFacts(s, Accepted, env);
    } else if target.Terminated? {
      TransitionEnds(s0, env);
    } else {
      TransitionFacts(s0, target, env);
      SendAckKeepsLast(Transition(s0, target, env).s, conn, env);
      SendAckForward(Transition(s0, target, env).s, conn, env);
    }
  }

  lemma SendAckKeepsLast(s: TE, conn: Option<Conn>, env: Env)
    requires !s.tx.cleanedUp
    ensures SendAck(s, conn, env).s.tx.lastResponse == s.tx.lastResponse || !s.tx.kind.ClientInvite?
  {
    hide Transition, ChooseAck;
    var chosen := ChooseAck(s.tx, env.branch);
    if s.tx.state.Completed? && chosen.Some? {
      TransitionEnds(PutAck(s, chosen.value, conn, env), env);
      hide LastMessage, Detach;
    }
  }

  // ---- A sequence of responses, without a state machine ---------------------------------------------

  /** Whether a client that told its user `told` tells it `r` too: while provisional, all but a 100 after
      another one and a repetition of the last; after a success, other successes of an INVITE. */
  predicate Heeds(kind: TxType, told: seq<Response>, r: Response) {
    if told == [] then true
    else
      var last := told[|told| - 1];
      if Provisional(last) then
        !(Provisional(r) && ((r.code == 100 && last.code != 100) || (r.code == last.code && r.body == last.body)))
      else kind.ClientInvite? && Successful(r)
  }

  /** What is told of these responses. */
  function Heeded(kind: TxType, rs: seq<Response>): seq<Response> {
    if rs == [] then []
    else
      var told := Heeded(kind, rs[..|rs| - 1]);
      if Heeds(kind, told, rs[|rs| - 1]) then told + [rs[|rs| - 1]] else told
  }

  function Messages(rs: seq<Response>): seq<SipMessage> {
    seq(|rs|, i requires 0 <= i < |rs| => Resp(rs[i]))
  }

  lemma HeededOneMore(kind: TxType, rs: seq<Response>, r: Response)
    ensures Heeded(kind, rs + [r]) == if Heeds(kind, Heeded(kind, rs), r) then Heeded(kind, rs) + [r] else Heeded(kind, rs)
  {
    assert (rs + [r])[..|rs|] == rs;
  }

  // ---- The transaction against it --------------------------------------------------------------------

  /** The transaction remembers what was told: the last response, and in its state what kind it was. */
  predicate Remembers(tx: Tx, told: seq<Response>) {
    && tx.log.delivered == Messages(told)
    && if told == [] then (tx.state.Nothing? || tx.state.Calling?) && tx.lastResponse.None?
       else
         var last := told[|told| - 1];
         && tx.lastResponse == Some(last)
         && tx.state == (if Provisional(last) then (if last.code == 100 then Trying else Proceeding) else Accepted)
         && (!Provisional(last) ==> Successful(last))
  }

  /** A client that has not ended. */
  predicate Live(tx: Tx) {
    && IsClient(tx.kind) && !tx.cleanedUp && !tx.state.Completed? && !tx.state.Confirmed? && !tx.state.Terminated?
    && (tx.state.Accepted? ==> tx.kind.ClientInvite?)
  }

  lemma OneMoreMessage(told: seq<Response>, r: Response)
    ensures Messages(told + [r]) == Messages(told) + [Resp(r)]
  {
  }

  /** A response in setup. */
  lemma SetupHeeds(s: TE, told: seq<Response>, r: Response, conn: Option<Conn>, env: Env)
    requires Live(s.tx) && Remembers(s.tx, told) && !s.tx.state.Nothing? && !s.tx.state.Accepted?
    requires var t := OnResponse(s, r, conn, env).s.tx; !t.state.Terminated? && !t.state.Completed?
    ensures var h := OnResponse(s, r, conn, env);
            && h.up == (if Heeds(s.tx.kind, told, r) then Some(Resp(r)) else None)
            && Remembers(h.s.tx.(log := h.s.tx.log.(delivered := Messages(if h.up.Some? then told + [r] else told))),
                         if h.up.Some? then told + [r] else told)
  {
    HandsUpExactlyWhen(s, r, conn, env);
    hide OnResponse;
  }

  /** A response in Accepted. */
  lemma AcceptedHeeds(s: TE, told: seq<Response>, r: Response, conn: Option<Conn>, env: Env)
    requires Live(s.tx) && Remembers(s.tx, told) && s.tx.state.Accepted? && told != [] && Successful(told[|told| - 1])
    requires !OnResponse(s, r, conn, env).s.tx.state.Terminated?
    ensures var h := OnResponse(s, r, conn, env);
            && h.up == (if Heeds(s.tx.kind, told, r) then Some(Resp(r)) else None)
            && Remembers(h.s.tx.(log := h.s.tx.log.(delivered := Messages(if h.up.Some? then told + [r] else told))),
                         if h.up.Some? then told + [r] else told)
  {
    var target := ResponseState(s.tx.kind, r, s.ep.opt);
    if target.Terminated? && CanTransition(s.tx.state, target) {
      TransitionEndState(s.(tx := s.tx.(lastResponse := Some(r))), env);
    }
    SendAckKeepsLast(s.(tx := s.tx.(lastResponse := Some(r))), conn, env);
    SendAckForward(s.(tx := s.tx.(lastResponse := Some(r))), conn, env);
    hide Transition, SendAck, Messages;
  }

  /** The response that event `e` makes the transaction handle. */
  function Handles(tx: Tx, e: Event): Option<Response> {
    if e.CallReceive? && tx.queue != [] && tx.queue[0].Received? && tx.queue[0].msg.Resp? then Some(tx.queue[0].msg.response) else None
  }

  /** The told responses after `e`. */
  function ToldAfter(tx: Tx, told: seq<Response>, e: Event): seq<Response> {
    var r := Handles(tx, e);
    if r.Some? && Heeds(tx.kind, told, r.value) then told + [r.value] else told
  }

  lemma ResponseHeeded(s: TE, told: seq<Response>, r: Response, conn: Option<Conn>, env: Env)
    requires Live(s.tx) && Remembers(s.tx, told) && !s.tx.state.Nothing?
    requires s.tx.queue != [] && s.tx.queue[0] == Received(Resp(r), conn)
    requires var t := Receive(s, env).tx; !t.state.Terminated? && !t.state.Completed?
    ensures Remembers(Receive(s, env).tx, if Heeds(s.tx.kind, told, r) then told + [r] else told)
  {
    var p := Pop(s);
    assert Live(p.tx) && Remembers(p.tx, told);
    if s.tx.state.Accepted? { AcceptedHeeds(p, told, r, conn, env); } else { SetupHeeds(p, told, r, conn, env); }
    OnResponseInward(p, r, conn, env);
    OneMoreMessage(told, r);
    hide OnResponse, Heeds, Grows, Messages;
  }

  lemma SameMemory(t: Tx, t': Tx, told: seq<Response>)
    requires Remembers(t, told) && t'.lastResponse == t.lastResponse && t'.log.delivered == t.log.delivered
    requires t'.state == t.state || (told == [] && t.state.Nothing? && t'.state.Calling?)
    ensures Remembers(t', told)
  {
  }

  lemma OthersHeeded(s: TE, told: seq<Response>, env: Env)
    requires Live(s.tx) && Remembers(s.tx, told) && s.tx.queue != [] && !(s.tx.queue[0].Received? && s.tx.queue[0].msg.Resp?)
    requires !Receive(s, env).tx.state.Terminated?
    ensures Remembers(Receive(s, env).tx, told)
  {
    var p, q := Pop(s), s.tx.queue[0];
    OtherStates(p, q, env);
    HandleInward(p, q, env);
    if q.Fired? { OnTimerKeepsLast(p, q.timer, env); }
    hide OnTimer, Transition, CanTransition, Grows, Remembers;
    SameMemory(s.tx, Receive(s, env).tx, told);
  }

  lemma OnTimerKeepsLast(s: TE, t: TxTimer, env: Env)
    requires IsClient(s.tx.kind) && !s.tx.cleanedUp && !s.tx.state.Terminated?
    ensures OnTimer(s, t, env).tx.lastResponse == s.tx.lastResponse
  {
    TransitionEnds(s, env);
    hide Transition, LastMessage, Detach, TimersOf, MakeResponse;
  }

  lemma SendKeepsLast(s: TE, env: Env)
    ensures Send(s, env).s.tx.lastResponse == s.tx.lastResponse
  {
    TransitionFacts(Written(s, env), Calling, env);
    hide Transition, MakeResponse;
  }

  /** One call of a client that goes on. */
  lemma CallHeeds(s: TE, told: seq<Response>, e: Event)
    requires IsCall(e) && (e.CallReceive? ==> s.tx.queue != [] && !s.tx.state.Nothing?) && (e.FireTimer? ==> e.slot in s.tx.pending)
    requires e.CallSend? ==> s.tx.state.Nothing? || s.tx.state.Calling?
    requires Live(s.tx) && Remembers(s.tx, told)
    requires var t := Called(s, e).tx; !t.state.Terminated? && !t.state.Completed?
    ensures Remembers(Called(s, e).tx, ToldAfter(s.tx, told, e))
  {
    hide Send, Receive, DoRespond, SendAck, Remembers, Heeds, Grows;
    match e
    case CallSend(_, env) =>
      SendInward(s, env);
      SendStates(s, env);
      SendKeepsLast(s, env);
      SendMemory(s, told, env);
    case CallReceive(_, env) =>
      var q := s.tx.queue[0];
      if q.Received? && q.msg.Resp? { ResponseHeeded(s, told, q.msg.response, q.conn, env); } else { OthersHeeded(s, told, env); }
    case CallRespond(_, r, env) => ClientRespond(s, r, env);
    case CallSendAck(_, conn, env) =>
      SendAckInward(s, conn, env);
      SendAckForward(s, conn, env);
      SendAckKeepsLast(s, conn, env);
      AckCallerIs(s, conn, env);
      SameMemory(s.tx, SendAck(s, conn, env).s.tx, told);
    case QueueRespond(_, _, _) => SameMemory(s.tx, Called(s, e).tx, told);
    case CallStop(_, _) => SameMemory(s.tx, Called(s, e).tx, told);
    case FireTimer(_, _, _) => SameMemory(s.tx, Called(s, e).tx, told);
  }

  lemma AckCallerIs(s: TE, conn: Option<Conn>, env: Env)
    ensures !s.tx.kind.ClientInvite? ==> SendAck(s, conn, env).s == s
  {
    hide Transition, ChooseAck;
  }

  lemma SendMemory(s: TE, told: seq<Response>, env: Env)
    requires Remembers(s.tx, told) && (s.tx.state.Nothing? || s.tx.state.Calling?)
    requires var t := Send(s, env).s.tx;
             && t.lastResponse == s.tx.lastResponse && t.log.delivered == s.tx.log.delivered
             && (t.state == s.tx.state || t.state == Calling)
    ensures Remembers(Send(s, env).s.tx, told)
  {
    hide Send;
  }

  // ---- Runs ------------------------------------------------------------------------------------------

  /** The responses `id` handles on a run, in order. */
  ghost function HandledOn(sys: Sys, es: seq<Event>, id: nat): seq<Response>
    requires Run(sys, es)
    decreases |es|
  {
    if es == [] then []
    else (if CallsOn(sys, es[0], id) && Handles(sys.txs[id], es[0]).Some? then [Handles(sys.txs[id], es[0]).value] else [])
         + HandledOn(Step(sys, es[0]), es[1..], id)
  }

  /** What is told of `rs` once `told` was. */
  function Further(kind: TxType, told: seq<Response>, rs: seq<Response>): seq<Response>
    decreases |rs|
  {
    if rs == [] then told else Further(kind, if Heeds(kind, told, rs[0]) then told + [rs[0]] else told, rs[1..])
  }

  lemma {:induction false} FurtherHeeded(kind: TxType, before: seq<Response>, rs: seq<Response>)
    ensures Further(kind, Heeded(kind, before), rs) == Heeded(kind, before + rs)
    decreases |rs|
  {
    hide Heeds;
    if rs == [] {
      assert before + rs == before;
    } else {
      HeededOneMore(kind, before, rs[0]);
      FurtherHeeded(kind, before + [rs[0]], rs[1..]);
      assert before + [rs[0]] + rs[1..] == before + rs;
    }
  }

  lemma LiveStates(tx: Tx, opt: EndpointOption, now: nat)
    requires Inv(tx, opt, now) && Alive(tx) && IsClient(tx.kind) && !tx.cleanedUp
    ensures Live(tx)
  {
    assert Sane(tx);
    hide Paced;
  }

  /** A step of a client that lives after it. */
  lemma StepHeeds(sys: Sys, e: Event, id: nat, told: seq<Response>)
    requires Consistent(sys) && Possible(sys, e) && id in Step(sys, e).txs && !Over(Step(sys, e), id) && IsClient(Step(sys, e).txs[id].kind)
    requires if id in sys.txs then Remembers(sys.txs[id], told) else told == []
    ensures Remembers(Step(sys, e).txs[id], if CallsOn(sys, e, id) then ToldAfter(sys.txs[id], told, e) else told)
  {
    hide Consistent, Possible, Step, Called, Remembers, Inv, Alive, Handles, Heeds;
    StepConsistent(sys, e);
    if CallsOn(sys, e, id) {
      SameKind(sys, e, id);
      LiveCall(sys, e, id);
      CallHeeds(At(sys, id), told, e);
    } else {
      OtherHeeds(sys, e, id, told);
    }
  }

  lemma LiveCall(sys: Sys, e: Event, id: nat)
    requires Consistent(sys) && Possible(sys, e) && CallsOn(sys, e, id) && IsClient(sys.txs[id].kind)
    requires id in Step(sys, e).txs && !Over(Step(sys, e), id)
    ensures Live(sys.txs[id]) && (e.CallReceive? ==> sys.txs[id].queue != [] && !sys.txs[id].state.Nothing?)
    ensures (e.FireTimer? ==> e.slot in sys.txs[id].pending) && (e.CallSend? ==> sys.txs[id].state.Nothing? || sys.txs[id].state.Calling?)
    ensures var t := Called(At(sys, id), e).tx; Step(sys, e).txs[id] == t && !t.state.Terminated? && !t.state.Completed?
  {
    hide Consistent, Possible, Called, Inv, Alive, Live;
    CallPossible(sys, e);
    HealthyAt(sys, id, TimeOf(e));
    CallKeeps(At(sys, id), e);
    StepConsistent(sys, e);
    HealthyAt(Step(sys, e), id, TimeOf(e));
    LiveStates(sys.txs[id], sys.ep.opt, TimeOf(e));
    LiveStates(Step(sys, e).txs[id], Step(sys, e).ep.opt, TimeOf(e));
    IsLive(Step(sys, e).txs[id]);
  }

  lemma IsLive(tx: Tx)
    requires Live(tx)
    ensures !tx.state.Terminated? && !tx.state.Completed?
  {
  }

  lemma OtherHeeds(sys: Sys, e: Event, id: nat, told: seq<Response>)
    requires Consistent(sys) && Possible(sys, e) && !CallsOn(sys, e, id) && id in Step(sys, e).txs && IsClient(Step(sys, e).txs[id].kind)
    requires if id in sys.txs then Remembers(sys.txs[id], told) else told == []
    ensures Remembers(Step(sys, e).txs[id], told)
  {
    hide Consistent, Called, Route, DoCleanup, RunCleanup, System.Earliest, RequestKey;
    NextIsFree(sys);
  }

  lemma {:induction false} RunHeeds(sys: Sys, es: seq<Event>, id: nat, told: seq<Response>)
    requires Consistent(sys) && Run(sys, es)
    requires id in After(sys, es).txs && !Over(After(sys, es), id) && IsClient(After(sys, es).txs[id].kind)
    requires if id in sys.txs then Remembers(sys.txs[id], told) else told == []
    ensures Remembers(After(sys, es).txs[id], Further(After(sys, es).txs[id].kind, told, HandledOn(sys, es, id)))
    decreases |es|
  {
    hide Consistent, Possible, Step, Remembers, Heeds, Handles, Over;
    if es != [] {
      var e, next := es[0], Step(sys, es[0]);
      AliveThroughout(sys, es, id);
      StepConsistent(sys, e);
      if id in next.txs {
        RunKind(next, es[1..], id);
        StepHeeds(sys, e, id, told);
        if CallsOn(sys, e, id) { SameKind(sys, e, id); }
      }
      var told' := if CallsOn(sys, e, id) then ToldAfter(sys.txs[id], told, e) else told;
      RunHeeds(next, es[1..], id, told');
      FurtherStep(sys, es, id, told);
    }
  }

  lemma FurtherStep(sys: Sys, es: seq<Event>, id: nat, told: seq<Response>)
    requires Run(sys, es) && es != []
    ensures CallsOn(sys, es[0], id) ==>
              Further(sys.txs[id].kind, told, HandledOn(sys, es, id))
              == Further(sys.txs[id].kind, ToldAfter(sys.txs[id], told, es[0]), HandledOn(Step(sys, es[0]), es[1..], id))
    ensures !CallsOn(sys, es[0], id) ==> HandledOn(sys, es, id) == HandledOn(Step(sys, es[0]), es[1..], id)
  {
    hide Possible, Step, Heeds, Handles;
    var rest := HandledOn(Step(sys, es[0]), es[1..], id);
    if CallsOn(sys, es[0], id) && Handles(sys.txs[id], es[0]).Some? {
      var r := Handles(sys.txs[id], es[0]).value;
      assert ([r] + rest)[1..] == rest;
    } else {
      assert [] + rest == rest;
    }
  }

  /** On every run, whatever else happens: of the responses a client that has not ended handled, its user
      was told all, in order, but a 100 after a later provisional one, provisional ones that repeat the
      last told, and what is no success after the first success. */
  lemma HeededOnRuns(opt: EndpointOption, es: seq<Event>, id: nat)
    requires Run(Start(opt), es)
    requires var sys := Reached(opt, es); id in sys.txs && !sys.txs[id].cleanedUp && IsClient(sys.txs[id].kind)
    ensures var tx := Reached(opt, es).txs[id];
            tx.log.delivered == Messages(Heeded(tx.kind, HandledOn(Start(opt), es, id)))
  {
    StartConsistent(opt);
    RunHeeds(Start(opt), es, id, []);
    var kind := Reached(opt, es).txs[id].kind;
    FurtherHeeded(kind, [], HandledOn(Start(opt), es, id));
    assert [] + HandledOn(Start(opt), es, id) == HandledOn(Start(opt), es, id);
    hide Run, HandledOn, Heeds, Further;
  }
}
