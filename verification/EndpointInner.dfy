/**
 The endpoint as the source keeps it (src/transaction/endpoint.rs): mutable
 tables around the shared timer wheel.  `View` is the value the properties are
 proved about.
 */
module EndpointInner {
  import opened Prelude
  import opened SipMessages
  import opened TransactionKey
  import opened TimerWheel
  import opened EndpointSpec
  import opened TimerOwnership
  import opened ReadyTimers

  /** A transaction's event queue: the sending and the receiving end. */
  class Channel {
    var events: seq<TxEvent>

    constructor ()
      ensures events == []
    {
      events := [];
    }

    method Send(e: TxEvent)
      modifies this
      ensures events == old(events) + [e]
    {
      events := events + [e];
    }

    method Recv() returns (e: TxEvent)
      requires events != []
      modifies this
      ensures [e] + events == old(events)
    {
      e := events[0];
      events := events[1..];
    }
  }

  /** A message is delivered to a live key only. */
  lemma DeliversToLive(ep: Ep, msg: SipMessage, conn: Conn, sendOk: bool)
    ensures var r := Route(ep, msg, conn, sendOk);
            r.action.Deliver? ==> r.action.key in ep.table
  {
    hide TargetKey, ResponseKey, ForgetWaitingAck, RequestDialog;
  }

  /** A server transaction is started for a key that is not live only. */
  lemma StartsFresh(ep: Ep, msg: SipMessage, conn: Conn, sendOk: bool)
    ensures var r := Route(ep, msg, conn, sendOk);
            r.action.NewServer? ==> r.action.key !in ep.table
  {
    hide TargetKey, ResponseKey, ForgetWaitingAck, RequestDialog;
  }

  /** Without the key that has no timers, the rest still have theirs. */
  lemma OthersBelong(w: TxWheel, keys: set<Key>, key: Key)
    requires TimersBelong(w, keys) && NoTimers(w, key)
    ensures TimersBelong(w, keys - {key})
  {
    forall id | id in w.entries && w.entries[id].value.TxTimer? ensures w.entries[id].value.key in keys - {key} {
      assert !TimerOf(w, id, key);
    }
  }

  lemma BelongToMore(w: TxWheel, keys: set<Key>, key: Key)
    requires TimersBelong(w, keys)
    ensures TimersBelong(w, keys + {key})
  {
  }

  lemma CleanupBelongs(w: TxWheel, keys: set<Key>, due: nat, key: Key)
    requires TimersBelong(w, keys)
    ensures TimersBelong(w.Timeout(due, Cleanup(key)), keys)
  {
  }

  lemma PolledBelong(w: TxWheel, keys: set<Key>, now: nat)
    requires TimersBelong(w, keys)
    ensures TimersBelong(AfterPoll(w, now), keys)
  {
  }

  /** No live key waits for a cleanup, and each cleanup is that of a cached message. */
  ghost predicate Apart(ep: Ep) {
    ep.cleanups.Keys !! ep.table && ep.cleanups.Keys <= ep.finished.Keys
  }

  /** Each transaction has its own channel. */
  ghost predicate OwnChannels(transactions: map<Key, Channel>) {
    forall a, b :: a in transactions && b in transactions && a != b ==> transactions[a] != transactions[b]
  }

  lemma OneMoreChannel(transactions: map<Key, Channel>, key: Key, ch: Channel)
    requires OwnChannels(transactions) && ch !in transactions.Values
    ensures OwnChannels(transactions[key := ch])
  {
    var more := transactions[key := ch];
    forall a, b | a in more && b in more && a != b ensures more[a] != more[b] {
      if a == key { assert more[b] == transactions[b] && transactions[b] in transactions.Values; }
      if b == key { assert more[a] == transactions[a] && transactions[a] in transactions.Values; }
    }
  }

  lemma FewerChannels(transactions: map<Key, Channel>, key: Key)
    requires OwnChannels(transactions)
    ensures OwnChannels(transactions - {key})
  {
  }

  lemma CleanedIsNotLive(ep: Ep)
    requires Apart(ep)
    ensures forall key :: key in ep.cleanups ==> key !in ep.table
  {
  }

  lemma CachedApart(ep: Ep, key: Key)
    requires Apart(ep) && key !in ep.finished
    ensures Apart(ep.(table := ep.table + {key}))
  {
  }

  lemma DetachApart(ep: Ep, key: Key, last: Option<SipMessage>, now: nat)
    requires Apart(ep)
    ensures Apart(Detach(ep, key, last, now))
  {
  }

  lemma {:induction false} AfterTimersApart(ep: Ep, ready: seq<TxTimer>)
    requires Apart(ep)
    ensures Apart(AfterTimers(ep, ready))
    decreases |ready|
  {
    if ready != [] { AfterTimersApart(if ready[0].Cleanup? then RunCleanup(ep, ready[0].key) else ep, ready[1..]); }
  }

  /** Routing a message changes none of these tables; a transaction is started for a key not cached. */
  lemma RouteApart(ep: Ep, msg: SipMessage, conn: Conn, sendOk: bool)
    ensures var r := Route(ep, msg, conn, sendOk);
            && (Apart(ep) ==> Apart(r.ep))
            && (r.action.NewServer? ==> r.action.key !in ep.finished)
  {
    hide TargetKey, ResponseKey, RequestDialog, ReplayedAck;
  }

  class Endpoint {
    const opt: EndpointOption
    const timers: Timer<TxTimer>
    var transactions: map<Key, Channel>
    var finishedTransactions: map<Key, SipMessage>
    var waitingAck: map<DialogId, Key>
    var waitingAckCseq: map<(DialogId, nat), Key>
    /** What was handed to the transports. */
    var wire: seq<SipMessage>

    /** A key has one cleanup at most, and only live transactions have timers. */
    ghost predicate Valid()
      reads this`transactions, timers
    {
      timers.Valid() && OneCleanup(timers.Contents()) && TimersBelong(timers.Contents(), transactions.Keys)
    }

    /** So a key that is not live has no timer. */
    lemma NotLive(key: Key)
      requires Valid() && key !in transactions
      ensures NoTimers(timers.Contents(), key)
    {
      hide OneCleanup;
    }

    ghost function View(): (ep: Ep)
      reads this, timers
      requires Valid()
      ensures ep.opt == opt && ep.table == transactions.Keys
    {
      Ep(opt, Cleanups(timers.Contents()), transactions.Keys, finishedTransactions, waitingAck, waitingAckCseq, wire)
    }

    lemma CleanupsView()
      requires Valid()
      ensures View().cleanups == Cleanups(timers.Contents())
    {
    }

    /** Each transaction has its own channel, and none of them is cached as finished. */
    ghost predicate Separate()
      reads this, timers
      requires Valid()
    {
      OwnChannels(transactions) && Apart(View())
    }

    constructor (opt: EndpointOption)
      ensures Valid() && Separate() && fresh(timers) && this.opt == opt
      ensures View() == Ep(opt, map[], {}, map[], map[], map[], [])
    {
      this.opt := opt;
      timers := new Timer<TxTimer>();
      transactions, finishedTransactions, waitingAck, waitingAckCseq, wire := map[], map[], map[], map[], [];
      new;
      assert CleanupKeys(timers.Contents()) == {};
    }

    method Transmit(msg: SipMessage, sendOk: bool)
      requires Valid()
      modifies this`wire
      ensures Valid() && View() == Write(old(View()), msg, sendOk)
    {
      if sendOk {
        wire := wire + [msg];
      }
    }

    method AttachTransaction(key: Key, tuSender: Channel)
      requires Valid()
      modifies this`transactions
      ensures Valid() && View() == old(View()).(table := old(View()).table + {key})
      ensures transactions == old(transactions)[key := tuSender]
      ensures old(Separate()) && key !in old(finishedTransactions) && tuSender !in old(transactions.Values) ==> Separate()
    {
      hide OwnChannels, OneCleanup, TimersBelong, Timer.Contents, Timer.Valid, Cleanups;
      BelongToMore(timers.Contents(), transactions.Keys, key);
      if Apart(View()) && key !in finishedTransactions { CachedApart(View(), key); }
      if OwnChannels(transactions) && tuSender !in transactions.Values { OneMoreChannel(transactions, key, tuSender); }
      transactions := transactions[key := tuSender];
      assert transactions.Keys == old(transactions.Keys) + {key};
    }

    /** A key whose cleanup is pending is not live, so it cannot detach again. */
    method DetachTransaction(key: Key, lastMessage: Option<SipMessage>, now: nat)
      requires Valid() && NoTimers(timers.Contents(), key) && (lastMessage.Some? ==> key !in View().cleanups)
      modifies this`transactions, this`finishedTransactions, timers
      ensures Valid() && View() == Detach(old(View()), key, lastMessage, now)
      ensures transactions == old(transactions) - {key}
      ensures timers.Contents() == if lastMessage.Some? then old(timers.Contents()).Timeout(now + opt.t1x64, Cleanup(key))
                                   else old(timers.Contents())
      ensures old(Separate()) ==> Separate()
    {
      hide OwnChannels, Apart, OneCleanup, Cleanups, TimersBelong, NoTimers, Timer.Contents, Timer.Valid;
      if Separate() {
        DetachApart(View(), key, lastMessage, now);
        FewerChannels(transactions, key);
      }
      OthersBelong(timers.Contents(), transactions.Keys, key);
      transactions := transactions - {key};
      if lastMessage.Some? {
        ghost var w := timers.Contents();
        TimeoutCleanup(w, now + opt.t1x64, key);
        CleanupBelongs(w, transactions.Keys, now + opt.t1x64, key);
        var id := timers.TimeoutAt(now + opt.t1x64, Cleanup(key));
        finishedTransactions := finishedTransactions[key := lastMessage.value];
      }
    }

    method ForgetWaitingAck(dialog: DialogId, cseq: nat, key: Key)
      requires Valid()
      modifies this`waitingAck, this`waitingAckCseq
      ensures Valid() && View() == EndpointSpec.ForgetWaitingAck(old(View()), dialog, cseq, key)
    {
      var route := (dialog, cseq);
      if route in waitingAckCseq && waitingAckCseq[route] == key {
        waitingAckCseq := waitingAckCseq - {route};
      }
      if dialog in waitingAck && waitingAck[dialog] == key {
        waitingAck := waitingAck - {dialog};
      }
    }

    method InsertWaitingAck(dialog: DialogId, key: Key)
      requires Valid()
      modifies this`waitingAck
      ensures Valid() && View() == old(View()).(waitingAck := old(View()).waitingAck[dialog := key])
    {
      waitingAck := waitingAck[dialog := key];
    }

    method InsertWaitingAckCseq(dialog: DialogId, cseq: nat, key: Key)
      requires Valid()
      modifies this`waitingAckCseq
      ensures Valid() && View() == old(View()).(waitingAckCseq := old(View()).waitingAckCseq[(dialog, cseq) := key])
    {
      waitingAckCseq := waitingAckCseq[(dialog, cseq) := key];
    }

    // ---- Incoming messages ---------------------------------------------------------

    method OnRequest(req: Request, conn: Conn, sendOk: bool) returns (action: Action)
      requires Valid()
      modifies this`waitingAck, this`waitingAckCseq, this`wire
      ensures Valid() && Routed(View(), action) == RouteRequest(old(View()), req, conn, sendOk)
    {
      var own := RequestKey(req, Server);
      if own.None? {
        return Ignore;
      }
      var key := own.value;
      var dialog := RequestDialog(req, Server);
      if req.verb == Ack {
        if dialog.Some? && (dialog.value, req.ids.cseq) in waitingAckCseq {
          key := waitingAckCseq[(dialog.value, req.ids.cseq)];
        }
      }
      assert TargetKey(View(), req) == Some(key);
      if key in finishedTransactions {
        if req.verb == Ack {
          if dialog.Some? {
            ForgetWaitingAck(dialog.value, req.ids.cseq, key);
          }
          return Ignore;
        }
        Transmit(finishedTransactions[key], sendOk);
        return Ignore;
      }
      if key in transactions {
        return Deliver(key, Received(Req(req), Some(conn)));
      }
      if req.verb == Cancel {
        Transmit(Resp(MakeResponse(req, 481)), sendOk);
        return Ignore;
      }
      if req.verb == Ack {
        return Ignore;
      }
      return NewServer(key, req);
    }

    method OnResponse(resp: Response, conn: Conn, sendOk: bool) returns (action: Action)
      requires Valid()
      modifies this`wire
      ensures Valid() && Routed(View(), action) == RouteResponse(old(View()), resp, conn, sendOk)
    {
      var own := ResponseKey(resp, Client);
      if own.None? {
        return Ignore;
      }
      var key := own.value;
      if key in finishedTransactions && !(Successful(resp) && MultipleVias(resp)) {
        var last := finishedTransactions[key];
        if last.Req? && last.request.verb == Ack {
          if Provisional(resp) {
            return Ignore;
          }
          var ack := last.request;
          if resp.toTag.Some? {
            ack := ack.(toTag := resp.toTag);
          }
          Transmit(Req(ack), sendOk);
        }
        return Ignore;
      }
      if key in transactions {
        return Deliver(key, Received(Resp(resp), Some(conn)));
      }
      return Ignore;
    }

    /** `on_received_message`; `NewServer` asks the caller to make the transaction. */
    method OnReceivedMessage(msg: SipMessage, conn: Conn, sendOk: bool) returns (action: Action)
      requires Valid()
      modifies this`waitingAck, this`waitingAckCseq, this`wire, transactions.Values
      ensures Valid() && Routed(View(), action) == Route(old(View()), msg, conn, sendOk)
      ensures action.Deliver? ==> action.key in transactions && transactions[action.key].events == old(transactions[action.key].events) + [action.event]
      ensures action.NewServer? ==> NoTimers(timers.Contents(), action.key) && action.key !in finishedTransactions
      ensures transactions == old(transactions) && (old(Separate()) ==> Separate())
      ensures forall ch: Channel :: ch in transactions.Values && !(action.Deliver? && ch == transactions[action.key]) ==> ch.events == old(ch.events)
    {
      hide OneCleanup, Cleanups, TimersBelong, NoTimers, Timer.Contents, Timer.Valid, RouteRequest, RouteResponse, Apart;
      RouteApart(View(), msg, conn, sendOk);
      match msg {
        case Req(req) => action := OnRequest(req, conn, sendOk);
        case Resp(resp) => action := OnResponse(resp, conn, sendOk);
      }
      if action.Deliver? {
        DeliversToLive(old(View()), msg, conn, sendOk);
        transactions[action.key].Send(action.event);
      }
      if action.NewServer? {
        StartsFresh(old(View()), msg, conn, sendOk);
        NotLive(action.key);
      }
    }

    // ---- Timers ------------------------------------------------------------------------

    /** A TimerCleanup: every trace of the key goes; its entry has left the wheel. */
    method ForgetFinished(key: Key)
      requires Valid() && NoTimers(timers.Contents(), key)
      modifies this`transactions, this`finishedTransactions, this`waitingAck, this`waitingAckCseq
      ensures Valid() && View() == RunCleanup(old(View()), key).(cleanups := old(View()).cleanups)
      ensures transactions == old(transactions) - {key}
    {
      hide OneCleanup, Cleanups, TimersBelong, NoTimers, Timer.Contents, Timer.Valid;
      OthersBelong(timers.Contents(), transactions.Keys, key);
      transactions := transactions - {key};
      finishedTransactions := finishedTransactions - {key};
      waitingAck := map d | d in waitingAck && waitingAck[d] != key :: waitingAck[d];
      waitingAckCseq := map d | d in waitingAckCseq && waitingAckCseq[d] != key :: waitingAckCseq[d];
    }

    /** One released timer: to its transaction, or a cleanup. */
    method Dispatch(t: TxTimer)
      requires Valid() && OwnChannels(transactions) && (t.Cleanup? ==> t.key !in transactions)
      modifies this`transactions, this`finishedTransactions, this`waitingAck, this`waitingAckCseq, transactions.Values
      ensures Valid() && View() == if t.Cleanup? then RunCleanup(old(View()), t.key).(cleanups := old(View()).cleanups) else old(View())
      ensures transactions == old(transactions)
      ensures forall key :: key in transactions ==> transactions[key].events == old(transactions[key].events) + FiredFor([t], key)
    {
      hide OneCleanup, Cleanups, TimersBelong, NoTimers, Timer.Contents, Timer.Valid, RunCleanup;
      assert [t][1..] == [];
      match t {
        case Cleanup(key) =>
          NotLive(key);
          ForgetFinished(key);
        case TxTimer(_, key, _) =>
          if key in transactions {
            transactions[key].Send(Fired(t));
          }
      }
    }

    /** `process_timer`, one wake-up. */
    method ProcessTimer(now: nat)
      requires Valid() && Separate()
      modifies this`transactions, this`finishedTransactions, this`waitingAck, this`waitingAckCseq, timers, transactions.Values
      ensures Valid() && timers.Contents() == AfterPoll(old(timers.Contents()), now)
      ensures View() == AfterTimers(old(View()), Ready(old(timers.Contents()), now))
      ensures transactions == old(transactions)
      ensures forall key :: key in transactions ==>
                transactions[key].events == old(transactions[key].events) + FiredFor(Ready(old(timers.Contents()), now), key)
      ensures Separate()
    {
      hide OwnChannels, Apart, OneCleanup, Cleanups, TimersBelong, Timer.Contents, Timer.Valid, AfterPoll, AfterTimers, RunCleanup, FiredFor;
      ghost var w, ep := timers.Contents(), View();
      PolledBelong(w, transactions.Keys, now);
      var ready := timers.Poll(now);
      ReadyIsPolled(w, now);
      assert ready == Ready(w, now);
      AfterTimersApart(ep, ready);
      CleanedIsNotLive(ep);
      PolledCleanups(w, now, ep);
      ghost var left := Cleanups(AfterPoll(w, now));
      var i := 0;
      AfterNone(ep);
      while i < |ready|
        invariant 0 <= i <= |ready| && ready == Ready(w, now)
        invariant Valid() && timers.Contents() == AfterPoll(w, now)
        invariant View() == AfterTimers(ep, ready[..i]).(cleanups := left)
        invariant transactions == old(transactions) && OwnChannels(transactions)
        invariant forall key :: key in transactions ==>
                    transactions[key].events == old(transactions[key].events) + FiredFor(ready[..i], key)
      {
        OneMore(ep, ready, i, left);
        if ready[i].Cleanup? { ReleasedWasPending(w, now, i); }
        Dispatch(ready[i]);
        i := i + 1;
      }
      assert ready[..i] == ready;
    }
  }

  lemma AfterNone(ep: Ep)
    ensures AfterTimers(ep, []) == ep
    ensures forall key :: FiredFor([], key) == []
  {
  }

  lemma CleanupCommutes(ep: Ep, key: Key, left: map<Key, nat>)
    ensures RunCleanup(ep.(cleanups := left), key).(cleanups := left) == RunCleanup(ep, key).(cleanups := left)
  {
  }

  /** What dispatching `ready[i]` adds. */
  lemma OneMore(ep: Ep, ready: seq<TxTimer>, i: nat, left: map<Key, nat>)
    requires i < |ready|
    ensures AfterTimers(ep, ready[..i + 1]).(cleanups := left)
            == if ready[i].Cleanup? then RunCleanup(AfterTimers(ep, ready[..i]).(cleanups := left), ready[i].key).(cleanups := left)
               else AfterTimers(ep, ready[..i]).(cleanups := left)
    ensures forall key :: FiredFor(ready[..i + 1], key) == FiredFor(ready[..i], key) + FiredFor([ready[i]], key)
  {
    hide RunCleanup, AfterTimers, FiredFor;
    assert ready[..i + 1] == ready[..i] + [ready[i]];
    AfterTimersAppend(ep, ready[..i], ready[i]);
    CleanupCommutes(AfterTimers(ep, ready[..i]), ready[i].key, left);
    forall key ensures FiredFor(ready[..i + 1], key) == FiredFor(ready[..i], key) + FiredFor([ready[i]], key) {
      FiredForOneMore(ready[..i], ready[i], key);
    }
  }

  lemma FiredForOneMore(ready: seq<TxTimer>, t: TxTimer, key: Key)
    ensures FiredFor(ready + [t], key) == FiredFor(ready, key) + FiredFor([t], key)
  {
    FiredForAppend(ready, t, key);
    assert [t][1..] == [];
  }
}
