/**
 The transaction as the source keeps it (src/transaction/transaction.rs): an
 object with eight timer fields, driven by its queue.  Every method leaves the
 object and its endpoint in the state `TransactionSpec` describes.
 */
module TransactionEngine {
  import opened Prelude
  import opened SipMessages
  import opened TransactionKey
  import opened TimerWheel
  import opened EndpointSpec
  import opened TimerOwnership
  import opened EndpointInner
  import opened TransactionSpec
  import opened TransactionSanity
  import opened TimerDiscipline
  import opened TransactionInvariant
  import opened TransactionHandlers
  import opened NeverStuck
  import opened TableSteps
  import StateOrder
  import System
  import SystemSteps

  lemma DisarmTwice(s: TE, a: set<Slot>, b: set<Slot>)
    ensures Disarm(Disarm(s, a), b) == Disarm(s, a + b)
  {
    assert (s.tx.pending - a) - b == s.tx.pending - (a + b);
  }

  lemma NoKeys<T>(m: map<Slot, T>)
    requires m.Keys == {}
    ensures m == map[]
  {
    assert forall x :: x in m ==> x in m.Keys;
  }

  lemma TimerBelongs(w: TxWheel, keys: set<Key>, timer: TxTimer, due: nat)
    requires TimersBelong(w, keys) && timer.key in keys
    ensures TimersBelong(w.Timeout(due, timer), keys)
  {
  }

  lemma FewerBelong(w: TxWheel, keys: set<Key>, id: nat)
    requires TimersBelong(w, keys)
    ensures TimersBelong(w.Cancel(id), keys)
  {
  }

  lemma CleanupLeft(timers: map<Slot, nat>, w: TxWheel, key: Key, due: nat)
    requires Owns(timers, w, key)
    ensures var w' := w.Timeout(due, TxTimer.Cleanup(key));
            Owns(timers, w', key) && Pending(timers, w', key) == Pending(timers, w, key) && Rest(w', key) == Rest(w, key)
  {
    CleanupOwns(timers, w, key, due);
    TimeoutKeepsOthers(w, due, TxTimer.Cleanup(key));
    hide Recorded, Truthful, Pending, Rest;
  }

  lemma WithoutTwice<T>(m: map<Key, T>, key: Key)
    ensures (m - {key}) - {key} == m - {key}
  {
  }

  lemma SameBut<T>(m: map<Key, T>, m': map<Key, T>, key: Key, gone: bool)
    requires m' - {key} == m - {key}
    requires if gone then key !in m' else key in m && key in m' && m'[key] == m[key]
    ensures m' == if gone then m - {key} else m
  {
    forall k | k in m' ensures k in m && m[k] == m'[k] {
      if k != key { assert k in m' - {key} && (m' - {key})[k] == m'[k]; }
    }
    forall k | k in m && (k != key || !gone) ensures k in m' {
      if k != key { assert k in m - {key}; }
    }
  }

  lemma NoneHeld(timers: map<Slot, nat>, slot: Slot)
    ensures timers == map[] ==> timers - {slot} == map[]
  {
  }

  lemma NoneToTake(s: TE, slot: Slot)
    requires slot !in s.tx.held && slot !in s.tx.pending
    ensures Disarm(s, {slot}) == s
  {
    assert s.tx.pending - {slot} == s.tx.pending && s.tx.held - {slot} == s.tx.held;
  }

  lemma PendingHeld(timers: map<Slot, nat>, w: TxWheel, key: Key)
    ensures Owns(timers, w, key) ==> Pending(timers, w, key).Keys <= timers.Keys
  {
  }

  /** The eight `timer_x` fields. */
  class TimerFields {
    var timerA: Option<nat>
    var timerB: Option<nat>
    var timerC: Option<nat>
    var timerD: Option<nat>
    var timerK: Option<nat>
    var timerG: Option<nat>
    var timerL: Option<nat>
    var timerM: Option<nat>

    constructor ()
      ensures Ids() == map[]
    {
      timerA, timerB, timerC, timerD, timerK, timerG, timerL, timerM := None, None, None, None, None, None, None, None;
    }

    function Get(slot: Slot): Option<nat>
      reads this
    {
      match slot
      case A => timerA case B => timerB case C => timerC case D => timerD
      case K => timerK case G => timerG case L => timerL case M => timerM
    }

    /** The ids in the fields. */
    ghost function Ids(): map<Slot, nat>
      reads this
    {
      map slot | slot in ALL_SLOTS && Get(slot).Some? :: Get(slot).value
    }

    method Set(slot: Slot, id: Option<nat>)
      modifies this
      ensures Ids() == if id.Some? then old(Ids())[slot := id.value] else old(Ids()) - {slot}
    {
      hide Get, Ids;
      Assign(slot, id);
      forall x: Slot ensures x in Ids() <==> Get(x).Some? ensures x in Ids() ==> Ids()[x] == Get(x).value { Held(x); }
      forall x: Slot ensures x in old(Ids()) <==> old(Get(x)).Some?
        ensures x in old(Ids()) ==> old(Ids())[x] == old(Get(x)).value { HeldBefore(x); }
      assert Ids().Keys == if id.Some? then old(Ids()).Keys + {slot} else old(Ids()).Keys - {slot};
    }

    method Assign(slot: Slot, id: Option<nat>)
      modifies this
      ensures forall x: Slot :: Get(x) == if x == slot then id else old(Get(x))
    {
      match slot {
        case A => timerA := id;
        case B => timerB := id;
        case C => timerC := id;
        case D => timerD := id;
        case K => timerK := id;
        case G => timerG := id;
        case L => timerL := id;
        case M => timerM := id;
      }
    }

    twostate lemma HeldBefore(slot: Slot)
      ensures slot in old(Ids()) <==> old(Get(slot)).Some?
      ensures slot in old(Ids()) ==> old(Ids())[slot] == old(Get(slot)).value
    {
      AllSlots(slot);
    }

    lemma OnlySlots()
      ensures Ids().Keys <= ALL_SLOTS
    {
    }

    lemma Held(slot: Slot)
      ensures slot in Ids() <==> Get(slot).Some?
      ensures slot in Ids() ==> Ids()[slot] == Get(slot).value
    {
      AllSlots(slot);
    }
  }

  class Transaction {
    const kind: TxType
    const key: Key
    const original: Request
    const endpoint: Endpoint
    const tu: Channel
    const fields: TimerFields
    var state: State
    var connection: Option<Conn>
    var lastResponse: Option<Response>
    var lastAck: Option<Request>
    var ackBody: Option<Bytes>
    var retransmission: bool
    var isCleanedUp: bool
    ghost var log: Log

    /** `Transaction::new`: attached to the endpoint under its key. */
    constructor (kind: TxType, key: Key, original: Request, endpoint: Endpoint, connection: Option<Conn>)
      requires endpoint.Valid() && NoTimers(endpoint.timers.Contents(), key)
      modifies endpoint`transactions
      ensures this.kind == kind && this.key == key && this.original == original && this.endpoint == endpoint && fresh(tu) && fresh(fields)
      ensures Valid() && View() == TE(NewTx(kind, key, original, connection), old(endpoint.View()).(table := old(endpoint.View()).table + {key}))
      ensures endpoint.transactions == old(endpoint.transactions)[key := tu]
      ensures old(endpoint.Separate()) && key !in old(endpoint.finishedTransactions) ==> endpoint.Separate()
    {
      hide Owns, Pending, Cleanups, OneCleanup, TimersBelong, Timer.Contents, Timer.Valid, NoTimers;
      this.kind, this.key, this.original, this.endpoint, this.connection := kind, key, original, endpoint, connection;
      state := if IsClient(kind) then Nothing else Trying;
      lastResponse, lastAck, ackBody := None, None, None;
      retransmission, isCleanedUp, log := true, false, Log(0, 0, 0, 0, 0, 0, [], false);
      tu := new Channel();
      fields := new TimerFields();
      new;
      NoneOwned(endpoint.timers.Contents(), key);
      endpoint.AttachTransaction(key, tu);
    }

    /** The wheel's entries for this key are the ones the fields name; once cleaned up, there are none. */
    ghost predicate Valid()
      reads this`isCleanedUp, fields, endpoint`transactions, endpoint.timers
      ensures Valid() ==> endpoint.Valid()
    {
      && endpoint.Valid()
      && Owns(fields.Ids(), endpoint.timers.Contents(), key)
      && (if isCleanedUp then fields.Ids() == map[] else key in endpoint.transactions && endpoint.transactions[key] == tu)
    }

    ghost function Shots(): map<Slot, Shot>
      reads this`isCleanedUp, fields, endpoint`transactions, endpoint.timers
      requires Valid()
    {
      Pending(fields.Ids(), endpoint.timers.Contents(), key)
    }

    /** Once cleaned up, no timer of the key is in the wheel. */
    lemma EndedTimers()
      requires Valid() && isCleanedUp
      ensures NoTimers(endpoint.timers.Contents(), key) && Shots() == map[]
    {
      NoneOwned(endpoint.timers.Contents(), key);
      hide Owns, Pending, NoTimers, Endpoint.Valid;
    }

    ghost function Self(): Tx
      reads this, fields, endpoint, endpoint.timers, tu
      requires Valid()
    {
      Tx(kind, key, original, state, connection, lastResponse, lastAck, ackBody,
         fields.Ids().Keys, Shots(), retransmission, isCleanedUp, tu.events, log)
    }

    ghost function View(): TE
      reads this, fields, endpoint, endpoint.timers, tu
      requires Valid()
    {
      TE(Self(), endpoint.View())
    }

    /** The wheel entries and the channels of all other keys, which no method touches. */
    ghost function Others(): (Kept, map<Key, Channel>)
      reads endpoint`transactions, endpoint.timers
      requires endpoint.Valid()
    {
      (Rest(endpoint.timers.Contents(), key), endpoint.transactions - {key})
    }

    // ---- Timers ---------------------------------------------------------------------

    /** The object and its endpoint are now as `s` says; other keys' wheel entries are as they were. */
    twostate predicate Becomes(s: TE)
      reads this, fields, endpoint, endpoint.timers, tu
      requires old(Valid())
    {
      Valid() && View() == s && Others() == old(Others())
    }

    /** Another transaction of the same endpoint has all it had: its timers and its channel. */
    twostate lemma OtherStays(other: Transaction, s: TE)
      requires old(Valid()) && Becomes(s)
      requires other.endpoint == endpoint && other.key != key && old(other.Valid())
      requires unchanged(other) && unchanged(other.fields)
      ensures other.Valid() && other.Shots() == old(other.Shots())
      ensures other.key in old(endpoint.transactions) ==>
                other.key in endpoint.transactions && endpoint.transactions[other.key] == old(endpoint.transactions[other.key])
    {
      hide Timer.Valid, Timer.Contents, TimerFields.Ids, Owns, Pending, Rest, View, OneCleanup, TimersBelong;
      OthersOwn(other.fields.Ids(), old(endpoint.timers.Contents()), endpoint.timers.Contents(), key, other.key);
      if other.key in old(endpoint.transactions) {
        assert other.key in old(endpoint.transactions) - {key};
      }
    }

    /** The endpoint keeps its transactions separate, and the next ending of this one finds no cleanup. */
    twostate lemma SeparateStays(s: TE)
      requires old(Valid()) && !old(isCleanedUp) && Becomes(s) && ApartStep(old(View()), s) && old(endpoint.Separate())
      ensures endpoint.Separate() && (!isCleanedUp ==> NoCleanup())
    {
      hide Timer.Valid, Timer.Contents, TimerFields.Ids, Owns, Pending, Rest, OneCleanup, TimersBelong, Cleanups, OwnChannels, Apart;
      FewerChannels(old(endpoint.transactions), key);
      SameBut(old(endpoint.transactions), endpoint.transactions, key, isCleanedUp);
      CleanedIsNotLive(endpoint.View());
    }

    /** Only the timers of this transaction change, to these. */
    twostate predicate TimersBecome(held: set<Slot>, shots: map<Slot, Shot>)
      reads this`isCleanedUp, fields, endpoint, endpoint.timers
      requires old(Valid())
    {
      Valid() && fields.Ids().Keys == held && Shots() == shots
      && endpoint.View() == old(endpoint.View()) && Others() == old(Others())
    }

    method StartTimer(slot: Slot, due: nat, span: nat)
      requires Valid() && !isCleanedUp && slot !in Shots()
      modifies fields, endpoint.timers
      ensures TimersBecome(old(fields.Ids().Keys) + {slot}, old(Shots())[slot := Shot(due, span)])
    {
      hide Owns, Pending, Cleanups, OneCleanup, TimersBelong, Rest, Timer.Contents, Timer.Valid, TimerFields.Ids, TimerFields.Get;
      ghost var w, timers := endpoint.timers.Contents(), fields.Ids();
      TimeoutEffects(timers, w, key, slot, due, span);
      TimerBelongs(w, endpoint.transactions.Keys, TxTimer(slot, key, span), due);
      assert timers[slot := w.nextId].Keys == timers.Keys + {slot};
      var id := endpoint.timers.TimeoutAt(due, TxTimer(slot, key, span));
      assert fields.Ids() == timers;
      fields.Set(slot, Some(id));
    }

    /** `timers.timeout`, recorded in the slot's field. */
    method Timeout(slot: Slot, now: nat, delay: nat)
      requires Valid() && !isCleanedUp && slot !in Shots()
      modifies this`log, fields, endpoint.timers
      ensures Becomes(Arm(old(View()), slot, now, delay))
    {
      hide Shots, TimerFields.Ids, Owns, Endpoint.View, Endpoint.Valid, TimersOf, Others;
      log := log.(clash := log.clash || slot in TimersOf(Self()));
      StartTimer(slot, now + delay, delay);
    }

    /** `timer_x.take()` and `timers.cancel`. */
    method StopTimer(slot: Slot, id: nat)
      requires Valid() && fields.Get(slot) == Some(id)
      modifies fields, endpoint.timers
      ensures TimersBecome(old(fields.Ids().Keys) - {slot}, old(Shots()) - {slot})
    {
      hide Owns, Pending, Cleanups, OneCleanup, TimersBelong, Rest, Timer.Contents, Timer.Valid, TimerFields.Ids, TimerFields.Get;
      ghost var w, timers := endpoint.timers.Contents(), fields.Ids();
      fields.Held(slot);
      CancelEffects(timers, w, key, slot);
      FewerBelong(w, endpoint.transactions.Keys, id);
      NoneHeld(timers, slot);
      var removed := endpoint.timers.Cancel(id);
      fields.Set(slot, None);
    }

    method Take(slot: Slot)
      requires Valid()
      modifies fields, endpoint.timers
      ensures Becomes(Disarm(old(View()), {slot}))
    {
      hide Shots, TimerFields.Ids, Owns, Endpoint.View, Endpoint.Valid, TimersOf, Others, TimerFields.Get;
      var field := fields.Get(slot);
      if field.Some? {
        StopTimer(slot, field.value);
      } else {
        NotHeld(slot);
      }
    }

    lemma NotHeld(slot: Slot)
      requires Valid() && fields.Get(slot).None?
      ensures Disarm(View(), {slot}) == View()
    {
      hide TimerFields.Ids, TimerFields.Get, Endpoint.View, Pending, Owns;
      fields.Held(slot);
      PendingHeld(fields.Ids(), endpoint.timers.Contents(), key);
      NoneToTake(View(), slot);
    }

    /** The timers of the given slots, one after the other. */
    method TakeAll(slots: seq<Slot>)
      requires Valid()
      modifies fields, endpoint.timers
      ensures Becomes(Disarm(old(View()), SlotSet(slots)))
    {
      hide Valid, Shots, Self, Others, Endpoint.View, Endpoint.Valid, Disarm;
      ghost var s := View();
      var i := 0;
      DisarmNone(s);
      assert SlotSet(slots[..0]) == {};
      while i < |slots|
        invariant 0 <= i <= |slots|
        invariant Becomes(Disarm(s, SlotSet(slots[..i])))
      {
        DisarmTwice(s, SlotSet(slots[..i]), {slots[i]});
        assert SlotSet(slots[..i + 1]) == SlotSet(slots[..i]) + {slots[i]};
        Take(slots[i]);
        i := i + 1;
      }
      assert slots[..i] == slots;
    }

    // ---- Transitions --------------------------------------------------------------------

    method EnterCalling(now: nat)
      requires Valid() && !isCleanedUp && A !in Shots() && B !in Shots()
      modifies this`log, fields, endpoint.timers
      ensures Becomes(TransactionSpec.EnterCalling(old(View()), now))
    {
      hide Valid, Shots, Others, Endpoint.View, Endpoint.Valid, TimersOf, TimerFields.Ids, Owns, Pending;
      if IsClient(kind) {
        log := log.(callingSince := now);
        if !(connection.Some? && Reliable(connection.value)) {
          Timeout(A, now, endpoint.opt.t1);
        }
        Timeout(B, now, endpoint.opt.t1x64);
      }
    }

    method EnterProvisional(now: nat)
      requires Valid() && !isCleanedUp && (kind.ClientInvite? && fields.timerC.None? ==> C !in Shots())
      modifies this`log, fields, endpoint.timers
      ensures Becomes(TransactionSpec.EnterProvisional(old(View()), now))
    {
      hide Valid, Shots, Others, Endpoint.View, Endpoint.Valid, TimersOf, TimerFields.Ids, Owns, Pending, Arm;
      fields.Held(C);
      if state.Nothing? || state.Calling? {
        log := log.(provisionalSince := now);
      }
      if kind.ClientInvite? {
        TakeAll([A, B]);
        assert SlotSet([A, B]) == {A, B};
        fields.Held(C);
        if fields.timerC.None? {
          Timeout(C, now, endpoint.opt.timerC);
        }
      } else {
        Take(A);
      }
    }

    /** Timers A, B and C stop; the time is noted. */
    method LeaveSetup(now: nat)
      requires Valid() && !isCleanedUp
      modifies this`log, fields, endpoint.timers
      ensures Becomes(Disarm(old(View()).(tx := old(View()).tx.(log := old(log).(finalSince := now))), {A, B, C}))
    {
      hide Valid, Shots, Others, Endpoint.View, Endpoint.Valid, TimerFields.Ids, Owns, Pending, Disarm;
      log := log.(finalSince := now);
      TakeAll([A, B, C]);
      assert SlotSet([A, B, C]) == {A, B, C};
    }

    /** The ACK of this response comes here. */
    method RegisterAck(dialog: DialogId, byCseq: bool)
      requires Valid()
      modifies endpoint`waitingAck, endpoint`waitingAckCseq
      ensures Becomes(RouteAcks(old(View()), dialog, byCseq))
    {
      hide Valid, Shots, Others, Endpoint.View, Endpoint.Valid, TimerFields.Ids, Owns, Pending;
      if byCseq {
        endpoint.InsertWaitingAckCseq(dialog, original.ids.cseq, key);
      }
      endpoint.InsertWaitingAck(dialog, key);
    }

    method EnterAccepted(now: nat) returns (ok: bool)
      requires Valid() && !isCleanedUp && Shots().Keys <= {A, B, C}
      modifies this`log, fields, endpoint.timers, endpoint`waitingAck, endpoint`waitingAckCseq
      ensures Becomes(TransactionSpec.EnterAccepted(old(View()), now).s) && ok == TransactionSpec.EnterAccepted(old(View()), now).ok
    {
      hide Valid, Shots, Others, Endpoint.View, Endpoint.Valid, TimerFields.Ids, Owns, Pending, TimersOf, RouteAcks, ResponseDialog;
      LeaveSetup(now);
      if kind.ServerInvite? {
        Timeout(L, now, endpoint.opt.t1x64);
        Timeout(G, now, endpoint.opt.t1);
        if lastResponse.Some? {
          var dialog := ResponseDialog(lastResponse.value, Server);
          if dialog.None? {
            return false;
          }
          RegisterAck(dialog.value, true);
        }
        return true;
      } else if kind.ClientInvite? {
        Timeout(M, now, endpoint.opt.t1x64);
        return true;
      } else {
        return false;
      }
    }

    method EnterCompleted(now: nat) returns (ok: bool)
      requires Valid() && !isCleanedUp && Shots().Keys <= {A, B, C}
      modifies this`log, fields, endpoint.timers, endpoint`waitingAck, endpoint`waitingAckCseq
      ensures Becomes(TransactionSpec.EnterCompleted(old(View()), now).s) && ok == TransactionSpec.EnterCompleted(old(View()), now).ok
    {
      hide Valid, Shots, Others, Endpoint.View, Endpoint.Valid, TimerFields.Ids, Owns, Pending, TimersOf, RouteAcks, ResponseDialog;
      LeaveSetup(now);
      if kind.ServerInvite? {
        if connection.None? {
          return false;
        }
        if !Reliable(connection.value) {
          Timeout(G, now, endpoint.opt.t1);
        }
        if lastResponse.Some? {
          var dialog := ResponseDialog(lastResponse.value, Server);
          if dialog.None? {
            return false;
          }
          RouteThenArm(View(), dialog.value, D, now, endpoint.opt.t1x64);
          RegisterAck(dialog.value, false);
        }
      }
      Timeout(D, now, endpoint.opt.t1x64);
      return true;
    }

    method ForgetAckRoutes()
      requires Valid()
      modifies endpoint`waitingAck, endpoint`waitingAckCseq
      ensures Becomes(ForgetRoutes(old(View())))
    {
      hide Valid, Shots, Others, Endpoint.View, Endpoint.Valid, TimerFields.Ids, Owns, Pending, ResponseDialog, EndpointSpec.ForgetWaitingAck;
      if lastResponse.Some? {
        var dialog := ResponseDialog(lastResponse.value, RoleOf(kind));
        if dialog.Some? {
          endpoint.ForgetWaitingAck(dialog.value, original.ids.cseq, key);
        }
      }
    }

    method CleanupTimer()
      requires Valid()
      modifies fields, endpoint.timers
      ensures Becomes(Disarm(old(View()), ALL_SLOTS))
      ensures fields.Ids() == map[] && Shots() == map[]
    {
      hide Valid, Shots, Others, Endpoint.View, Endpoint.Valid, TimerFields.Ids, Owns, Pending;
      TakeAll([A, B, C, D, K, G, L, M]);
      assert SlotSet([A, B, C, D, K, G, L, M]) == ALL_SLOTS;
      Emptied();
    }

    lemma Emptied()
      requires Valid() && fields.Ids().Keys * ALL_SLOTS == {}
      ensures fields.Ids() == map[] && Shots() == map[]
    {
      hide TimerFields.Get, TimerFields.Ids, Owns, Timer.Contents, Timer.Valid;
      fields.OnlySlots();
      assert fields.Ids().Keys == fields.Ids().Keys * ALL_SLOTS;
      NoKeys(fields.Ids());
      assert Shots().Keys == {};
      NoKeys(Shots());
    }

    method EnterConfirmed(now: nat)
      requires Valid() && !isCleanedUp
      modifies this`log, fields, endpoint.timers, endpoint`waitingAck, endpoint`waitingAckCseq
      ensures Becomes(TransactionSpec.EnterConfirmed(old(View()), now))
    {
      hide Valid, Shots, Others, Endpoint.View, Endpoint.Valid, TimerFields.Ids, Owns, Pending, TimersOf, ForgetRoutes;
      log := log.(confirmedSince := now);
      CleanupTimer();
      if kind.ServerInvite? {
        ForgetRoutesFacts(View());
        ForgetAckRoutes();
      }
      Timeout(K, now, endpoint.opt.t4);
    }

    // ---- Ending ---------------------------------------------------------------------------

    /** No cleanup is pending for this key. */
    ghost predicate NoCleanup()
      reads endpoint`transactions, endpoint.timers
      requires endpoint.Valid()
    {
      key !in Cleanups(endpoint.timers.Contents())
    }

    /** The message left behind for late arrivals, taken out of its field. */
    method TakeLastMessage(branch: string) returns (last: Option<SipMessage>)
      requires Valid()
      modifies this`lastAck, this`lastResponse
      ensures last == LastMessage(old(Self()), endpoint.opt, branch)
      ensures lastAck == if kind.ClientInvite? then None else old(lastAck)
      ensures lastResponse == if kind.ServerNonInvite? then None else old(lastResponse)
    {
      hide Valid, Shots, Others, Endpoint.View, Endpoint.Valid, TimerFields.Ids, Owns, Pending, MakeAck;
      match kind {
        case ClientInvite =>
          if (state.Proceeding? || state.Trying?) && lastAck.None? {
            if lastResponse.Some? {
              var autoAck := endpoint.opt.autoAck2xx || !Successful(lastResponse.value);
              if autoAck {
                var ack := MakeAck(original, lastResponse.value, branch);
                if ack.Some? {
                  lastAck := ack;
                }
              }
            }
          }
          last := if lastAck.Some? then Some(Req(lastAck.value)) else None;
          lastAck := None;
        case ServerNonInvite =>
          last := if lastResponse.Some? then Some(Resp(lastResponse.value)) else None;
          lastResponse := None;
        case ServerInvite =>
          last := if lastResponse.Some? then Some(Resp(lastResponse.value)) else None;
        case ClientNonInvite =>
          last := None;
      }
    }

    method MarkCleanedUp()
      requires Valid() && fields.Ids() == map[] && Shots() == map[]
      modifies this`isCleanedUp
      ensures isCleanedUp && Becomes(old(View()).(tx := old(View()).tx.(cleanedUp := true)))
    {
      hide Owns, Pending, Endpoint.Valid, TimerFields.Ids;
      isCleanedUp := true;
    }

    method Detach(last: Option<SipMessage>, now: nat)
      requires Valid() && isCleanedUp && NoCleanup()
      modifies endpoint`transactions, endpoint`finishedTransactions, endpoint.timers
      ensures Becomes(old(View()).(ep := EndpointSpec.Detach(old(View()).ep, key, last, now)))
    {
      hide Timer.Valid, Timer.Contents, OneCleanup, TimersBelong, TimerFields.Ids, Owns, Pending, Cleanups, EndpointSpec.Detach, NoTimers, Rest,
        Endpoint.View, Self;
      EndedTimers();
      endpoint.CleanupsView();
      CleanupLeft(fields.Ids(), endpoint.timers.Contents(), key, now + endpoint.opt.t1x64);
      WithoutTwice(endpoint.transactions, key);
      label Before:
      endpoint.DetachTransaction(key, last, now);
      assert Valid() && Others() == old(Others());
      SameSelf@Before();
    }

    /** The object's own part does not depend on the tables. */
    twostate lemma SameSelf()
      requires old(Valid()) && Valid() && old(fields.Ids()) == fields.Ids() && old(Shots()) == Shots()
      requires unchanged(this) && unchanged(tu)
      ensures Self() == old(Self())
    {
      hide Valid, Shots, TimerFields.Ids;
    }

    lemma CleanupsAre()
      requires endpoint.Valid()
      ensures NoCleanup() <==> key !in endpoint.View().cleanups
    {
    }

    method Cleanup(env: Env)
      requires Valid() && (!isCleanedUp ==> NoCleanup())
      modifies this`isCleanedUp, this`lastAck, this`lastResponse, fields, endpoint, endpoint.timers
      ensures Becomes(DoCleanup(old(View()), env))
      ensures isCleanedUp && NoTimers(endpoint.timers.Contents(), key)
    {
      hide Valid, Shots, Others, Endpoint.View, Endpoint.Valid, OneCleanup, NoTimers, Timer.Valid, Timer.Contents, TimerFields.Ids, Owns, Pending, Cleanups,
        LastMessage, ForgetRoutes, EndpointSpec.Detach, Disarm, NoCleanup;
      if isCleanedUp {
        EndedTimers();
        return;
      }
      ghost var s := View();
      CleanupsAre();
      CleanupTimer();
      MarkCleanedUp();
      CleanedOrder(s);
      ForgetRoutesFacts(View());
      if !(kind.ServerInvite? && state.Completed?) {
        ForgetAckRoutes();
      }
      CleanupsAre();
      var last := TakeLastMessage(env.branch);
      Detach(last, env.now);
      EndedTimers();
    }

    method EnterTerminated(env: Env)
      requires Valid() && (!isCleanedUp ==> NoCleanup())
      modifies this`isCleanedUp, this`lastAck, this`lastResponse, fields, endpoint, endpoint.timers, tu
      ensures Becomes(TransactionSpec.EnterTerminated(old(View()), env))
      ensures isCleanedUp && NoTimers(endpoint.timers.Contents(), key)
    {
      hide Valid, Shots, Others, Endpoint.View, Endpoint.Valid, TimerFields.Ids, Owns, Pending, DoCleanup, NoCleanup;
      Cleanup(env);
      tu.Send(Terminate(key));
    }

    /** The wheel is free for the timers of the state being entered. */
    ghost predicate MayEnter(target: State)
      reads this`isCleanedUp, fields, endpoint`transactions, endpoint.timers
      requires Valid()
    {
      && (!isCleanedUp ==> NoCleanup())
      && match target
         case Calling => !isCleanedUp && A !in Shots() && B !in Shots()
         case Trying => !isCleanedUp && (kind.ClientInvite? && fields.timerC.None? ==> C !in Shots())
         case Proceeding => !isCleanedUp && (kind.ClientInvite? && fields.timerC.None? ==> C !in Shots())
         case Accepted => !isCleanedUp && Shots().Keys <= {A, B, C}
         case Completed => !isCleanedUp && Shots().Keys <= {A, B, C}
         case Confirmed => !isCleanedUp
         case _ => true
    }

    method Enter(target: State, env: Env) returns (ok: bool)
      requires Valid() && MayEnter(target)
      modifies this, fields, endpoint, endpoint.timers, tu
      ensures Becomes(TransactionSpec.Enter(old(View()), target, env).s)
      ensures ok == TransactionSpec.Enter(old(View()), target, env).ok
      ensures target.Terminated? ==> isCleanedUp && NoTimers(endpoint.timers.Contents(), key)
    {
      hide Valid, Shots, Others, Endpoint.View, Endpoint.Valid, TimerFields.Ids, Owns, Pending, NoCleanup, TransactionSpec.EnterCalling, TransactionSpec.EnterProvisional, TransactionSpec.EnterAccepted,
        TransactionSpec.EnterCompleted, TransactionSpec.EnterConfirmed, TransactionSpec.EnterTerminated;
      ok := true;
      match target {
        case Nothing =>
        case Calling => EnterCalling(env.now);
        case Trying => EnterProvisional(env.now);
        case Proceeding => EnterProvisional(env.now);
        case Accepted => ok := EnterAccepted(env.now);
        case Completed => ok := EnterCompleted(env.now);
        case Confirmed => EnterConfirmed(env.now);
        case Terminated => EnterTerminated(env);
      }
    }

    /** `transition`; `ok` is false where it returns an error. */
    method Transition(target: State, env: Env) returns (ok: bool)
      requires Valid() && (state != target ==> MayEnter(target))
      modifies this, fields, endpoint, endpoint.timers, tu
      ensures Becomes(TransactionSpec.Transition(old(View()), target, env).s)
      ensures ok == TransactionSpec.Transition(old(View()), target, env).ok
      ensures target.Terminated? && !old(state).Terminated? ==> isCleanedUp && NoTimers(endpoint.timers.Contents(), key)
    {
      hide Valid, Shots, Others, Endpoint.View, Endpoint.Valid, TimerFields.Ids, Owns, Pending, NoCleanup, NoTimers, MayEnter, TransactionSpec.Enter;
      if state == target {
        return true;
      }
      ok := Enter(target, env);
      if ok {
        state := target;
      }
    }

    /** In a disciplined transaction every allowed transition finds the wheel free. */
    lemma EntryFree(target: State)
      requires Valid() && Disciplined(Self()) && (!isCleanedUp ==> NoCleanup()) && (isCleanedUp <==> state.Terminated?)
      requires CanTransition(state, target) && state != target && (target.Calling? ==> state.Nothing?)
      ensures MayEnter(target)
    {
      hide Valid, Shots, Others, Endpoint.View, Endpoint.Valid, TimerFields.Ids, Owns, Pending, NoCleanup, FiredSlots, Distinct;
      fields.Held(C);
      assert Self().pending.Keys <= TimersOf(Self());
    }

    // ---- Server: respond --------------------------------------------------------------------

    /** Fit for the next event. */
    ghost predicate Fit()
      reads this, fields, endpoint, endpoint.timers, tu
    {
      && Valid() && Disciplined(Self()) && (!isCleanedUp ==> NoCleanup()) && (isCleanedUp <==> state.Terminated?)
    }

    method Respond(response: Response, env: Env) returns (ok: bool)
      requires Fit()
      modifies this, fields, endpoint, endpoint.timers, tu
      ensures Becomes(DoRespond(old(View()), response, env).s) && ok == DoRespond(old(View()), response, env).ok
    {
      hide Valid, Shots, Others, Endpoint.View, Endpoint.Valid, TimerFields.Ids, Owns, Pending, NoCleanup, MayEnter, Disciplined, TransactionSpec.Transition, CanTransition;
      if IsClient(kind) {
        return false;
      }
      var target := RespondState(kind, response);
      if !CanTransition(state, target) {
        return false;
      }
      if connection.None? {
        return false;
      }
      if state != target {
        RespondNotCalling(kind, response);
        EntryFree(target);
      }
      lastResponse := Some(response);
      if !env.sendOk {
        return false;
      }
      endpoint.Transmit(Resp(response), true);
      ok := Transition(target, env);
    }

    // ---- Client ---------------------------------------------------------------------------------

    /** The request goes out, when a connection is found. */
    method WriteOriginal(env: Env) returns (streamFailed: bool)
      requires Valid()
      modifies this`connection, endpoint`wire
      ensures Becomes(Written(old(View()), env)) && streamFailed == (connection == Some(Stream) && !env.sendOk)
    {
      hide Valid, Shots, Others, Endpoint.View, Endpoint.Valid, TimerFields.Ids, Owns, Pending;
      if connection.None? {
        connection := env.found;
      }
      streamFailed := false;
      if connection.Some? {
        endpoint.Transmit(Req(original), env.sendOk);
        streamFailed := !env.sendOk && connection.value.Stream?;
      }
    }

    method Send(env: Env) returns (ok: bool)
      requires Fit() && (IsClient(kind) ==> state.Nothing? || state.Calling?)
      modifies this, fields, endpoint, endpoint.timers, tu
      ensures Becomes(TransactionSpec.Send(old(View()), env).s) && ok == TransactionSpec.Send(old(View()), env).ok
    {
      hide Valid, Shots, Others, Endpoint.View, Endpoint.Valid, TimerFields.Ids, Owns, Pending, NoCleanup, MayEnter, Disciplined, TransactionSpec.Transition, MakeResponse;
      if !IsClient(kind) {
        return false;
      }
      if connection.None? {
        if !env.resolved {
          return false;
        }
      }
      if !state.Calling? {
        EntryFree(Calling);
      }
      var streamFailed := WriteOriginal(env);
      ok := Transition(Calling, env);
      if ok && streamFailed {
        tu.Send(Received(Resp(MakeResponse(original, 503).(synthetic := true)), None));
      }
    }

    method StopRetransmissions()
      requires Valid()
      modifies this`retransmission, fields, endpoint.timers
      ensures Becomes(TransactionSpec.StopRetransmissions(old(View())))
    {
      hide Valid, Shots, Others, Endpoint.View, Endpoint.Valid, TimerFields.Ids, Owns, Pending;
      retransmission := false;
      Take(A);
    }

    method PutAck(chosen: Request, conn: Option<Conn>, env: Env)
      requires Valid()
      modifies this`ackBody, this`lastAck, endpoint`wire
      ensures Becomes(TransactionSpec.PutAck(old(View()), chosen, conn, env))
    {
      hide Valid, Shots, Others, Endpoint.View, Endpoint.Valid, TimerFields.Ids, Owns, Pending;
      var ack := chosen;
      var is2xx := lastResponse.Some? && Successful(lastResponse.value);
      if is2xx && ack.body == [] {
        if ackBody.Some? {
          ack := ack.(body := ackBody.value);
          ackBody := None;
        }
      }
      var connection := conn;
      if is2xx {
        var reuse := conn.Some? && Reliable(conn.value);
        if !reuse {
          if env.found.Some? {
            connection := env.found;
          }
        }
      }
      lastAck := Some(ack);
      if connection.Some? {
        endpoint.Transmit(Req(ack), env.sendOk);
      }
    }

    method SendAck(conn: Option<Conn>, env: Env) returns (ok: bool)
      requires Fit()
      modifies this, fields, endpoint, endpoint.timers, tu
      ensures Becomes(TransactionSpec.SendAck(old(View()), conn, env).s) && ok == TransactionSpec.SendAck(old(View()), conn, env).ok
    {
      hide Valid, Shots, Others, Endpoint.View, Endpoint.Valid, TimerFields.Ids, Owns, Pending, NoCleanup, MayEnter, Disciplined, TransactionSpec.Transition, TransactionSpec.PutAck, MakeAck, CachedAckMatches;
      if !kind.ClientInvite? || !(state.Completed? || state.Accepted?) {
        return false;
      }
      var chosen: Option<Request> := None;
      if lastAck.Some? && CachedAckMatches(lastAck.value, lastResponse) {
        chosen := lastAck;
      } else if lastResponse.Some? {
        chosen := MakeAck(original, lastResponse.value, env.branch);
      }
      if chosen.None? {
        return false;
      }
      EntryFree(Terminated);
      PutAckTimers(View(), chosen.value, conn, env);
      PutAck(chosen.value, conn, env);
      if state.Completed? {
        ok := Transition(Terminated, env);
      } else {
        ok := true;
      }
    }

    // ---- Received messages -------------------------------------------------------------------------

    method OnCancel(req: Request, env: Env) returns (up: Option<SipMessage>)
      requires Valid()
      modifies endpoint`wire
      ensures Becomes(TransactionSpec.OnCancel(old(View()), req, env).s) && up == TransactionSpec.OnCancel(old(View()), req, env).up
    {
      hide Valid, Shots, Others, Endpoint.View, Endpoint.Valid, TimerFields.Ids, Owns, Pending, MakeResponse;
      var forwardToTu := false;
      match state {
        case Proceeding => forwardToTu := true;
        case Trying => forwardToTu := true;
        case Completed =>
        case _ =>
          if connection.Some? {
            endpoint.Transmit(Resp(MakeResponse(req, 481)), env.sendOk);
          }
          return None;
      }
      if connection.Some? {
        endpoint.Transmit(Resp(MakeResponse(req, 200)), env.sendOk);
      }
      return if forwardToTu then Some(Req(req)) else None;
    }

    /** A server transaction without a connection takes the request's. */
    method Connect(conn: Option<Conn>)
      requires Fit()
      modifies this`connection
      ensures Fit() && Becomes(Connected(old(View()), conn))
    {
      hide Valid, Shots, Others, Endpoint.View, Endpoint.Valid, TimerFields.Ids, Owns, Pending, NoCleanup, FiredSlots, Distinct, Flying;
      if connection.None? {
        connection := conn;
      }
    }

    /** Retransmission of the last response. */
    method Repeat(env: Env)
      requires Fit()
      modifies this, fields, endpoint, endpoint.timers, tu
      ensures Becomes(TransactionSpec.Repeat(old(View()), env))
    {
      hide Valid, Shots, Others, Endpoint.View, Endpoint.Valid, TimerFields.Ids, Owns, Pending, Disciplined, DoRespond, NoCleanup;
      if lastResponse.Some? {
        var ok := Respond(lastResponse.value, env);
      }
    }

    method OnAck(req: Request, env: Env) returns (up: Option<SipMessage>)
      requires Fit() && (state.Completed? || state.Confirmed?)
      modifies this, fields, endpoint, endpoint.timers, tu
      ensures Becomes(TransactionSpec.OnAck(old(View()), req, env).s) && up == TransactionSpec.OnAck(old(View()), req, env).up
    {
      hide Valid, Shots, Others, Endpoint.View, Endpoint.Valid, TimerFields.Ids, Owns, Pending, Disciplined, MayEnter, NoCleanup, TransactionSpec.Transition;
      if req.verb != Ack || req.ids.cseq != original.ids.cseq {
        return None;
      }
      if state.Completed? {
        EntryFree(Confirmed);
      }
      var ok := Transition(Confirmed, env);
      return Some(Req(req));
    }

    method OnReceivedRequest(req: Request, conn: Option<Conn>, env: Env) returns (up: Option<SipMessage>)
      requires Fit()
      modifies this, fields, endpoint, endpoint.timers, tu
      ensures Becomes(OnRequest(old(View()), req, conn, env).s) && up == OnRequest(old(View()), req, conn, env).up
    {
      hide Valid, Shots, Others, Endpoint.View, Endpoint.Valid, TimerFields.Ids, Owns, Pending, NoCleanup, MayEnter, Disciplined, TransactionSpec.Transition, TransactionSpec.OnCancel,
        TransactionSpec.Repeat, TransactionSpec.OnAck;
      if IsClient(kind) {
        return None;
      }
      Connect(conn);
      if req.verb == Cancel {
        up := OnCancel(req, env);
        return;
      }
      match state {
        case Trying => Repeat(env); return None;
        case Proceeding => Repeat(env); return None;
        case Accepted =>
          if req.verb == Ack && req.ids.cseq == original.ids.cseq {
            EntryFree(Terminated);
            var ok := Transition(Terminated, env);
            return Some(Req(req));
          }
          return None;
        case Completed => up := OnAck(req, env);
        case Confirmed => up := OnAck(req, env);
        case _ => return None;
      }
    }

    /** A success that an upstream hop waits for: handed up, not acknowledged. */
    method OnForwarded2xx(resp: Response, env: Env) returns (up: Option<SipMessage>)
      requires Fit()
      modifies this, fields, endpoint, endpoint.timers, tu
      ensures Becomes(TransactionSpec.OnForwarded2xx(old(View()), resp, env).s)
      ensures up == TransactionSpec.OnForwarded2xx(old(View()), resp, env).up
    {
      hide Valid, Shots, Others, Endpoint.View, Endpoint.Valid, TimerFields.Ids, Owns, Pending, NoCleanup, MayEnter, Disciplined, TransactionSpec.Transition, CanTransition;
      if !state.Accepted? {
        if !CanTransition(state, Accepted) {
          return None;
        }
        EntryFree(Accepted);
        var ok := Transition(Accepted, env);
        if !ok {
          return None;
        }
      }
      lastResponse := Some(resp);
      return Some(Resp(resp));
    }

    method OnReceivedResponse(resp: Response, conn: Option<Conn>, env: Env) returns (up: Option<SipMessage>)
      requires Fit() && Inv(Self(), endpoint.opt, env.now)
      modifies this, fields, endpoint, endpoint.timers, tu
      ensures Becomes(OnResponse(old(View()), resp, conn, env).s) && up == OnResponse(old(View()), resp, conn, env).up
    {
      hide Valid, Shots, Others, Endpoint.View, Endpoint.Valid, TimerFields.Ids, Owns, Pending, NoCleanup, MayEnter, Disciplined, TransactionSpec.Transition, CanTransition,
        TransactionSpec.OnForwarded2xx, TransactionSpec.SendAck, Inv;
      if !IsClient(kind) {
        return None;
      }
      if kind.ClientInvite? && Successful(resp) && MultipleVias(resp) {
        up := OnForwarded2xx(resp, env);
        return;
      }
      var newState := ResponseState(kind, resp, endpoint.opt);
      if !CanTransition(state, newState) {
        return None;
      }
      if !(kind.ClientInvite? && newState.Accepted?) && state == newState {
        if lastResponse.Some? && lastResponse.value.code == resp.code && lastResponse.value.body == resp.body {
          return None;
        }
      }
      EnterState(resp, newState, env);
      if kind.ClientInvite? && (newState.Completed? || newState.Accepted?) {
        var ok := SendAck(conn, env);
      }
      return Some(Resp(resp));
    }

    /** The response is stored and its state entered. */
    method EnterState(resp: Response, newState: State, env: Env)
      requires Fit() && Inv(Self(), endpoint.opt, env.now) && IsClient(kind)
      requires CanTransition(state, newState) && newState == ResponseState(kind, resp, endpoint.opt)
      modifies this, fields, endpoint, endpoint.timers, tu
      ensures Becomes(TransactionSpec.Transition(old(View()).(tx := old(View()).tx.(lastResponse := Some(resp))), newState, env).s)
      ensures !newState.Terminated? ==> Fit()
    {
      hide Valid, Shots, Others, Endpoint.View, Endpoint.Valid, TimerFields.Ids, Owns, Pending, NoCleanup, MayEnter, Disciplined, TransactionSpec.Transition, CanTransition, Inv;
      ghost var s := View().(tx := View().tx.(lastResponse := Some(resp)));
      StoreInv(View(), resp, env);
      if !newState.Terminated? { ResponseEntry(s, newState, env); }
      CleanupsAre();
      if state != newState { EntryFree(newState); }
      lastResponse := Some(resp);
      var ok := Transition(newState, env);
      CleanupsAre();
    }

    // ---- Timer events ---------------------------------------------------------------------------------

    method RetransmitLastResponse(span: nat, env: Env) returns (ok: bool)
      requires Valid() && !isCleanedUp && G !in Shots()
      modifies this`log, fields, endpoint`wire, endpoint.timers
      ensures Becomes(TransactionSpec.RetransmitLastResponse(old(View()), span, env).s)
      ensures ok == TransactionSpec.RetransmitLastResponse(old(View()), span, env).ok
    {
      hide Valid, Shots, Others, Endpoint.View, Endpoint.Valid, TimerFields.Ids, Owns, Pending, TimersOf;
      log := log.(resentResponses := log.resentResponses + 1);
      if lastResponse.Some? {
        if connection.Some? {
          if !env.sendOk {
            return false;
          }
          endpoint.Transmit(Resp(lastResponse.value), true);
        }
      }
      Timeout(G, env.now, Min(span * 2, endpoint.opt.t2));
      return true;
    }

    /** The request goes out again, when a connection is found. */
    method WriteAgain(env: Env) returns (streamFailed: bool)
      requires Valid()
      modifies this`connection, this`log, endpoint`wire
      ensures var conn := if old(connection).None? && env.resolved then env.found else old(connection);
              && Becomes(WriteMsg(old(View()).(tx := old(View()).tx.(conn := conn, log := old(log).(resentRequests := old(log).resentRequests + 1))),
                                  Req(original), conn.Some? && env.sendOk))
              && streamFailed == (conn == Some(Stream) && !env.sendOk)
    {
      hide Valid, Shots, Others, Endpoint.View, Endpoint.Valid, TimerFields.Ids, Owns, Pending;
      if connection.None? && env.resolved {
        connection := env.found;
      }
      log := log.(resentRequests := log.resentRequests + 1);
      streamFailed := false;
      if connection.Some? {
        endpoint.Transmit(Req(original), env.sendOk);
        streamFailed := !env.sendOk && connection.value.Stream?;
      }
    }

    method ResendRequest(span: nat, env: Env)
      requires Valid() && !isCleanedUp && A !in Shots()
      modifies this`connection, this`log, fields, endpoint`wire, endpoint.timers, tu
      ensures Becomes(TransactionSpec.ResendRequest(old(View()), span, env))
    {
      hide Valid, Shots, Others, Endpoint.View, Endpoint.Valid, TimerFields.Ids, Owns, Pending, TimersOf, MakeResponse;
      if !retransmission {
        return;
      }
      var streamFailed := WriteAgain(env);
      if streamFailed {
        tu.Send(Received(Resp(MakeResponse(original, 503).(synthetic := true)), None));
        return;
      }
      Timeout(A, env.now, Min(span * 2, endpoint.opt.t1x64));
    }

    method InformTimeout()
      requires Valid()
      modifies tu
      ensures Becomes(TransactionSpec.Enqueue(old(View()), Synthetic(old(Self()), 408)))
    {
      hide Valid, Shots, Others, Endpoint.View, Endpoint.Valid, TimerFields.Ids, Owns, Pending, MakeResponse;
      tu.Send(Received(Resp(MakeResponse(original, 408).(synthetic := true)), None));
    }

    /** The timer `t` was just taken from the queue. */
    method OnTimer(t: TxTimer, env: Env)
      requires Fit() && t.TxTimer? && t.slot !in Shots()
      modifies this, fields, endpoint, endpoint.timers, tu
      ensures Becomes(TransactionSpec.OnTimer(old(View()), t, env))
    {
      hide Valid, Shots, Others, Endpoint.View, Endpoint.Valid, TimerFields.Ids, Owns, Pending, Disciplined, MayEnter, NoCleanup, Synthetic, TransactionSpec.Transition,
        TransactionSpec.ResendRequest, TransactionSpec.RetransmitLastResponse;
      if state.Calling? || state.Trying? {
        if IsClient(kind) {
          if t.slot.A? {
            ResendRequest(t.span, env);
          } else if t.slot.B? {
            InformTimeout();
          }
        }
      } else if state.Proceeding? {
        if t.slot.C? || (t.slot.B? && kind.ClientNonInvite?) {
          InformTimeout();
        }
      } else if state.Completed? {
        if t.slot.G? {
          var ok := RetransmitLastResponse(t.span, env);
        } else if t.slot.D? || t.slot.K? {
          End(env);
        }
      } else if state.Accepted? {
        if (kind.ServerInvite? && t.slot.L?) || (kind.ClientInvite? && t.slot.M?) {
          End(env);
        } else if kind.ServerInvite? && t.slot.G? {
          var ok := RetransmitLastResponse(t.span, env);
        }
      } else if state.Confirmed? {
        if t.slot.K? {
          End(env);
        }
      }
    }

    method End(env: Env)
      requires Fit() && !state.Terminated?
      modifies this, fields, endpoint, endpoint.timers, tu
      ensures Becomes(TransactionSpec.Transition(old(View()), Terminated, env).s)
    {
      hide Valid, Shots, Others, Endpoint.View, Endpoint.Valid, TimerFields.Ids, Owns, Pending, Disciplined, NoCleanup, TransactionSpec.Transition;
      var ok := Transition(Terminated, env);
    }

    // ---- receive ------------------------------------------------------------------------------------------

    /** What every method but the constructor may count on at time `now`. */
    ghost predicate Sound(now: nat)
      reads this, fields, endpoint, endpoint.timers, tu
    {
      Valid() && Inv(Self(), endpoint.opt, now) && Alive(Self()) && (!isCleanedUp ==> NoCleanup())
    }

    lemma SoundIsFit(now: nat)
      requires Sound(now)
      ensures Fit()
    {
      assert Sane(Self());
      hide Valid, Shots, Endpoint.View, Endpoint.Valid, Disciplined, Paced, NoCleanup;
    }

    /** The head of the queue, taken. */
    method TakeEvent(now: nat) returns (e: TxEvent)
      requires Sound(now) && tu.events != []
      modifies tu
      ensures Becomes(Pop(old(View()))) && e == old(tu.events[0])
      ensures Fit() && Inv(Self(), endpoint.opt, now)
      ensures e.Fired? ==> e.timer.TxTimer? && e.timer.slot !in Shots()
    {
      hide Valid, Shots, Others, Endpoint.View, Endpoint.Valid, TimerFields.Ids, Owns, Pending, Inv, Alive, NoCleanup, Disciplined, FiredSlots;
      ghost var tx := Self();
      PopInv(tx, endpoint.opt, now);
      PoppedTimer(tx, endpoint.opt, now);
      e := tu.Recv();
      assert Self() == tx.(queue := tx.queue[1..]);
      SaneEnds(Self(), endpoint.opt, now);
    }

    /** One iteration of the loop in `receive`. */
    method HandleNext(env: Env) returns (up: Option<SipMessage>)
      requires Sound(env.now) && tu.events != []
      modifies this, fields, endpoint, endpoint.timers, tu
      ensures Becomes(TransactionSpec.Receive(old(View()), env))
      ensures up == Handle(Pop(old(View())), old(tu.events[0]), env).up
    {
      hide Valid, Shots, Others, Endpoint.View, Endpoint.Valid, TimerFields.Ids, Owns, Pending, Inv, Alive, NoCleanup, Disciplined, Fit,
        OnRequest, OnResponse, TransactionSpec.OnTimer, DoRespond, Sound;
      SoundIsFit(env.now);
      var e := TakeEvent(env.now);
      up := None;
      match e {
        case Received(msg, conn) =>
          match msg {
            case Req(req) => up := OnReceivedRequest(req, conn, env);
            case Resp(resp) => up := OnReceivedResponse(resp, conn, env);
          }
        case Fired(t) => OnTimer(t, env);
        case Respond(r) => var ok := Respond(r, env);
        case Terminate(_) =>
      }
      if up.Some? {
        log := log.(delivered := log.delivered + [up.value]);
      }
    }

    /** After an iteration at `env.now`, the next one may start later. */
    lemma SoundAgain(s: TE, env: Env, later: nat)
      requires s.tx.queue != [] && Inv(s.tx, s.ep.opt, env.now) && Alive(s.tx) && (!s.tx.cleanedUp ==> s.tx.key !in s.ep.cleanups)
      requires IsClient(s.tx.kind) ==> !s.tx.state.Nothing?
      requires Valid() && View() == TransactionSpec.Receive(s, env) && env.now <= later
      ensures Sound(later) && (IsClient(kind) ==> !state.Nothing?)
    {
      hide Valid, Shots, Others, Endpoint.View, Endpoint.Valid, TimerFields.Ids, Owns, Pending, Inv, Alive, NoCleanup, TransactionSpec.Receive;
      ReceiveStays(s, env, later);
      CleanupsAre();
    }

    /** `receive`: handles events until one is to be handed up, the transaction ended, or the
        queue is empty.  `envs` are the surroundings of the successive iterations. */
    method Receive(envs: seq<Env>) returns (msg: Option<SipMessage>, ended: bool)
      requires Ordered(envs) && (envs != [] ==> Sound(envs[0].now)) && (IsClient(kind) ==> !state.Nothing?) && Valid()
      modifies this, fields, endpoint, endpoint.timers, tu
      ensures Becomes(Drain(old(View()), envs).s)
      ensures msg == Drain(old(View()), envs).up && ended == Drain(old(View()), envs).ended
    {
      hide Valid, Shots, Others, Endpoint.View, Endpoint.Valid, TimerFields.Ids, Owns, Pending, Inv, Alive, NoCleanup, TransactionSpec.Receive, Handle;
      ghost var s0 := View();
      var i := 0;
      while i < |envs| && tu.events != []
        invariant 0 <= i <= |envs| && Valid() && Others() == old(Others())
        invariant i < |envs| ==> Sound(envs[i].now) && (IsClient(kind) ==> !state.Nothing?)
        invariant Drain(s0, envs) == Drain(View(), envs[i..])
      {
        ghost var s, env := View(), envs[i];
        CleanupsAre();
        DrainStep(s, envs[i..]);
        assert envs[i..][1..] == envs[i + 1..];
        var e := tu.events[0];
        var up := HandleNext(envs[i]);
        if e.Terminate? {
          return None, true;
        }
        if up.Some? {
          return up, false;
        }
        i := i + 1;
        if i < |envs| {
          SoundAgain(s, env, envs[i].now);
        }
      }
      return None, false;
    }
  }

  /** Time does not go back. */
  predicate Ordered(envs: seq<Env>) {
    forall i, j :: 0 <= i < j < |envs| ==> envs[i].now <= envs[j].now
  }

  /** What `receive` leaves and returns. */
  datatype Drained = Drained(s: TE, up: Option<SipMessage>, ended: bool)

  function Drain(s: TE, envs: seq<Env>): Drained
    decreases |envs|
  {
    if envs == [] || s.tx.queue == [] then Drained(s, None, false)
    else
      var up := Handle(Pop(s), s.tx.queue[0], envs[0]).up;
      var s' := TransactionSpec.Receive(s, envs[0]);
      if s.tx.queue[0].Terminate? then Drained(s', None, true)
      else if up.Some? then Drained(s', up, false)
      else Drain(s', envs[1..])
  }

  /** `on_received_message`, with the server transaction it may start. */
  method OnReceivedMessage(endpoint: Endpoint, msg: SipMessage, conn: Conn, sendOk: bool) returns (tx: Transaction?)
    requires endpoint.Valid()
    modifies endpoint, endpoint.transactions.Values
    ensures endpoint.Valid() && (old(endpoint.Separate()) ==> endpoint.Separate())
    ensures var routed := Route(old(endpoint.View()), msg, conn, sendOk);
            match routed.action
            case NewServer(key, original) =>
              && tx != null && fresh(tx) && tx.endpoint == endpoint && tx.key == key && tx.Valid()
              && tx.View() == TE(NewTx(System.ServerKind(original), key, original, Some(conn)),
                                 routed.ep.(table := routed.ep.table + {key}))
            case _ => tx == null && endpoint.View() == routed.ep
  {
    hide Endpoint.Valid, Endpoint.View, Route, Timer.Contents, NoTimers;
    var action := endpoint.OnReceivedMessage(msg, conn, sendOk);
    tx := null;
    if action.NewServer? {
      tx := new Transaction(System.ServerKind(action.request), action.key, action.request, endpoint, Some(conn));
    }
  }

  /** What an event does to the tables that `Separate` speaks of. */
  ghost predicate ApartStep(s: TE, s': TE) {
    && s'.tx.key == s.tx.key && (s.tx.cleanedUp ==> s'.tx.cleanedUp)
    && s'.ep.table == (if s'.tx.cleanedUp != s.tx.cleanedUp then s.ep.table - {s.tx.key} else s.ep.table)
    && (Apart(s.ep) ==> Apart(s'.ep))
  }

  lemma TablesApart(s: TE, s': TE, now: nat)
    requires TablesStep(s, s', now)
    ensures ApartStep(s, s')
  {
    hide RoutesStep, LeftBehind;
  }

  lemma ApartTrans(a: TE, b: TE, c: TE)
    requires ApartStep(a, b) && ApartStep(b, c)
    ensures ApartStep(a, c)
  {
    hide Apart;
  }

  /** Every call of `Transaction` keeps them apart; so does `receive`, however many events it handles. */
  lemma CallApart(s: TE, e: System.Event)
    requires System.IsCall(e) && (e.CallReceive? ==> s.tx.queue != []) && (e.FireTimer? ==> e.slot in s.tx.pending)
    requires s.tx.cleanedUp <==> s.tx.state.Terminated?
    ensures ApartStep(s, System.Called(s, e))
  {
    hide System.Called;
    SystemSteps.CallTables(s, e);
    TablesApart(s, System.Called(s, e), System.TimeOf(e));
  }

  lemma {:induction false} DrainApart(s: TE, envs: seq<Env>)
    requires Ordered(envs) && (IsClient(s.tx.kind) ==> !s.tx.state.Nothing?)
    requires envs != [] ==> Inv(s.tx, s.ep.opt, envs[0].now) && Alive(s.tx) && (!s.tx.cleanedUp ==> s.tx.key !in s.ep.cleanups)
    ensures ApartStep(s, Drain(s, envs).s)
    decreases |envs|
  {
    if envs != [] && s.tx.queue != [] {
      var s' := TransactionSpec.Receive(s, envs[0]);
      SaneEnds(s.tx, s.ep.opt, envs[0].now);
      ReceiveTables(s, envs[0]);
      TablesApart(s, s', envs[0].now);
      ReceiveStays(s, envs[0], if |envs| > 1 then envs[1].now else envs[0].now);
      DrainStep(s, envs);
      hide Inv, Alive, TransactionSpec.Receive, ApartStep, Handle, Drain;
      DrainApart(s', envs[1..]);
      ApartTrans(s, s', Drain(s', envs[1..]).s);
    }
  }

  lemma DrainStep(s: TE, envs: seq<Env>)
    requires envs != [] && s.tx.queue != []
    ensures var up := Handle(Pop(s), s.tx.queue[0], envs[0]).up;
            var s' := TransactionSpec.Receive(s, envs[0]);
            Drain(s, envs) == if s.tx.queue[0].Terminate? then Drained(s', None, true)
                              else if up.Some? then Drained(s', up, false) else Drain(s', envs[1..])
  {
    hide Handle, TransactionSpec.Receive;
  }

  lemma ReceiveStays(s: TE, env: Env, later: nat)
    requires s.tx.queue != [] && Inv(s.tx, s.ep.opt, env.now) && Alive(s.tx) && (!s.tx.cleanedUp ==> s.tx.key !in s.ep.cleanups)
    requires (IsClient(s.tx.kind) ==> !s.tx.state.Nothing?) && env.now <= later
    ensures var t := TransactionSpec.Receive(s, env);
            && t.ep.opt == s.ep.opt
            && Inv(t.tx, s.ep.opt, later) && Alive(t.tx) && (!t.tx.cleanedUp ==> t.tx.key !in t.ep.cleanups)
            && t.tx.kind == s.tx.kind && (IsClient(s.tx.kind) ==> !t.tx.state.Nothing?)
  {
    var t := TransactionSpec.Receive(s, env);
    SaneEnds(s.tx, s.ep.opt, env.now);
    ReceiveGood(s, env);
    ReceiveTables(s, env);
    StateOrder.ReceiveForward(s, env);
    InvLater(t.tx, s.ep.opt, env.now, later);
    hide TransactionSpec.Receive, Inv, Alive, RoutesStep, LeftBehind;
  }

  lemma PoppedTimer(tx: Tx, opt: EndpointOption, now: nat)
    requires Inv(tx, opt, now) && tx.queue != []
    ensures tx.queue[0].Fired? ==> tx.queue[0].timer.TxTimer? && tx.queue[0].timer.slot !in tx.pending
  {
    PopDisciplined(tx);
    assert OkEvent(tx, tx.queue[0]) by { assert Sane(tx); }
    hide Sane, Disciplined, Paced, FiredSlots;
  }

  lemma SaneEnds(tx: Tx, opt: EndpointOption, now: nat)
    requires Inv(tx, opt, now)
    ensures Disciplined(tx) && (tx.cleanedUp <==> tx.state.Terminated?)
  {
    assert Sane(tx);
    hide Disciplined, Paced;
  }

  lemma ResponseEntry(s: TE, target: State, env: Env)
    requires Inv(s.tx, s.ep.opt, env.now) && CanTransition(s.tx.state, target) && !target.Terminated? && IsClient(s.tx.kind)
    requires target.Accepted? || target.Completed? ==> s.tx.kind.ClientInvite?
    requires !target.Calling? && !target.Confirmed?
    ensures var t := TransactionSpec.Transition(s, target, env).s;
            && Disciplined(t.tx) && (t.tx.cleanedUp <==> t.tx.state.Terminated?) && t.ep.cleanups == s.ep.cleanups
            && t.tx.cleanedUp == s.tx.cleanedUp
  {
    TransitionInv(s, target, env);
    TransitionFacts(s, target, env);
    assert Sane(TransactionSpec.Transition(s, target, env).s.tx);
    hide TransactionSpec.Transition, Disciplined, Paced;
  }

  lemma PutAckTimers(s: TE, chosen: Request, conn: Option<Conn>, env: Env)
    ensures var s' := TransactionSpec.PutAck(s, chosen, conn, env);
            s'.tx.state == s.tx.state && s'.ep.cleanups == s.ep.cleanups
  {
  }

  lemma RespondNotCalling(kind: TxType, r: Response)
    ensures !RespondState(kind, r).Calling?
  {
  }

  lemma CleanedOrder(s: TE)
    ensures Disarm(s, ALL_SLOTS).(tx := Disarm(s, ALL_SLOTS).tx.(cleanedUp := true))
            == Disarm(s.(tx := s.tx.(cleanedUp := true)), ALL_SLOTS)
    ensures Disarm(s, ALL_SLOTS).ep == s.ep && Disarm(s, ALL_SLOTS).tx.kind == s.tx.kind && Disarm(s, ALL_SLOTS).tx.state == s.tx.state
  {
  }

  lemma RouteThenArm(s: TE, dialog: DialogId, slot: Slot, now: nat, delay: nat)
    ensures RouteAcks(Arm(s, slot, now, delay), dialog, false) == Arm(RouteAcks(s, dialog, false), slot, now, delay)
  {
    hide TimersOf;
  }

  function SlotSet(slots: seq<Slot>): set<Slot> {
    set x | x in slots
  }

  lemma DisarmNone(s: TE)
    ensures Disarm(s, {}) == s
  {
    assert s.tx.pending - {} == s.tx.pending;
  }
}
