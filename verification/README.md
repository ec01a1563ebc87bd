# The SIP stack's state machines, proved

A Dafny model of the stateful core of a SIP stack (RFC 3261, RFC 6026): the
transaction engine with its timer wheel and the endpoint's shared tables, the
INVITE dialog, the stream framer, URI printing and parsing, and the ordering of
SRV records.

## How it is built

The transaction engine is modelled twice and the two are proved equal.

* **Values** (`EndpointSpec`, `TransactionSpec`): a transaction and the endpoint
  as records, every handler a function of both. Over these, `System` defines an
  endpoint with any number of transactions, driven by its users, the network and
  the clock: a run is any sequence of possible steps, and a fired timer lies in
  the queue for as long as it likes before it is handled. `Consistent` is the
  inductive invariant; all statements "on every run" rest on it.
* **Objects** (`TimerWheel.Timer`, `EndpointInner.Endpoint`,
  `TransactionEngine.Transaction`): the source's fields, maps and loops, updated
  in place. Each method is proved to leave exactly the state the function
  describes, with every other transaction's wheel entries untouched. In the
  values a timer is a slot and a deadline; in the objects it is an id in a
  `timer_x` field and an entry of the wheel, and `TimerOwnership` proves that
  arming, taking and firing keep the two views together.

`Env` gathers what a handler finds around it: the time, whether the write
succeeds, whether an address resolves, the connection found, the fresh Via
branch. Each is arbitrary at each step. `log` in a transaction is a history
(what went up, how often it retransmitted) that no handler reads.

What each operation has to do stands beside the handlers a second time, as tables
that do not call them: `ServerDuties`, `ClientDuties` and `EndpointDuties` say for each event the
next state, what is written, what goes up and which retransmission timer is armed
for when; every call and every incoming message of every run is a row of them. `Heeding` says which responses a client
hands up, `Deadlines` when its timers are due.

Reading order: `TransactionSpec`, `System`, the tables, then the theorems in `RunTheorems`,
`StateOrder`, `ClientStory`, `OneAnswer`, `Agreement`, `LateMessages`,
`AckHistory`, `AckRouting`, `AckDelivery`, `ForkedAcks`, `AckRuns`, `Retransmissions`. The other
cores stand alone: `Framing`, `StreamSplits`, `PrintedMessages`, `HeaderLines` and `FrameBodies`, `UriRoundTrip`,
`SrvOrder`, `DialogLifecycle`.

What the users of the code have to respect is part of `System.Possible`: a
client's key is unused, `send` comes before `receive`, a response answers its
request. Options are arbitrary, except where a theorem needs
`t1x64 == 64 * t1`.

## What turned out not to hold

Each with a run or an input that shows it, and the exact condition.

* A provisional response that is handled while a fired Timer A waits in the
  queue leaves Timer A armed in Trying, where Timer B is stopped and Timer C
  ignored: for every number there is a run on which the INVITE is sent again
  more often (`Findings.RetransmitsWithoutBound`). Exactly then: if no fired
  Timer A waits behind the response, the request is never sent again, on any run
  (`Retransmissions`). The bound of six holds for as long as Timer B is pending
  or in flight.
* A client that handles a provisional response before `send` waits with no
  timer (`Findings.ResponseBeforeSend`); with `send` first nobody is stuck.
* Four methods of the dialog look at the state first and store one later. A late
  second half takes a dialog back into setup, where it can be cancelled, exactly
  when the dialog left setup in between and lives
  (`DialogLifecycle.SetupReenteredExactlyWhen`): a delayed `ringing()` does so to
  an acknowledged server dialog (`RingingUndoesAck`), a provisional response to an
  in-dialog request to a confirmed client dialog (`ProvisionalUndoesConfirm`). The
  second half of a delayed `accept()` takes an acknowledged dialog back to WaitAck
  exactly when a MESSAGE is being handled (`AckUndoneExactlyWhen`,
  `MessageUndoesAck`).
* A frame can lose its body without an error. The decoder goes by the first
  Content-Length line; the parser by the last one, unfolded, above the first
  header line that is empty or not UTF-8. The body survives exactly when it is
  empty or that line says as much (`FrameBodies.BodyExactlyWhen`). With one
  Content-Length line, and a correct one: exactly when every header line down to
  it is UTF-8 and not empty and only blanks continue it (`OneLengthExactlyWhen`).
  Under any start line that parses, `X: ` and the octet FF, `l: 1`, a blank line and `Z` make such
  a frame (`NotUtf8LosesBody`); so does an empty line that ends in LF alone
  (`EmptyLineLosesBody`); `BYE sip:a SIP/2.0` is one (`ByeLosesBody`).
* The decoder's size bound is not one on messages: it is asked only while a message is incomplete.
  A message that arrives in one read passes at any size, and some cut of it into reads is refused
  exactly when it is longer than the bound by more than one octet (`StreamSplits.RefusedAtSomeCut`).
* A key does not always tell Call-ID and From tag apart: a piece with an underscore can move from one
  to the other (`MessageKeys.UnderscoresBlur`). Without underscores in them, or with both equal, two
  requests share a key exactly when they agree in role, method, CSeq number, Call-ID, From tag and
  branch (`MessageKeys.SameKeyExactlyWhen`).
* A URI whose user contains `;` or `?` is not read back: percent-encoding
  leaves both alone and the parser cuts at them (`UriRoundTrip.ReadsExactlyWhen`).
* While weights remain in a group, a record of weight zero is picked only from
  the head of the group, whatever the draw (`SrvOrder.DrawableExactlyWhen`).
* Agreement and at-most-once delivery end with the cached answer: a request starts
  a transaction exactly when its key is neither live nor cached
  (`Findings.StartsExactlyWhen`), and there is a run on which a refused INVITE
  comes again after its cache was cleaned up and is accepted
  (`Findings.LateCopyIsAnsweredAgain`). The theorems exclude this in their premises
  (`NotCleaned`, `Reborn`).
* The ACK of a success can go to another INVITE: the route it follows is the one of
  the last INVITE answered in its dialog under its CSeq number. An ACK with a branch of
  its own arrives exactly when no other INVITE with that CSeq number was answered with a
  success of the same dialog after this one (`AckDelivery.AckArrivesExactlyWhen`); a copy
  of the INVITE over another path, answered with the same tag, is such a one
  (`Findings.AckGoesToTheCopy`).
* `process_invite` confirms its dialog exactly when the final response is a 200:
  another 2xx, acknowledged like it, ends the dialog as a refusal does
  (`InviteDialogs.ConfirmedExactlyWhen`).
* A final response whose write fails stays behind as the last response of a
  transaction in setup (`Findings.FailedWriteIsKept`), and the next retransmitted
  request sends it exactly when that write succeeds
  (`Findings.RepeatEndsSetupExactlyWhen`): the user was told it failed
  (`Findings.RefusalGoesOutLater`).

## Model

| member | source | states |
|---|---|---|
| TimerWheel.PollTakesExactlyTheDue | src/transaction/timer.rs:215-230 | `poll(now)` releases exactly the entries due by `now`, in (deadline, id) order |
| TimerWheel.EveryValueLeavesOnce | src/transaction/timer.rs:50-107 | under any sequence of `timeout_at`, `cancel`, `poll`, every issued value is pending or has left, never both, and left once: by cancel, or by a poll not before its deadline |
| TimerWheel.Timer.TimeoutAt | src/transaction/timer.rs:50-72 | a fresh id; the two maps stay mirror images and gain this entry |
| TimerWheel.Timer.Cancel | src/transaction/timer.rs:74-102 | removes the entry with this id from both maps and returns its value, or nothing |
| TimerWheel.Timer.Poll | src/transaction/timer.rs:104-107 | the loop over the heads returns what the simple wheel says is due, in order, and keeps the rest |
| TransactionKey.KeyDeterminesHead | src/transaction/key.rs:67-94 | equal keys have equal role, method and CSeq number, whatever tags, Call-IDs and branches contain |
| MessageKeys.ResponseFindsItsRequest | src/transaction/key.rs:54-65 | a response made for a request carries the key of the client transaction that sent it |
| MessageKeys.AckOfFailureFindsItsInvite | src/transaction/key.rs:37-52 | at a server, the ACK of a failure and the CANCEL have the key of their INVITE |
| MessageKeys.KeysKeepApart | src/transaction/key.rs:37-94 | requests of different roles, CSeq numbers or methods (ACK, CANCEL and INVITE at a server aside) never share a key |
| MessageKeys.SameKeyExactlyWhen | src/transaction/key.rs:67-94 | two requests whose Call-IDs and From tags are equal or have no underscore share a key exactly when they agree in role, method (ACK, CANCEL and INVITE at a server being one), CSeq number, Call-ID, From tag and branch, or sender where there is none |
| MessageKeys.UnderscoresBlur | src/transaction/key.rs:78-90 | different Call-IDs and From tags with one key |
| SystemSteps.StepConsistent | src/transaction/transaction.rs:203-1720 | every possible step of users, network and clock keeps the invariant of the endpoint and all its transactions |
| RunTheorems.TimersOwned | src/transaction/transaction.rs:1168-1611 | on every run each kind of timer of a transaction has at most one instance, pending or in flight, recorded in its field and allowed in its state; an ended transaction has none pending |
| RunTheorems.NobodyStuck | src/transaction/transaction.rs:1168-1584 | on every run Calling and non-INVITE Trying/Proceeding have Timer B or the local final it caused, client Accepted has M, server Accepted/Completed/Confirmed have L/D/K |
| RunTheorems.DrainedMeansDone | src/transaction/transaction.rs:1168-1328 | with wheel and queue drained, only the states that wait for the peer or the user are left |
| RunTheorems.RequestsBounded | src/transaction/transaction.rs:1222-1228 | at most six retransmissions of a request while Timer B is pending or in flight, however late timers are handled |
| Retransmissions.SettledExactlyWhen | src/transaction/transaction.rs:1330-1400 | a provisional response leaves a client without any Timer A exactly when no fired one waits behind it in the queue |
| Retransmissions.NeverSentAgain | src/transaction/transaction.rs:1168-1228 | and then, on every run, the request is never sent again |
| Retransmissions.SentAgainExactlyWhen | src/transaction/transaction.rs:1168-1228 | in Trying, an event sends the request again exactly when it is Timer A and retransmission was not stopped |
| RunTheorems.ResponsesBounded | src/transaction/transaction.rs:1140-1166 | with T2 = 8*T1, at most ten retransmissions of a final response of a server INVITE |
| RunTheorems.TablesAnchored | src/transaction/endpoint.rs:319-343 | on every run the cached messages are those with a pending cleanup, the live keys those of transactions not ended, and every ACK route points to a live or a cached key |
| RunTheorems.NothingLeaks | src/transaction/endpoint.rs:555-567 | when all transactions have ended and the cleanups have run, all four tables are empty |
| StateOrder.RunAdvances | src/transaction/transaction.rs:542-580 | on every run the rank of a state never decreases, Terminated is absorbing, and a transaction is cleaned up exactly when it is Terminated |
| RunTheorems.DetachedOnce | src/transaction/transaction.rs:1647-1712 | on every run the number of events that take a transaction's key out of the table is one when it has ended or was dropped, and none before |
| ServerDuties.ServerFollowsTable | src/transaction/transaction.rs:886-1012 | on every run, each event of a server transaction does what its row says: state, octets on the wire (a response, a retransmission of the last one, 200 or 481 for a CANCEL), what goes up (ACK, and CANCEL in Trying and Proceeding), the last response, Timer G armed for when |
| ServerDuties.ServerWritesWhatIsDue | src/transaction/transaction.rs:1140-1166 | on every run, what a server transaction wrote is exactly what its events were due, in order, and the retransmissions it counts are its Timer G events in Completed and Accepted, split into those written and those not |
| ClientDuties.ClientFollowsTable | src/transaction/transaction.rs:1014-1228 | on every run, each event of a client transaction (its successes with To tag and Contact) does what its row says: state, request, retransmission or ACK on the wire, what goes up, the local 408 or 503, Timer A armed for when |
| ClientDuties.ClientWritesWhatIsDue | src/transaction/transaction.rs:1168-1228 | on every run, what a client transaction wrote is exactly what its events were due, in order, and the retransmissions it counts are its Timer A events, split into those written and those not |
| ClientDuties.StoppedForGood | src/transaction/transaction.rs:855-860 | once `stop_retransmissions` was called, no run retransmits the request |
| ClientDuties.DroppedClientLeavesAck | src/transaction/transaction.rs:1647-1712 | dropping a client takes its key from the table and leaves behind for 64*T1 exactly: in Accepted its last ACK, in Trying and Proceeding of an INVITE with a response the ACK of that, else nothing |
| EndpointDuties.EndpointFollowsTable | src/transaction/endpoint.rs:368-548 | on every run an incoming message goes to the one transaction of its key, or is answered from the cache (an ACK with the To tag of the response), or with 481, or starts a transaction that has done nothing yet, or is lost, as the table says |
| EndpointDuties.ClientStarts | src/transaction/transaction.rs:204-276 | on every run a new client is live under its key and has done nothing yet; nothing else changes |
| Deadlines.DueOnTime | src/transaction/transaction.rs:1330-1584 | on every run a pending Timer B is due 64*T1 after entering Calling, C `timerC` after the first provisional, D, L and M 64*T1 after the first final, K T4 after entering Confirmed; an INVITE client in Trying or Proceeding holds a C |
| Deadlines.NotedOnTime | src/transaction/transaction.rs:1330-1584 | on every run these four times are noted at the events that enter those states, and by no other |
| ClientStory.TraceShape | src/transaction/transaction.rs:1014-1135 | on every run a client hands up provisionals, then nothing, one failure, or one success (one or more for an INVITE), and nothing after |
| Heeding.HandsUpExactlyWhen | src/transaction/transaction.rs:1101-1109 | a client in Calling, Trying or Proceeding hands up a response exactly unless it is a 100 in Proceeding, or a provisional one that repeats code and body of the last in the state that one led to; where it goes next |
| Heeding.HeededOnRuns | src/transaction/transaction.rs:1014-1135 | on every run, what a client handed up is what it handled less these, and less what came after its first final, successes of an INVITE aside |
| OneAnswer.RunOneClass | src/transaction/transaction.rs:481-540 | every run keeps the finals on the wire for a key in one class, the class the live server transaction is committed to and the cached answer has |
| OneAnswer.NeverBothClasses | src/transaction/transaction.rs:542-580 | on every run, the finals that a server INVITE ever puts on the wire are all 2xx or all not, whether sent by the user, a timer, a retransmission or the cache |
| Agreement.BothSidesAgree | src/transaction/transaction.rs:1014-1135 | with a network that loses, duplicates and reorders, when a client INVITE handed up a final of the server's, every final to it that the server ever wrote is of the same class, and so is what a live server transaction is committed to |
| Agreement.AcceptedFacesAccepted | src/transaction/transaction.rs:542-580 | a client INVITE in Accepted never faces a server transaction in another state than Accepted, nor a failure on the server's wire, whether that transaction lives or not |
| LateMessages.CacheLasts | src/transaction/endpoint.rs:319-343 | until its cleanup timer fires, however late, no step changes or drops a cached message |
| LateMessages.NoSecondTransaction | src/transaction/endpoint.rs:368-548 | ACK and CANCEL never create a transaction, nor does a request whose key is live or cached |
| LateMessages.ServerHandsUp | src/transaction/transaction.rs:886-1012 | a server transaction hands up nothing but ACK and CANCEL after its request |
| LateMessages.AnswerLeftBehind | src/transaction/transaction.rs:1647-1712 | a server transaction of any kind that ends or is dropped holding a response leaves exactly that response cached, with its cleanup after 64*T1 |
| LateMessages.AtMostOnceUpward | src/transaction/endpoint.rs:399-421 | on every run, from the event that ends a server transaction of any kind to the event that cleans up its key, no request with that key creates a transaction or goes up, and each is answered with the last response |
| LateMessages.AtMostOnceFor64T1 | src/transaction/endpoint.rs:555-567 | that cleanup is not among the events of the next 64*T1 |
| LateMessages.CompletedRefines | src/transaction/endpoint.rs:422-482 | every step of the endpoint is a step of the Completed state of section 17.1.1.2 of RFC 3261 for a cached ACK: retransmitted finals are acknowledged, none goes up, and only Timer D ends it, however late it fires |
| LateMessages.AcknowledgedUntilTimerD | src/transaction/endpoint.rs:422-482 | after any run without the cleanup, a retransmitted failure is answered with the cached ACK and changes no transaction |
| AckHistory.FailureEntersCompleted | src/transaction/transaction.rs:1014-1135 | on every run, a failure handled by a waiting client INVITE goes up once, is acknowledged, and puts the endpoint in that Completed state with that ACK |
| AckRouting.RouteHasTheCSeq | src/transaction/transaction.rs:1435-1452 | on every run a route for (dialog, n) names a server INVITE with CSeq number n |
| AckRouting.AckTouchesOnlyItsInvite | src/transaction/endpoint.rs:383-397 | an incoming ACK changes no transaction but a server INVITE with its CSeq number |
| AckRouting.AckEndsItsInvite | src/transaction/transaction.rs:946-1008 | an Accepted server INVITE ends on the ACK with its CSeq number and hands it up; another ACK leaves it as it is |
| AckRouting.ForgetKeepsOthers | src/transaction/endpoint.rs:630-649 | forgetting a route removes this key's routes and no other transaction's |
| AckDelivery.RouteExactlyWhen | src/transaction/transaction.rs:1435-1452 | on every run, the answer of a server INVITE registers a route for its dialog and CSeq number, and the waiting INVITE still has it exactly when no other INVITE with that CSeq number was answered in the same dialog since |
| AckDelivery.RunHoldsExactlyWhen | src/transaction/endpoint.rs:630-649 | over any run, whatever other transactions register or forget, overlapping re-INVITEs included: a waiting INVITE has the route at the end exactly when it had it at the start and no other INVITE took it; a route once lost is never regained |
| AckDelivery.MadeAckAcknowledges | src/transaction/message.rs:259-394 | the ACK made for a 2xx has that answer's dialog and CSeq number, and its target and route, value by value, are the Record-Route reversed |
| SipMessages.AckFollowsRecordRoute | src/transaction/message.rs:259-394 | of n Record-Route values: with none the ACK of a 2xx goes to the Contact; with `lr` on the last one it goes to the Contact and its Route i is Record-Route n-1-i; otherwise it goes to the last value, Route i is Record-Route n-2-i and the Contact comes last |
| AckDelivery.AckArrivesExactlyWhen | src/transaction/endpoint.rs:383-397 | on every run, from the answer on: an ACK of it with a branch of its own is queued at the answered transaction exactly when no other INVITE took the route |
| AckDelivery.AckEndsWhatItAcknowledges | src/transaction/endpoint.rs:383-397 | on every run, from the answer on, the route not taken: an ACK of it, over whatever branch and however late, goes to the answered transaction alone; and on every run from there, whatever else happens, once the transaction has handled its queue up to it (and its user did not drop it) it has ended, by the ACK, which goes up, or by something before |
| ForkedAcks.FailureIsAcked | src/transaction/transaction.rs:776-792 | the first failure ends a client INVITE, goes up, its ACK is written and stays behind for 64*T1 |
| ForkedAcks.SuccessIsAcked | src/transaction/transaction.rs:644-793 | every 2xx for this hop goes up and is acknowledged with its own To tag: the kept ACK for a retransmission, a new one for a fork |
| ForkedAcks.ArmedBodyGoesOut | src/transaction/transaction.rs:644-793 | the ACK of a success, new or repeated, takes the armed body exactly when it has none itself, and then the body is armed no more |
| ForkedAcks.ForwardedIsNotAcked | src/transaction/transaction.rs:1031-1045 | a 2xx with further Via hops goes up and no ACK is written |
| AckRuns.EachForkAcknowledged | src/transaction/transaction.rs:1613-1636 | on every run, whatever else happens in between: of a client INVITE that has not ended, the successes handled have all gone up, in order, and the ACKs it put on the wire are exactly one per success for this hop (and per ACK its user asked for) whose write succeeds, in order, each with that success's To tag; the successes have a To tag and a Contact |
| ForkDrainer.Drainer.EndForkedBranch | src/dialog/invite_dialog.rs:430-468 | a 2xx with a To tag that is neither the confirmed one nor met before is sent its BYE, when it has a Contact; nothing else is sent |
| ForkDrainer.Drainer.ByeForkedBranch | src/dialog/dialog.rs:1419-1468 | a BYE to the fork's Contact over its reversed Record-Route with its To tag and the next CSeq number; without a Contact no number is taken |
| ForkDrainer.ByeFollowsRecordRoute | src/dialog/dialog.rs:1419-1468 | Route i of a fork's BYE is Record-Route n-1-i, and it goes to the Contact in that fork's dialog |
| ForkDrainer.Drainer.Drain | src/dialog/invitation.rs:729-740 | the BYEs sent are one for the first 2xx of each branch other than the confirmed one that has a Contact, in order, with rising CSeq numbers |
| ForkDrainer.OneByePerBranch | src/dialog/invite_dialog.rs:452-462 | no two of these BYEs have the same To tag |
| ForkDrainer.EveryForkIsEnded | src/dialog/invite_dialog.rs:462-467 | the first 2xx of every such branch is answered by one of them |
| TimerOwnership.TimeoutEffects | src/transaction/transaction.rs:1330-1584 | storing a new timer's id in a free field keeps every wheel entry of the key recorded in the matching field, and other keys' entries as they were |
| TimerOwnership.CancelEffects | src/transaction/transaction.rs:1586-1611 | so does taking an id out of its field and cancelling it, even when the timer has fired |
| TimerOwnership.FireOwns | src/transaction/endpoint.rs:319-343 | so does the wheel's release of an entry: it was recorded under its kind |
| ReadyTimers.PolledCleanups | src/transaction/endpoint.rs:319-343 | after a poll, the cleanups left in the wheel are those the released ones did not run |
| EndpointInner.Endpoint.OnReceivedMessage | src/transaction/endpoint.rs:368-548 | the tables, the wire and the one channel that gets the message are as `EndpointSpec.Route` says; no other channel changes; a key for which a transaction is to be started has no timer and is not cached; channels stay separate |
| EndpointInner.Endpoint.DetachTransaction | src/transaction/endpoint.rs:555-567 | the key is no longer live; a last message is cached with a cleanup timer after 64*T1; only live transactions have timers in the wheel |
| EndpointInner.Endpoint.ForgetWaitingAck | src/transaction/endpoint.rs:630-649 | both routes go if and only if they belong to this key |
| EndpointInner.Endpoint.AttachTransaction | src/transaction/endpoint.rs:550-553 | the key is live with this channel; with a key not cached and a new channel, each transaction keeps its own channel and no live key has a cleanup pending |
| EndpointInner.Endpoint.ProcessTimer | src/transaction/endpoint.rs:319-343 | each channel receives its released timers in deadline order, each released cleanup removes its key from all four tables; so `Separate`, which it relies on, holds again |
| TransactionEngine.Transaction.constructor | src/transaction/transaction.rs:204-276 | a new transaction is live under its key and owns no timer |
| TransactionEngine.OnReceivedMessage | src/transaction/endpoint.rs:368-548 | the server transaction an incoming request starts is attached, valid and owns no timer, with no assumption but that the endpoint is valid; the endpoint's transactions stay separate |
| TransactionEngine.Transaction.OtherStays | src/transaction/transaction.rs:1586-1611 | whatever one transaction does, another one of the same endpoint stays valid, with its timers and its channel |
| TransactionEngine.Transaction.SeparateStays | src/transaction/transaction.rs:1647-1712 | after an event that keeps the tables apart, the endpoint's transactions are separate still, each with its own channel, and no cleanup is pending for this one while it lives |
| TransactionEngine.CallApart | src/transaction/transaction.rs:203-1720 | every call of a transaction is such an event: no live key gets a cleanup, and a cleanup is always that of a cached message |
| TransactionEngine.DrainApart | src/transaction/transaction.rs:825-851 | so is `receive`, however many events it handles |
| TransactionEngine.Transaction.Send | src/transaction/transaction.rs:278-367 | the request is written, setup timers run, and a failed stream write queues a local 503 |
| TransactionEngine.Transaction.Respond | src/transaction/transaction.rs:481-540 | a refused transition writes nothing; otherwise the response is kept, written, and its state entered |
| TransactionEngine.Transaction.SendAck | src/transaction/transaction.rs:644-793 | the chosen ACK takes the armed body, is written, and ends a failed INVITE |
| TransactionEngine.Transaction.StopRetransmissions | src/transaction/transaction.rs:855-860 | Timer A is stopped, and for good |
| TransactionEngine.Transaction.OnReceivedRequest | src/transaction/transaction.rs:886-1012 | does what `TransactionSpec.OnRequest` says; `ServerDuties` gives its table |
| TransactionEngine.Transaction.OnReceivedResponse | src/transaction/transaction.rs:1014-1135 | does what `TransactionSpec.OnResponse` says; `ClientDuties` and `Heeding` give its table |
| TransactionEngine.Transaction.RetransmitLastResponse | src/transaction/transaction.rs:1140-1166 | the last response is written again and Timer G armed with twice its span, up to T2, unless the write failed, as `ServerDuties` has it |
| TransactionEngine.Transaction.OnTimer | src/transaction/transaction.rs:1168-1328 | each fired timer does in each state what the tables say, stale ones included |
| TransactionEngine.Transaction.Transition | src/transaction/transaction.rs:1330-1584 | state, timers (due as `Deadlines` says), routes and tables after entering a state, or after failing half-way; after Terminated no timer of the key is in the wheel |
| TransactionEngine.Transaction.CleanupTimer | src/transaction/transaction.rs:1586-1611 | every field is empty and no wheel entry for the key is left |
| TransactionEngine.Transaction.Cleanup | src/transaction/transaction.rs:1647-1712 | done once: no timer of the key is left in the wheel, routes forgotten, key detached, the late message left behind |
| TransactionEngine.Transaction.Receive | src/transaction/transaction.rs:825-851 | events are handled in order until one is handed up, the transaction has ended, or the queue is empty |
| Findings.TimerAOvertakes | src/transaction/transaction.rs:1168-1228 | a run from an empty endpoint on which Timer A fires before the 100 is handled, and is armed again in Trying |
| Findings.RetransmitsWithoutBound | src/transaction/transaction.rs:1222-1228 | for every number a run on which such a client sends its request again more often, Timer B stopped, Timer C fired and ignored |
| Findings.ResponseBeforeSend | src/transaction/transaction.rs:1014-1135 | a provisional handled before `send` leaves a non-INVITE client waiting without any timer |
| Findings.StartsExactlyWhen | src/transaction/endpoint.rs:506-545 | an incoming request starts a transaction exactly when it is neither ACK nor CANCEL, has a From tag, and its key is neither live nor cached |
| Findings.LateCopyIsAnsweredAgain | src/transaction/endpoint.rs:319-343 | a run on which a refused INVITE comes again after its cleanup and is accepted |
| Findings.AckGoesToTheCopy | src/transaction/transaction.rs:1435-1452 | a run on which an INVITE and its copy over another path are answered in one dialog, and the ACK of the first answer leaves its transaction waiting |
| Findings.RepeatEndsSetupExactlyWhen | src/transaction/transaction.rs:886-945 | a retransmitted request takes a server INVITE out of setup exactly when a final response whose write failed is kept and the write succeeds now |
| Findings.RefusalGoesOutLater | src/transaction/transaction.rs:481-540 | a run on which a refusal reported as failed goes out with the next copy of the INVITE |
| DialogLifecycle.DialogInner.Transition | src/dialog/dialog.rs:1707-1741 | stored state and notifications after one requested transition |
| DialogLifecycle.NotificationsTellTheState | src/dialog/dialog.rs:1707-1741 | for every sequence of requests the stored state is the last state-changing notification, and Terminated is notified at most once, last, exactly when the dialog is terminated |
| DialogLifecycle.ClientPhases | src/dialog/dialog.rs:1311-1326 | on every undisturbed run of a client dialog's tasks: once out of Calling, Trying and Early, it can never be cancelled again |
| DialogLifecycle.SetupReenteredExactlyWhen | src/dialog/dialog.rs:1707-1741 | a step takes a dialog back into setup exactly when it is the late second half of a call that saw it there, and the dialog lives |
| DialogLifecycle.ProvisionalUndoesConfirm | src/dialog/dialog.rs:1311-1326 | a run on which the 1xx to an in-dialog request does so to a confirmed client dialog |
| DialogLifecycle.AcknowledgedStays | src/dialog/invite_dialog.rs:128-140 | on every undisturbed interleaving of the half steps with the transaction's task, an acknowledged dialog never waits for an ACK again, and setup is never re-entered |
| DialogLifecycle.AckUndoneExactlyWhen | src/dialog/dialog.rs:1707-1741 | the exact steps that undo an acknowledgement |
| DialogLifecycle.MessageUndoesAck | src/dialog/invite_dialog.rs:884-893 | a run in which a MESSAGE lets a late `accept` do so |
| DialogLifecycle.RingingUndoesAck | src/dialog/invite_dialog.rs:101-124 | a run in which a late `ringing` does |
| DialogLifecycle.QueueHoldsWhatWasAsked | src/dialog/invite_dialog.rs:101-190 | over any steps, the transaction is asked to send the responses of `ringing` in setup, of `accept`, and of `reject` before confirmation and end, in order, and nothing else; a client asks for nothing |
| InviteDialogs.InviteDialog.Ringing | src/dialog/invite_dialog.rs:101-124 | a server in setup queues the response and notifies Early with it; nothing for a client or after setup |
| InviteDialogs.InviteDialog.Accept | src/dialog/invite_dialog.rs:128-140 | a server queues the response and waits for the ACK; nothing for a client |
| InviteDialogs.InviteDialog.Reject | src/dialog/invite_dialog.rs:166-190 | a server dialog neither confirmed nor ended queues exactly `Respond(resp)` and ends as UasDecline; nothing else changes otherwise |
| InviteDialogs.InviteDialog.ProcessInvite | src/dialog/invite_dialog.rs:271-395 | the receive loop takes the steps of the client's task, up to the first final that is not retried |
| InviteDialogs.InviteStepsPossible | src/dialog/invite_dialog.rs:271-395 | whatever the transaction hands up, these steps keep the order the run theorems ask for |
| InviteDialogs.ConfirmedExactlyWhen | src/dialog/invite_dialog.rs:355-389 | over all messages, the dialog is confirmed with it exactly when the first final not retried is a 200, terminated with its reason when it is another, and else shows how far the provisionals got |
| InviteDialogs.InviteDialog.OnMidProvisional | src/dialog/dialog.rs:1311-1326 | both halves of reading a provisional response to an in-dialog request; nothing out of setup |
| InviteDialogs.InviteDialog.HandleInvite | src/dialog/invite_dialog.rs:942-998 | the receive loop takes the steps of the server's task up to the first ACK or CANCEL, whose 487 may fail; a 2xx without an ACK ends the session |
| InviteDialogs.InviteOutcome | src/dialog/invite_dialog.rs:942-998 | from any dialog state, over any messages: an ACK first confirms a living dialog, a CANCEL first is answered with 487 and ends it as UacCancel, and with neither a dialog that waited for the ACK ends as Timeout exactly when the transaction ended |
| InviteDialogs.CallingIsTold | src/dialog/invite_dialog.rs:944-953 | before that, a dialog in Calling notifies Calling and sends 100 unless a response was sent |
| InviteDialogs.InviteDialog.AwaitReinviteAck | src/dialog/invite_dialog.rs:906-940 | the second half of a re-INVITE, whatever ran in between: the ACK confirms the dialog, a success without one ends it |
| InviteDialogs.InviteDialog.HandleReinvite | src/dialog/invite_dialog.rs:906-940 | the start and the end of a re-INVITE, one after the other |
| DialogLifecycle.SessionEndsExactlyWhen | src/dialog/dialog.rs:1707-1741 | over any undisturbed interleaving, a confirmed session is ended by a BYE, the end of the call, and at a server a late CANCEL or a `reject` that meets a MESSAGE, and by nothing else; the first of these gives the reason |
| DialogLifecycle.RequestOutcome | src/dialog/invite_dialog.rs:804-904 | an in-dialog INFO, OPTIONS, UPDATE, REFER, NOTIFY or MESSAGE is notified, and afterwards the session is confirmed unless something ended it in between, and then it has that reason |
| InviteDialogs.ReinviteOutcome | src/dialog/dialog.rs:1476-1499 | on every undisturbed run, with any steps of the other tasks between the start and the end of a re-INVITE: the session is over exactly when one of them ended it, with its reason, or the re-INVITE was accepted and its transaction ended without an ACK, as Timeout; if it goes on, the ACK confirms it |
| SipCodec.ScanLength | src/transport/stream.rs:73-118 | the scan finds the value of the first Content-Length line, 0 without one, or the error of a malformed one |
| SipCodec.StreamConnection.DecodeNext | src/transport/stream.rs:58-133 | a keepalive, a whole message, or nothing yet is taken from the buffer, or an error is reported |
| SipCodec.StreamConnection.ServeLoop | src/transport/stream.rs:211-247 | over any reads, what is emitted and left in the buffer is what decoding after each read gives |
| MessageParser.ParseMessage | src/sip/parser.rs:9-75 | start line, folded headers and body of a message, or failure |
| Framing.WholeFrame | src/transport/stream.rs:58-133 | a frame at the front of the buffer is decoded whole, whatever follows |
| Framing.PartFrame | src/transport/stream.rs:58-133 | any proper prefix of a frame is left in the buffer, without error |
| Framing.ChunkingDoesNotMatter | src/transport/stream.rs:211-247 | for any frames and any split into reads, exactly their messages come out in order, no error, and the buffer ends empty |
| Framing.PiecesDecode | src/transport/stream.rs:58-72 | frames, keepalive requests and keepalive answers come out as what they are, in order |
| StreamSplits.AnyReads | src/transport/stream.rs:211-247 | any stream of messages within the bound, well-formed or not, split into any reads: the same messages come out as of the whole, it fails exactly when the whole does, and else leaves the same rest |
| StreamSplits.RefusedAtSomeCut | src/transport/stream.rs:121-131 | some cut of a message is refused exactly when it is longer than the bound by more than one octet |
| HeaderLines.ParsesExactlyWhen | src/sip/parser.rs:9-75 | exactly which text parses, and into what: the first line; a header for each line with a colon down to the first that is empty or not UTF-8, with its continuations joined by one space; the octets below the blank line up to the length said last |
| FrameBodies.BodyExactlyWhen | src/sip/parser.rs:9-75 | the parsed body is the framed body octet for octet exactly when that is empty or the last Content-Length line above the first empty or non-UTF-8 header line, unfolded, says as much |
| FrameBodies.OneLengthExactlyWhen | src/sip/parser.rs:25-53 | with one Content-Length line in the head and a body: exactly when the header lines down to it are UTF-8 and not empty, and it is continued by blanks at most |
| FrameBodies.NotUtf8LosesBody | src/sip/parser.rs:147-180 | under any start line, a frame with one, correct Content-Length whose body is lost to a header line that is not UTF-8 |
| FrameBodies.EmptyLineLosesBody | src/sip/parser.rs:26-28 | another, lost to an empty line that ends in LF alone |
| FrameBodies.ByeLosesBody | src/sip/parser.rs:77-101 | both, octet by octet, for a BYE |
| PrintedMessages.PrintedParses | src/sip/parser.rs:9-75 | a printed message parses to the same start line, headers and body |
| PrintedMessages.StreamRoundTrip | src/transport/stream.rs:136-145 | any messages encoded one after the other and read in any pieces come out as they went in, bodies octet for octet |
| SipUri.PercentEncode | src/sip/uri.rs:57-68 | the loop encodes each character on its own |
| UriRoundTrip.EncodeReadsBack | src/sip/uri.rs:57-76 | percent-decoding what was encoded gives back every octet, whatever is left alone |
| UriRoundTrip.EncodedText | src/sip/uri.rs:57-76 | nothing appears in it but letters, digits, what is left alone, and escapes |
| SipUri.ParseParams | src/sip/uri.rs:598-612 | the loop reads the pieces between semicolons, skipping empty ones, and fails when one fails |
| UriRoundTrip.UriReads | src/sip/uri.rs:530-588 | parsing what was printed gives back every plain URI |
| UriRoundTrip.WrappedReads | src/sip/uri.rs:530-534 | so does parsing it between angle brackets and white space |
| UriRoundTrip.ReadsExactlyWhen | src/sip/uri.rs:463-486 | over users that percent-encoding leaves alone, exactly those without `;` and `?` are read back |
| SrvOrder.Walk | src/resolver/sip_resolver.rs:343-352 | for every draw the walk stops inside the group, at the first record whose cumulated weight reaches the draw |
| SrvOrder.DrawableExactlyWhen | src/resolver/sip_resolver.rs:338-358 | while weights remain, exactly the head and the records with weight can be picked |
| SrvOrder.OrderSrvRecords | src/resolver/sip_resolver.rs:315-365 | for all draws, a permutation sorted by priority in which the records of each priority form a weighted drawing of that group |

## Left out

- Sockets, TLS, WebSocket, DNS, the transport layer and the target locator: a send is a message on the wire, or lost, and a connection is reliable or not.
- Message, transport and event inspectors are the identity.
- Each handler is one atomic step; cancelled futures, the wake-ups of `wait_for_ready` and a channel whose receiver is gone are not modelled. The dialog methods that look at the state or send first and store a state later (`ringing`, `accept`, the start of `handle_invite`, the provisional branch of `send_dialog_request`) take two steps; every other dialog step is atomic, `reject` included, whose guard and transition a confirmation could separate.
- `on_first_write`, `sent_ack`, `destination`, `retire_connection`, Session-ID, and the choice of an address for a response.
- Machine arithmetic: `headers_end + 4 + content_length` of the decoder is unbounded here, while the source adds `usize` values, which overflow for a Content-Length near 2^64. The 64-bit task id never wraps; the 32-bit sum of SRV weights never overflows (it would need more than 65537 records of full weight).
- Keepalives at the cut of two reads: `\r\n\r\n` reads as one request or as two answers, depending on the split. `Framing.PiecesDecode` is about one buffer, and `StreamSplits` about streams without keepalives.
- The typed reading of start lines and header values is a parameter (`typed`) of the framer, and the IP address parser (`IpParser`) of the URI parser; both are arbitrary.
- White space other than ASCII is not trimmed. URIs are sequences of characters: percent-encoding works on UTF-8 octets in the source and on characters here, which differ above 127, where a character of the model gives one escape and the source's octets several.
- The setters and removers of URI parameters, `resolve_logic` around the SRV order, `make_request`.
- `update_remote_tag`, PRACK, the session's remote target and route set, `send_dialog_request` beyond its guard on provisional responses, authentication beyond whether a challenge is retried, subscriptions, registration, publication.
- The cancel-and-BYE guard of an abandoned invitation (src/dialog/invitation.rs:158-340), and the older client and server dialogs that `InviteDialog` replaces.
- The guard against replaying a placeholder ACK (src/transaction/endpoint.rs:441-446): it asks whether reading the To tag fails, and in the model a To header always reads.
- Two transaction objects with one key, the older one ended but not dropped: the ended object's `Valid` says that the wheel has no timer of its key, so nothing is promised about it once the newer one arms a timer.
- Runs of the objects: each method is proved to leave the state its function describes, and to keep what the next call relies on; the runs are those of `System`, where a wake-up that releases several timers is several steps.
- RunTheorems.NobodyStuck: promises nothing for a client INVITE in Trying or Proceeding, because the code ignores Timer C in Trying.
- OneAnswer.NeverBothClasses: supposes that the server starts no second transaction for the key after the first one's cache has run out; `Findings.LateCopyIsAnsweredAgain` shows that it must.
