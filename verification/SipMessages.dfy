/**
 SIP messages as the transaction layer reads them: the identifying headers,
 the status class, the body.  `MakeResponse` and `MakeAck` are
 src/transaction/message.rs.
 */
module SipMessages {
  import opened Prelude

  datatype Method = Ack | Bye | Cancel | Info | Invite | Message | Notify | Options
                  | PRack | Publish | Refer | Register | Subscribe | Update

  type Bytes = seq<bv8>

  /** The top Via: its branch parameter, or the sent-by when there is none. */
  datatype Via = Via(branch: Option<string>, sentBy: string)

  /** The headers a response copies from its request. */
  datatype Ids = Ids(via: Via, hops: nat, callId: string, fromTag: Option<string>, cseq: nat)

  /** A Route or Record-Route value, or a Contact: an address and its `lr` flag. */
  datatype Hop = Hop(uri: string, lr: bool)

  datatype Request = Request(verb: Method, uri: string, ids: Ids, toTag: Option<string>,
                             routes: seq<Hop>, body: Bytes)

  /** `verb` is the method of the CSeq header; `synthetic` marks a locally made response. */
  datatype Response = Response(code: nat, verb: Method, ids: Ids, toTag: Option<string>,
                               contact: Option<Hop>, recordRoute: seq<Hop>, body: Bytes, synthetic: bool)

  datatype SipMessage = Req(request: Request) | Resp(response: Response)

  predicate Provisional(r: Response) { 100 <= r.code <= 199 }

  predicate Successful(r: Response) { 200 <= r.code <= 299 }

  predicate Final(r: Response) { !Provisional(r) }

  /** Another Via below the top one: an upstream hop waits for this response. */
  predicate MultipleVias(r: Response) { r.ids.hops > 1 }

  function MakeResponse(req: Request, code: nat): Response {
    Response(code, req.verb, req.ids, req.toTag, None, [], [], false)
  }

  function Reverse<T>(s: seq<T>): (r: seq<T>)
    ensures |r| == |s|
  {
    if s == [] then [] else Reverse(s[1..]) + [s[0]]
  }

  /** Where the ACK of a 2xx goes: the Request-URI and the Route set (RFC 3261 section 12.2.1.1). */
  function AckTarget(contact: Hop, routeSet: seq<Hop>): (string, seq<Hop>) {
    if routeSet == [] then (contact.uri, [])
    else if routeSet[0].lr then (contact.uri, routeSet)
    else (routeSet[0].uri, routeSet[1..] + [contact])
  }

  /** The ACK of `resp`; `None` when a 2xx carries no Contact. `branch` is the fresh Via branch of a 2xx ACK. */
  function MakeAck(invite: Request, resp: Response, branch: string): Option<Request> {
    if !Successful(resp) then
      Some(Request(Ack, invite.uri, resp.ids, resp.toTag, invite.routes, []))
    else if resp.contact.None? then
      None
    else
      var (uri, routes) := AckTarget(resp.contact.value, Reverse(resp.recordRoute));
      Some(Request(Ack, uri, resp.ids.(via := Via(Some(branch), resp.ids.via.sentBy)), resp.toTag, routes, []))
  }

  lemma {:induction false} ReversedAt<T>(s: seq<T>, i: nat)
    requires i < |s|
    ensures Reverse(s)[i] == s[|s| - 1 - i]
  {
    if i < |s| - 1 { ReversedAt(s[1..], i); }
  }

  /** A request of the calling side goes to `contact` along `recordRoute`, the proxy next to it first:
      RFC 3261 sections 12.1.2 and 12.2.1.1, a strict router first of all (no `lr`) being sent to itself. */
  ghost predicate FollowsRecordRoute(uri: string, routes: seq<Hop>, contact: Hop, recordRoute: seq<Hop>) {
    var n := |recordRoute|;
    if n == 0 || recordRoute[n - 1].lr then
      uri == contact.uri && |routes| == n && forall i :: 0 <= i < n ==> routes[i] == recordRoute[n - 1 - i]
    else
      && uri == recordRoute[n - 1].uri && |routes| == n && routes[n - 1] == contact
      && forall i :: 0 <= i < n - 1 ==> routes[i] == recordRoute[n - 2 - i]
  }

  /** The ACK of a success takes that way, with a branch of its own and no body. */
  lemma AckFollowsRecordRoute(invite: Request, r: Response, branch: string)
    requires Successful(r) && r.contact.Some?
    ensures MakeAck(invite, r, branch).Some?
    ensures var ack := MakeAck(invite, r, branch).value;
            && FollowsRecordRoute(ack.uri, ack.routes, r.contact.value, r.recordRoute)
            && ack.verb == Ack && ack.toTag == r.toTag && ack.body == []
            && ack.ids == r.ids.(via := ack.ids.via) && ack.ids.via.branch == Some(branch)
  {
    forall i | 0 <= i < |r.recordRoute| ensures Reverse(r.recordRoute)[i] == r.recordRoute[|r.recordRoute| - 1 - i] {
      ReversedAt(r.recordRoute, i);
    }
    hide Reverse;
  }

  /** A dialog, seen from one side (src/dialog/mod.rs). */
  datatype DialogId = DialogId(callId: string, localTag: string, remoteTag: string)

  datatype Role = Client | Server

  function DialogOf(role: Role, callId: string, fromTag: string, toTag: string): DialogId {
    match role
    case Client => DialogId(callId, fromTag, toTag)
    case Server => DialogId(callId, toTag, fromTag)
  }

  /** From a response: both tags are required. */
  function ResponseDialog(r: Response, role: Role): Option<DialogId> {
    if r.ids.fromTag.None? || r.toTag.None? then None
    else Some(DialogOf(role, r.ids.callId, r.ids.fromTag.value, r.toTag.value))
  }

  /** From a request: a missing To tag reads as the empty one. */
  function RequestDialog(r: Request, role: Role): Option<DialogId> {
    if r.ids.fromTag.None? then None
    else Some(DialogOf(role, r.ids.callId, r.ids.fromTag.value, if r.toTag.Some? then r.toTag.value else ""))
  }
}
