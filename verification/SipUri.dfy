/** SIP URIs, printed and parsed (src/sip/uri.rs). */
module SipUri {
  import opened Prelude
  import opened TransactionKey
  import opened Octets
  import SipMessages

  datatype Scheme = Sip | Sips | Other(text: string)

  datatype Auth = Auth(user: string, password: Option<string>)

  /** An address in its standard text. */
  datatype Ip = Ip(text: string, v6: bool)

  datatype Host = Domain(name: string) | IpAddr(ip: Ip)

  datatype HostWithPort = HostWithPort(host: Host, port: Option<nat>)

  datatype Transport = Udp | Tcp | Tls | Sctp | TlsSctp | Ws | Wss

  /** The parameters whose value is kept as text. */
  datatype TextName = User | Ttl | Maddr | Branch | Received | Tag | Expires | Q

  datatype Param = Transport(transport: Transport) | Method(verb: SipMessages.Method)
                 | Text(name: TextName, value: string)
                 | Lr | Ob | Rport(port: Option<nat>)
                 | OtherParam(other: string, text: Option<string>)

  datatype Uri = Uri(scheme: Option<Scheme>, auth: Option<Auth>, hostWithPort: HostWithPort,
                     params: seq<Param>, headers: seq<(string, string)>)

  /** The standard library's parser of IP addresses. */
  type IpParser = string -> Option<Ip>

  // ---- Printing -------------------------------------------------------------------------

  predicate Alphanumeric(c: char) { '0' <= c <= '9' || 'a' <= c <= 'z' || 'A' <= c <= 'Z' }

  const HEX := "0123456789ABCDEF"
  const USER_CHARS := "-_.!~*'()&=+$,;?/"
  const PASSWORD_CHARS := "-_.!~*'()&=+$,"

  function EncodeChar(c: char, allowed: string): string {
    if Alphanumeric(c) || c in allowed then [c]
    else "%" + [HEX[(c as int / 16) % 16], HEX[c as int % 16]]
  }

  function Encode(s: string, allowed: string): string {
    if s == [] then [] else Encode(s[..|s| - 1], allowed) + EncodeChar(s[|s| - 1], allowed)
  }

  /** `percent_encode_component`. */
  method PercentEncode(input: string, allowed: string) returns (out: string)
    ensures out == Encode(input, allowed)
  {
    out := "";
    var i := 0;
    while i < |input|
      invariant 0 <= i <= |input| && out == Encode(input[..i], allowed)
    {
      var c := input[i];
      assert input[..i + 1][..i] == input[..i];
      if Alphanumeric(c) || c in allowed {
        out := out + [c];
      } else {
        out := out + ("%" + [HEX[(c as int / 16) % 16], HEX[c as int % 16]]);
      }
      i := i + 1;
    }
    assert input[..i] == input;
  }

  function PrintAuth(a: Auth): string {
    Encode(a.user, USER_CHARS) + if a.password.Some? then ":" + Encode(a.password.value, PASSWORD_CHARS) else ""
  }

  function PrintHost(h: Host): string {
    match h
    case Domain(name) => name
    case IpAddr(ip) => if ip.v6 then "[" + ip.text + "]" else ip.text
  }

  function PrintHostWithPort(h: HostWithPort): string {
    PrintHost(h.host) + if h.port.Some? then ":" + Decimal(h.port.value) else ""
  }

  function TransportText(t: Transport): string {
    match t
    case Udp => "UDP" case Tcp => "TCP" case Tls => "TLS" case Sctp => "SCTP"
    case TlsSctp => "TLS-SCTP" case Ws => "WS" case Wss => "WSS"
  }

  function NameText(n: TextName): string {
    match n
    case User => "user" case Ttl => "ttl" case Maddr => "maddr" case Branch => "branch"
    case Received => "received" case Tag => "tag" case Expires => "expires" case Q => "q"
  }

  /** Without the semicolon in front. */
  function PrintParam(p: Param): string {
    match p
    case Transport(t) => "transport" + "=" + TransportText(t)
    case Method(m) => "method" + "=" + MethodText(m)
    case Text(n, v) => NameText(n) + "=" + v
    case Lr => "lr"
    case Ob => "ob"
    case Rport(port) => if port.Some? then "rport" + "=" + Decimal(port.value) else "rport"
    case OtherParam(n, v) => if v.Some? then n + "=" + v.value else n
  }

  function PrintParams(ps: seq<Param>): string {
    if ps == [] then "" else ";" + PrintParam(ps[0]) + PrintParams(ps[1..])
  }

  function PrintHeader(h: (string, string)): string { h.0 + "=" + h.1 }

  /** `parts.join("&")`. */
  function PrintHeaders(hs: seq<(string, string)>): string
    requires hs != []
  {
    if |hs| == 1 then PrintHeader(hs[0]) else PrintHeader(hs[0]) + "&" + PrintHeaders(hs[1..])
  }

  function SchemeText(s: Scheme): string {
    match s case Sip => "sip" case Sips => "sips" case Other(t) => t
  }

  /** Up to the parameters, without the scheme. */
  function PrintUserHost(u: Uri): string {
    (if u.auth.Some? then PrintAuth(u.auth.value) + "@" else "") + PrintHostWithPort(u.hostWithPort)
  }

  function Print(u: Uri): string {
    (if u.scheme.Some? then SchemeText(u.scheme.value) + ":" else "") + PrintUserHost(u) + PrintParams(u.params)
    + if u.headers != [] then "?" + PrintHeaders(u.headers) else ""
  }

  // ---- Parsing -----------------------------------------------------------------------------

  /** `rfind`: the last occurrence. */
  function RFind(s: string, c: char): (r: Option<nat>)
    ensures r.Some? ==> r.value < |s| && s[r.value] == c && forall k :: r.value < k < |s| ==> s[k] != c
    ensures r.None? ==> forall k :: 0 <= k < |s| ==> s[k] != c
  {
    if s == [] then None
    else if s[|s| - 1] == c then Some(|s| - 1)
    else RFind(s[..|s| - 1], c)
  }

  function DropStart(s: string, c: char): string {
    if s != [] && s[0] == c then DropStart(s[1..], c) else s
  }

  function DropEnd(s: string, c: char): string {
    if s != [] && s[|s| - 1] == c then DropEnd(s[..|s| - 1], c) else s
  }

  predicate AllAlphabetic(s: string) { forall i :: 0 <= i < |s| ==> 'a' <= s[i] <= 'z' || 'A' <= s[i] <= 'Z' }

  /** `parse::<u16>`. */
  function ParseU16(s: string): Option<nat> {
    var n := ParseUsize(s);
    if n.Some? && n.value <= 0xFFFF then n else None
  }

  function ParseScheme(s: string): Scheme {
    var t := Trim(s);
    if SameName(t, "sip") then Sip else if SameName(t, "sips") then Sips else Other(t)
  }

  function ParseHost(s: string, std: IpParser): Host {
    var t := Trim(s);
    var ip := std(t);
    if ip.Some? then IpAddr(ip.value) else Domain(t)
  }

  function ParseAuth(s: string): Auth {
    var colon := Find(s, ':', 0);
    if colon < |s| then Auth(s[..colon], Some(s[colon + 1..])) else Auth(s, None)
  }

  function ParseHostWithPort(s: string, std: IpParser): Option<HostWithPort> {
    if s != [] && s[0] == '[' && Find(s, ']', 0) < |s| then
      var close := Find(s, ']', 0);
      var ip := std(s[1..close]);
      if ip.None? then None
      else if |s| > close + 1 && s[close + 1] == ':' then
        var port := ParseU16(s[close + 2..]);
        if port.None? then None else Some(HostWithPort(IpAddr(ip.value), port))
      else Some(HostWithPort(IpAddr(ip.value), None))
    else
      var colon := RFind(s, ':');
      if colon.Some? && AllDigits(s[colon.value + 1..]) then
        var port := ParseU16(s[colon.value + 1..]);
        if port.None? then None else Some(HostWithPort(ParseHost(s[..colon.value], std), port))
      else Some(HostWithPort(ParseHost(s, std), None))
  }

  function ParseTransport(s: string): Option<Transport> {
    var t := Trim(s);
    if SameName(t, "UDP") then Some(Udp)
    else if SameName(t, "TCP") then Some(Tcp)
    else if SameName(t, "TLS") then Some(Tls)
    else if SameName(t, "SCTP") then Some(Sctp)
    else if SameName(t, "TLS-SCTP") then Some(TlsSctp)
    else if SameName(t, "WS") then Some(Ws)
    else if SameName(t, "WSS") then Some(Wss)
    else None
  }

  function ParseMethod(s: string): Option<SipMessages.Method> {
    var t := Trim(s);
    if SameName(t, "ACK") then Some(SipMessages.Ack)
    else if SameName(t, "BYE") then Some(SipMessages.Bye)
    else if SameName(t, "CANCEL") then Some(SipMessages.Cancel)
    else if SameName(t, "INFO") then Some(SipMessages.Info)
    else if SameName(t, "INVITE") then Some(SipMessages.Invite)
    else if SameName(t, "MESSAGE") then Some(SipMessages.Message)
    else if SameName(t, "NOTIFY") then Some(SipMessages.Notify)
    else if SameName(t, "OPTIONS") then Some(SipMessages.Options)
    else if SameName(t, "PRACK") then Some(SipMessages.PRack)
    else if SameName(t, "PUBLISH") then Some(SipMessages.Publish)
    else if SameName(t, "REFER") then Some(SipMessages.Refer)
    else if SameName(t, "REGISTER") then Some(SipMessages.Register)
    else if SameName(t, "SUBSCRIBE") then Some(SipMessages.Subscribe)
    else if SameName(t, "UPDATE") then Some(SipMessages.Update)
    else None
  }

  /** The text parameter with this name. */
  function ParseName(n: string): Option<TextName> {
    if SameName(n, "user") then Some(User)
    else if SameName(n, "ttl") then Some(Ttl)
    else if SameName(n, "maddr") then Some(Maddr)
    else if SameName(n, "branch") then Some(Branch)
    else if SameName(n, "received") then Some(Received)
    else if SameName(n, "tag") then Some(Tag)
    else if SameName(n, "expires") then Some(Expires)
    else if SameName(n, "q") then Some(Q)
    else None
  }

  function ParseNamed(n: string, v: Option<string>): Option<Param> {
    match v
    case Some(value) =>
      if SameName(n, "transport") then
        var t := ParseTransport(value);
        if t.Some? then Some(Transport(t.value)) else None
      else if SameName(n, "method") then
        var m := ParseMethod(value);
        if m.Some? then Some(Method(m.value)) else None
      else if ParseName(n).Some? then Some(Text(ParseName(n).value, value))
      else if SameName(n, "rport") then
        var port := ParseU16(value);
        if port.Some? then Some(Rport(port)) else None
      else Some(OtherParam(n, v))
    case None =>
      if SameName(n, "lr") then Some(Lr)
      else if SameName(n, "ob") then Some(Ob)
      else if SameName(n, "rport") then Some(Rport(None))
      else Some(OtherParam(n, None))
  }

  function ParseParam(s: string): Option<Param> {
    var t := Trim(DropStart(s, ';'));
    var eq := Find(t, '=', 0);
    if eq < |t| then ParseNamed(t[..eq], Some(t[eq + 1..])) else ParseNamed(t, None)
  }

  /** The pieces between the separators. */
  function Split(s: string, c: char): (r: seq<string>)
    ensures r != []
    decreases |s|
  {
    var i := Find(s, c, 0);
    if i == |s| then [s] else [s[..i]] + Split(s[i + 1..], c)
  }

  function ParamsOf(parts: seq<string>): Option<seq<Param>> {
    if parts == [] then Some([])
    else
      var rest := ParamsOf(parts[1..]);
      var part := Trim(parts[0]);
      if part == [] then rest
      else
        var p := ParseParam(part);
        if p.None? || rest.None? then None else Some([p.value] + rest.value)
  }

  /** `parse_params`. */
  method ParseParams(s: string) returns (params: Option<seq<Param>>)
    ensures params == if s == [] then Some([]) else ParamsOf(Split(s, ';'))
  {
    hide ParseParam, Trim, Split;
    if s == [] {
      return Some([]);
    }
    var parts := Split(s, ';');
    var found: seq<Param> := [];
    var i := 0;
    assert parts[0..] == parts;
    AfterNothing(ParamsOf(parts));
    while i < |parts|
      invariant 0 <= i <= |parts|
      invariant ParamsOf(parts) == After(found, ParamsOf(parts[i..]))
    {
      var part := Trim(parts[i]);
      assert parts[i..][1..] == parts[i + 1..] && parts[i..][0] == parts[i];
      if part != [] {
        var param := ParseParam(part);
        if param.None? {
          return None;
        }
        AfterOne(found, param.value, ParamsOf(parts[i + 1..]));
        found := found + [param.value];
      }
      i := i + 1;
    }
    assert parts[i..] == [] && found + [] == found;
    return Some(found);
  }

  lemma AfterNothing(rest: Option<seq<Param>>)
    ensures After([], rest) == rest
  {
    if rest.Some? { assert [] + rest.value == rest.value; }
  }

  lemma AfterOne(found: seq<Param>, p: Param, rest: Option<seq<Param>>)
    ensures After(found + [p], rest) == if rest.None? then None else After(found, Some([p] + rest.value))
  {
    if rest.Some? { assert (found + [p]) + rest.value == found + ([p] + rest.value); }
  }

  function After(found: seq<Param>, rest: Option<seq<Param>>): Option<seq<Param>> {
    if rest.None? then None else Some(found + rest.value)
  }

  function ParseHeader(kv: string): (string, string) {
    var eq := Find(kv, '=', 0);
    if eq < |kv| then (kv[..eq], kv[eq + 1..]) else (kv, "")
  }

  function HeadersOf(parts: seq<string>): seq<(string, string)> {
    if parts == [] then [] else [ParseHeader(parts[0])] + HeadersOf(parts[1..])
  }

  /** White space and angle brackets around the URI. */
  function Unwrap(s: string): string { Trim(DropEnd(DropStart(Trim(s), '<'), '>')) }

  /** Before the first `c`, and after it. */
  function Before(s: string, c: char): string { s[..Find(s, c, 0)] }

  function Behind(s: string, c: char): Option<string> {
    var i := Find(s, c, 0);
    if i < |s| then Some(s[i + 1..]) else None
  }

  /** Scheme, user and host: the text before the parameters. */
  function ParseMain(hostPart: string, std: IpParser, params: seq<Param>, headers: seq<(string, string)>): Option<Uri> {
    var colon := Find(hostPart, ':', 0);
    var hasScheme := colon < |hostPart| && AllAlphabetic(hostPart[..colon]);
    var scheme := if hasScheme then Some(ParseScheme(hostPart[..colon])) else None;
    var userHost := if hasScheme then hostPart[colon + 1..] else hostPart;
    var at := RFind(userHost, '@');
    var auth := if at.Some? then Some(ParseAuth(userHost[..at.value])) else None;
    var hostStr := if at.Some? then userHost[at.value + 1..] else userHost;
    var hwp := ParseHostWithPort(hostStr, std);
    if hwp.None? then None else Some(Uri(scheme, auth, hwp.value, params, headers))
  }

  /** `parse_uri`. */
  function ParseUri(s: string, std: IpParser): Option<Uri> {
    var t := Unwrap(s);
    var main, hdrs := Before(t, '?'), Behind(t, '?');
    var hostPart, paramText := Before(main, ';'), Behind(main, ';');
    var params := if paramText.None? || paramText.value == [] then Some([]) else ParamsOf(Split(paramText.value, ';'));
    if params.None? then None
    else ParseMain(hostPart, std, params.value, if hdrs.Some? then HeadersOf(Split(hdrs.value, '&')) else [])
  }
}
