/** Parsing what was printed gives the URI back. */
module UriRoundTrip {
  import opened Prelude
  import opened TransactionKey
  import opened Octets
  import opened SipUri
  import SipMessages

  // ---- URIs whose text is unambiguous ---------------------------------------------------------

  /** Neither white space nor an angle bracket. */
  predicate Visible(c: char) { !IsSpace(c) && c != '<' && c != '>' }

  predicate Free(s: string, delimiters: string) {
    forall i :: 0 <= i < |s| ==> Visible(s[i]) && s[i] !in delimiters
  }

  /** What percent-encoding leaves alone, minus ';' and '?'. */
  predicate UserText(s: string) {
    forall i :: 0 <= i < |s| ==> (Alphanumeric(s[i]) || s[i] in USER_CHARS) && s[i] != ';' && s[i] != '?'
  }

  predicate PasswordText(s: string) {
    forall i :: 0 <= i < |s| ==> (Alphanumeric(s[i]) || s[i] in PASSWORD_CHARS)
  }

  const HOST_DELIMITERS := ":@;?[]"

  /** A plain domain, or an address the standard library reads back. */
  predicate PlainHost(h: Host, std: IpParser) {
    match h
    case Domain(name) => Free(name, HOST_DELIMITERS) && std(name) == None
    case IpAddr(ip) =>
      std(ip.text) == Some(ip) && Free(ip.text, if ip.v6 then "@;?[]" else HOST_DELIMITERS)
  }

  /** A name with a meaning of its own, with or without a value. */
  predicate Reserved(n: string, valued: bool) {
    SameName(n, "rport")
    || (if valued then SameName(n, "transport") || SameName(n, "method") || ParseName(n).Some?
        else SameName(n, "lr") || SameName(n, "ob"))
  }

  predicate PlainParam(p: Param) {
    match p
    case Text(_, v) => Free(v, ";?")
    case Rport(port) => port.Some? ==> port.value <= 0xFFFF
    case OtherParam(n, v) =>
      && n != [] && Free(n, ";?=") && (v.Some? ==> Free(v.value, ";?"))
      && !Reserved(n, v.Some?)
    case _ => true
  }

  predicate PlainHeader(h: (string, string)) {
    Free(h.0, "&=") && Free(h.1, "&")
  }

  predicate Plain(u: Uri, std: IpParser) {
    && (u.scheme == Some(Sip) || u.scheme == Some(Sips))
    && (u.auth.Some? ==> UserText(u.auth.value.user) && (u.auth.value.password.Some? ==> PasswordText(u.auth.value.password.value)))
    && PlainHost(u.hostWithPort.host, std) && (u.hostWithPort.port.Some? ==> u.hostWithPort.port.value <= 0xFFFF)
    && (forall i :: 0 <= i < |u.params| ==> PlainParam(u.params[i]))
    && (forall i :: 0 <= i < |u.headers| ==> PlainHeader(u.headers[i]))
  }

  // ---- Names ------------------------------------------------------------------------------------

  lemma SameNameRefl(s: string)
    ensures SameName(s, s)
  {
  }

  /** Names of one length that begin or go on differently are different. */
  lemma Different(a: string, b: string, i: nat)
    requires i < |a| && |a| == |b| && Lower(a[i]) != Lower(b[i])
    ensures !SameName(a, b)
  {
  }

  lemma TransportReads(t: Transport)
    ensures ParseTransport(TransportText(t)) == Some(t)
  {
    var s := TransportText(t);
    TrimTrimmed(s);
    SameNameRefl(s);
    match t
    case Udp =>
    case Tcp => Different(s, "UDP", 0);
    case Tls => Different(s, "UDP", 0); Different(s, "TCP", 1);
    case Sctp =>
    case TlsSctp =>
    case Ws =>
    case Wss => Different(s, "UDP", 0); Different(s, "TCP", 0); Different(s, "TLS", 0);
  }

  lemma MethodReads(m: SipMessages.Method)
    ensures ParseMethod(MethodText(m)) == Some(m)
  {
    hide ParseMethod;
    if m in {SipMessages.Ack, SipMessages.Bye, SipMessages.Cancel, SipMessages.Info, SipMessages.Invite, SipMessages.Message,
             SipMessages.Notify} {
      FirstMethodReads(m);
    } else if m in {SipMessages.Options, SipMessages.Publish, SipMessages.Update} {
      MiddleMethodReads(m);
    } else {
      LastMethodReads(m);
    }
  }

  lemma FirstMethodReads(m: SipMessages.Method)
    requires m in {SipMessages.Ack, SipMessages.Bye, SipMessages.Cancel, SipMessages.Info, SipMessages.Invite, SipMessages.Message,
                   SipMessages.Notify}
    ensures ParseMethod(MethodText(m)) == Some(m)
  {
    var s := MethodText(m);
    TrimTrimmed(s);
    SameNameRefl(s);
    match m
    case Bye => Different(s, "ACK", 0);
    case Invite => Different(s, "CANCEL", 0);
    case Notify => Different(s, "CANCEL", 0); Different(s, "INVITE", 0);
    case _ =>
  }

  lemma MiddleMethodReads(m: SipMessages.Method)
    requires m in {SipMessages.Options, SipMessages.Publish, SipMessages.Update}
    ensures ParseMethod(MethodText(m)) == Some(m)
  {
    var s := MethodText(m);
    TrimTrimmed(s);
    SameNameRefl(s);
    match m
    case Options => Different(s, "MESSAGE", 0);
    case Publish => Different(s, "MESSAGE", 0); Different(s, "OPTIONS", 0);
    case Update => Different(s, "CANCEL", 0); Different(s, "INVITE", 0); Different(s, "NOTIFY", 0);
  }

  lemma LastMethodReads(m: SipMessages.Method)
    requires m in {SipMessages.PRack, SipMessages.Refer, SipMessages.Register, SipMessages.Subscribe}
    ensures ParseMethod(MethodText(m)) == Some(m)
  {
    var s := MethodText(m);
    TrimTrimmed(s);
    SameNameRefl(s);
    match m
    case Refer => Different(s, "PRACK", 0);
    case _ =>
  }

  lemma NameReads(n: TextName)
    ensures ParseName(NameText(n)) == Some(n)
    ensures !SameName(NameText(n), "transport") && !SameName(NameText(n), "method")
  {
    var s := NameText(n);
    SameNameRefl(s);
    match n
    case Branch => Different(s, "method", 0);
    case Tag => Different(s, "ttl", 1);
    case _ =>
  }

  // ---- Texts without a delimiter ------------------------------------------------------------------

  lemma NotFound(s: string, c: char)
    requires forall i :: 0 <= i < |s| ==> s[i] != c
    ensures Find(s, c, 0) == |s| && Before(s, c) == s && Behind(s, c) == None && RFind(s, c) == None
  {
    FindIs(s, c, 0, |s|);
  }

  /** The text in front of the first delimiter, and behind it. */
  lemma FoundAt(a: string, c: char, b: string)
    requires forall i :: 0 <= i < |a| ==> a[i] != c
    ensures Find(a + [c] + b, c, 0) == |a|
    ensures Before(a + [c] + b, c) == a && Behind(a + [c] + b, c) == Some(b)
  {
    FindIs(a + [c] + b, c, 0, |a|);
  }

  lemma {:induction false} RFoundAt(a: string, c: char, b: string)
    requires forall i :: 0 <= i < |b| ==> b[i] != c
    ensures RFind(a + [c] + b, c) == Some(|a|)
    ensures (a + [c] + b)[..|a|] == a && (a + [c] + b)[|a| + 1..] == b
  {
    var s := a + [c] + b;
    if b == [] {
      assert s[|s| - 1] == c;
    } else {
      assert s[..|s| - 1] == a + [c] + b[..|b| - 1];
      assert s[|s| - 1] == b[|b| - 1];
      RFoundAt(a, c, b[..|b| - 1]);
    }
  }

  /** Visible text needs no trimming. */
  lemma VisibleTrimmed(s: string)
    requires forall i :: 0 <= i < |s| ==> Visible(s[i])
    ensures Trim(s) == s && Unwrap(s) == s
  {
  }

  // ---- Parameters ------------------------------------------------------------------------------------

  lemma DigitsFree(n: nat, d: string)
    requires forall i :: 0 <= i < |d| ==> !IsDigit(d[i])
    ensures Free(Decimal(n), d) && Decimal(n) != [] && AllDigits(Decimal(n))
  {
    DecimalParses(n);
    forall i | 0 <= i < |Decimal(n)| ensures Visible(Decimal(n)[i]) && Decimal(n)[i] !in d {
      assert IsDigit(Decimal(n)[i]);
    }
  }

  lemma PortReads(n: nat)
    requires n <= 0xFFFF
    ensures ParseU16(Decimal(n)) == Some(n)
  {
    LengthReadsBack(n);
  }

  lemma TransportFree(t: Transport)
    ensures Free(TransportText(t), ";?")
  {
    match t case Udp => case Tcp => case Tls => case Sctp => case TlsSctp => case Ws => case Wss =>
  }

  lemma MethodFree(m: SipMessages.Method)
    ensures Free(MethodText(m), ";?")
  {
    match m
    case Ack => case Bye => case Cancel => case Info => case Invite => case Message => case Notify => case Options =>
    case PRack => case Publish => case Refer => case Register => case Subscribe => case Update =>
  }

  lemma NameFree(n: TextName)
    ensures Free(NameText(n), ";?=") && NameText(n) != []
  {
    match n case User => case Ttl => case Maddr => case Branch => case Received => case Tag => case Expires => case Q =>
  }

  /** `name=value` is read as the named parameter. */
  lemma NamedReads(n: string, v: Option<string>)
    requires n != [] && Free(n, ";?=") && (v.Some? ==> Free(v.value, ";?"))
    ensures var t := if v.Some? then n + "=" + v.value else n;
            t != [] && Free(t, ";?") && Trim(t) == t && ParseParam(t) == ParseNamed(n, v)
  {
    var t := if v.Some? then n + "=" + v.value else n;
    hide ParseNamed, Trim;
    assert Free(t, ";?");
    VisibleTrimmed(t);
    assert t[0] == n[0] && n[0] in [n[0]];
    assert DropStart(t, ';') == t;
    if v.Some? {
      FoundAt(n, '=', v.value);
      assert t[..|n|] == n && t[|n| + 1..] == v.value;
    } else {
      NotFound(n, '=');
    }
  }

  lemma ParamReads(p: Param)
    requires PlainParam(p)
    ensures var t := PrintParam(p);
            t != [] && Free(t, ";?") && Trim(t) == t && ParseParam(t) == Some(p)
  {
    hide Trim, ParseParam, ParseTransport, ParseMethod, ParseName, ParseU16, SameName;
    match p
    case Transport(t) => TransportReads(t); TransportFree(t); SameNameRefl("transport"); NamedReads("transport", Some(TransportText(t)));
    case Method(m) => MethodReads(m); MethodFree(m); MethodIsNotTransport(); NamedReads("method", Some(MethodText(m)));
    case Text(n, v) => NameReads(n); NameFree(n); NamedReads(NameText(n), Some(v));
    case Lr => SameNameRefl("lr"); NamedReads("lr", None);
    case Ob => OtherFlags(); NamedReads("ob", None);
    case Rport(port) =>
      OtherFlags();
      if port.Some? { PortReads(port.value); DigitsFree(port.value, ";?"); NamedReads("rport", Some(Decimal(port.value))); }
      else { NamedReads("rport", None); }
    case OtherParam(n, v) => NamedReads(n, v);
  }

  lemma MethodIsNotTransport()
    ensures !SameName("method", "transport") && SameName("method", "method")
  {
  }

  lemma OtherFlags()
    ensures !SameName("ob", "lr") && SameName("ob", "ob")
    ensures !SameName("rport", "lr") && !SameName("rport", "ob") && SameName("rport", "rport")
    ensures !SameName("rport", "transport") && !SameName("rport", "method") && ParseName("rport").None?
  {
    Different("ob", "lr", 0);
    Different("rport", "maddr", 0);
  }

  lemma SplitStep(a: string, c: char, b: string)
    requires forall i :: 0 <= i < |a| ==> a[i] != c
    ensures Split(a + [c] + b, c) == [a] + Split(b, c) && Split(a, c) == [a]
  {
    FoundAt(a, c, b);
    NotFound(a, c);
    var s := a + [c] + b;
    assert s[..|a|] == a && s[|a| + 1..] == b;
  }

  lemma OneParam(t: string, p: Param)
    requires t != [] && Trim(t) == t && ParseParam(t) == Some(p)
    ensures ParamsOf([t]) == Some([p])
  {
    hide Trim, ParseParam;
    assert [t][1..] == [] && [p] + [] == [p];
  }

  lemma MoreParams(t: string, p: Param, parts: seq<string>, ps: seq<Param>)
    requires t != [] && Trim(t) == t && ParseParam(t) == Some(p) && ParamsOf(parts) == Some(ps)
    ensures ParamsOf([t] + parts) == Some([p] + ps)
  {
    hide Trim, ParseParam;
    assert ([t] + parts)[1..] == parts;
  }

  lemma {:induction false} ParamsRead(ps: seq<Param>)
    requires ps != [] && forall i :: 0 <= i < |ps| ==> PlainParam(ps[i])
    ensures PrintParams(ps) != [] && PrintParams(ps)[0] == ';' && Free(PrintParams(ps), "?")
    ensures ParamsOf(Split(PrintParams(ps)[1..], ';')) == Some(ps)
  {
    hide PlainParam, PrintParam, ParseParam, Trim, Split, ParamsOf;
    var t := PrintParam(ps[0]);
    ParamReads(ps[0]);
    var s := PrintParams(ps);
    assert s == ";" + t + PrintParams(ps[1..]);
    if |ps| == 1 {
      assert ps[1..] == [] && s[1..] == t;
      SplitStep(t, ';', "");
      OneParam(t, ps[0]);
      assert ps == [ps[0]];
    } else {
      ParamsRead(ps[1..]);
      var rest := PrintParams(ps[1..]);
      assert s[1..] == t + ";" + rest[1..] by { assert rest == ";" + rest[1..]; }
      SplitStep(t, ';', rest[1..]);
      MoreParams(t, ps[0], Split(rest[1..], ';'), ps[1..]);
      assert ps == [ps[0]] + ps[1..];
    }
  }

  // ---- Headers ---------------------------------------------------------------------------------------

  lemma HeaderReads(h: (string, string))
    requires PlainHeader(h)
    ensures ParseHeader(PrintHeader(h)) == h && Free(PrintHeader(h), "&")
  {
    FoundAt(h.0, '=', h.1);
    var t := PrintHeader(h);
    assert t[..|h.0|] == h.0 && t[|h.0| + 1..] == h.1;
  }

  lemma {:induction false} HeadersRead(hs: seq<(string, string)>)
    requires hs != [] && forall i :: 0 <= i < |hs| ==> PlainHeader(hs[i])
    ensures HeadersOf(Split(PrintHeaders(hs), '&')) == hs && Free(PrintHeaders(hs), "")
  {
    hide PlainHeader, PrintHeader, ParseHeader, Split, Find;
    var t := PrintHeader(hs[0]);
    HeaderReads(hs[0]);
    if |hs| == 1 {
      SplitStep(t, '&', "");
      assert HeadersOf([t]) == [hs[0]] by { assert [t][1..] == []; }
      assert hs == [hs[0]];
    } else {
      HeadersRead(hs[1..]);
      var rest := PrintHeaders(hs[1..]);
      SplitStep(t, '&', rest);
      assert ([t] + Split(rest, '&'))[1..] == Split(rest, '&');
      assert hs == [hs[0]] + hs[1..];
    }
  }

  // ---- User and host -----------------------------------------------------------------------------------

  lemma {:induction false} NothingEncoded(s: string, allowed: string)
    requires forall i :: 0 <= i < |s| ==> Alphanumeric(s[i]) || s[i] in allowed
    ensures Encode(s, allowed) == s
  {
    if s != [] {
      NothingEncoded(s[..|s| - 1], allowed);
      assert s == s[..|s| - 1] + [s[|s| - 1]];
    }
  }

  lemma PasswordChars(c: char)
    requires c in PASSWORD_CHARS
    ensures c in USER_CHARS && c != ';' && c != '?'
  {
  }

  lemma UserChar(c: char)
    requires (Alphanumeric(c) || c in USER_CHARS) && c != ';' && c != '?'
    ensures Visible(c) && c !in ":@;?"
  {
  }

  lemma UserFree(s: string)
    requires UserText(s) || PasswordText(s)
    ensures Free(s, ":@;?")
  {
    forall i | 0 <= i < |s| ensures Visible(s[i]) && s[i] !in ":@;?" {
      if s[i] in PASSWORD_CHARS { PasswordChars(s[i]); }
      UserChar(s[i]);
    }
  }

  predicate PlainAuth(a: Auth) {
    UserText(a.user) && (a.password.Some? ==> PasswordText(a.password.value))
  }

  lemma AuthReads(a: Auth)
    requires PlainAuth(a)
    ensures ParseAuth(PrintAuth(a)) == a && Free(PrintAuth(a), "@;?")
  {
    hide PrintAuth, UserText, PasswordText, ParseAuth;
    AuthText(a);
    UserFree(a.user);
    if a.password.Some? {
      UserFree(a.password.value);
      AuthSplits(a.user, a.password.value);
    } else {
      AuthAlone(a.user);
    }
  }

  lemma AuthText(a: Auth)
    requires PlainAuth(a)
    ensures PrintAuth(a) == if a.password.Some? then a.user + ":" + a.password.value else a.user
  {
    hide Encode;
    NothingEncoded(a.user, USER_CHARS);
    if a.password.Some? { NothingEncoded(a.password.value, PASSWORD_CHARS); }
  }

  lemma AuthSplits(user: string, password: string)
    requires Free(user, ":@;?")
    ensures ParseAuth(user + ":" + password) == Auth(user, Some(password))
  {
    FoundAt(user, ':', password);
    var t := user + ":" + password;
    assert t[..|user|] == user && t[|user| + 1..] == password;
  }

  lemma AuthAlone(user: string)
    requires Free(user, ":@;?")
    ensures ParseAuth(user) == Auth(user, None)
  {
    NotFound(user, ':');
  }

  predicate PlainHostWithPort(h: HostWithPort, std: IpParser) {
    PlainHost(h.host, std) && (h.port.Some? ==> h.port.value <= 0xFFFF)
  }

  /** A host that is not in brackets. */
  lemma BareHostReads(text: string, port: Option<nat>, std: IpParser)
    requires Free(text, HOST_DELIMITERS) && (port.Some? ==> port.value <= 0xFFFF)
    ensures var s := text + if port.Some? then ":" + Decimal(port.value) else "";
            ParseHostWithPort(s, std) == Some(HostWithPort(if std(text).Some? then IpAddr(std(text).value) else Domain(text), port))
  {
    hide ParseU16;
    var s := text + if port.Some? then ":" + Decimal(port.value) else "";
    VisibleTrimmed(text);
    assert s != [] ==> s[0] != '[' by { if text != [] { assert s[0] == text[0] && text[0] !in HOST_DELIMITERS; } }
    if port.Some? {
      DigitsFree(port.value, ":");
      PortReads(port.value);
      assert s == text + [':'] + Decimal(port.value);
      RFoundAt(text, ':', Decimal(port.value));
    } else {
      assert s == text;
      NotFound(text, ':');
    }
  }

  lemma BracketHostReads(ip: Ip, port: Option<nat>, std: IpParser)
    requires Free(ip.text, "@;?[]") && std(ip.text) == Some(ip) && (port.Some? ==> port.value <= 0xFFFF)
    ensures var s := "[" + ip.text + "]" + if port.Some? then ":" + Decimal(port.value) else "";
            ParseHostWithPort(s, std) == Some(HostWithPort(IpAddr(ip), port))
  {
    hide ParseU16;
    var tail := if port.Some? then ":" + Decimal(port.value) else "";
    var s := "[" + ip.text + "]" + tail;
    FindIs(s, ']', 0, |ip.text| + 1);
    assert s[1..|ip.text| + 1] == ip.text;
    if port.Some? {
      PortReads(port.value);
      assert s[|ip.text| + 3..] == Decimal(port.value);
    }
  }

  lemma HostReads(h: HostWithPort, std: IpParser)
    requires PlainHostWithPort(h, std)
    ensures ParseHostWithPort(PrintHostWithPort(h), std) == Some(h) && Free(PrintHostWithPort(h), "@;?")
  {
    hide ParseHostWithPort;
    if h.port.Some? { DigitsFree(h.port.value, "@;?"); }
    match h.host
    case Domain(name) => BareHostReads(name, h.port, std);
    case IpAddr(ip) =>
      if ip.v6 { BracketHostReads(ip, h.port, std); } else { BareHostReads(ip.text, h.port, std); }
  }

  // ---- The whole URI ------------------------------------------------------------------------------------

  lemma UserHostFree(u: Uri, std: IpParser)
    requires (u.auth.Some? ==> PlainAuth(u.auth.value)) && PlainHostWithPort(u.hostWithPort, std)
    ensures Free(PrintUserHost(u), ";?")
  {
    hide PrintAuth, PrintHostWithPort, PlainAuth, PlainHostWithPort;
    HostReads(u.hostWithPort, std);
    if u.auth.Some? { AuthReads(u.auth.value); }
  }

  lemma SchemeReads(s: Scheme)
    requires s.Sip? || s.Sips?
    ensures ParseScheme(SchemeText(s)) == s && AllAlphabetic(SchemeText(s)) && Free(SchemeText(s), ":;?@")
  {
    TrimTrimmed("sip");
    TrimTrimmed("sips");
  }

  /** User and host come apart at the last '@'. */
  lemma UserHostReads(u: Uri, std: IpParser)
    requires (u.auth.Some? ==> PlainAuth(u.auth.value)) && PlainHostWithPort(u.hostWithPort, std)
    ensures var t := PrintUserHost(u);
            var at := RFind(t, '@');
            && at.Some? == u.auth.Some?
            && (at.Some? ==> ParseAuth(t[..at.value]) == u.auth.value)
            && ParseHostWithPort(if at.Some? then t[at.value + 1..] else t, std) == Some(u.hostWithPort)
  {
    hide PrintAuth, PrintHostWithPort, PlainAuth, PlainHostWithPort, ParseAuth, ParseHostWithPort, RFind;
    HostReads(u.hostWithPort, std);
    var host := PrintHostWithPort(u.hostWithPort);
    if u.auth.Some? {
      AuthReads(u.auth.value);
      assert PrintUserHost(u) == PrintAuth(u.auth.value) + ['@'] + host;
      RFoundAt(PrintAuth(u.auth.value), '@', host);
      var t, n := PrintUserHost(u), |PrintAuth(u.auth.value)|;
      assert RFind(t, '@') == Some(n) && t[n + 1..] == host;
    } else {
      assert PrintUserHost(u) == host;
      NotFound(host, '@');
    }
  }

  lemma MainReads(u: Uri, std: IpParser)
    requires Plain(u, std)
    ensures ParseMain(SchemeText(u.scheme.value) + ":" + PrintUserHost(u), std, u.params, u.headers) == Some(u)
  {
    hide PrintUserHost, ParseAuth, ParseHostWithPort, RFind, ParseScheme, SchemeText, PlainParam, PlainHeader, PlainHost, UserText, PasswordText, AllAlphabetic;
    SchemeReads(u.scheme.value);
    UserHostReads(u, std);
    var scheme, userHost := SchemeText(u.scheme.value), PrintUserHost(u);
    FoundAt(scheme, ':', userHost);
    var t := scheme + ":" + userHost;
    assert t[..|scheme|] == scheme && t[|scheme| + 1..] == userHost;
  }

  lemma {:induction false} HeaderTextFree(hs: seq<(string, string)>)
    requires forall i :: 0 <= i < |hs| ==> PlainHeader(hs[i])
    ensures hs != [] ==> Free(PrintHeaders(hs), "")
  {
    if hs != [] { HeadersRead(hs); }
  }

  /** Every part of the text is visible, so nothing is trimmed. */
  lemma AllVisible(u: Uri, std: IpParser)
    requires Plain(u, std)
    ensures Unwrap(Print(u)) == Print(u)
  {
    hide Print, Plain, Unwrap, Trim;
    PrintVisible(u, std);
    VisibleTrimmed(Print(u));
  }

  lemma PrintVisible(u: Uri, std: IpParser)
    requires Plain(u, std)
    ensures forall i :: 0 <= i < |Print(u)| ==> Visible(Print(u)[i])
  {
    hide PrintUserHost, PrintParams, PrintHeaders, SchemeText, PlainParam, PlainHeader, PlainHost, UserText, PasswordText, Unwrap, Trim;
    SchemeReads(u.scheme.value);
    UserHostFree(u, std);
    if u.params != [] { ParamsRead(u.params); } else { NoParams(); }
    HeaderTextFree(u.headers);
  }

  lemma NoParams()
    ensures PrintParams([]) == ""
  {
  }

  /** Scheme, user and host, then parameters: they come apart at the first ';'. */
  lemma ParamsSplit(u: Uri, std: IpParser, front: string)
    requires Plain(u, std) && Free(front, ";?")
    ensures var t := front + PrintParams(u.params);
            && Free(t, "?")
            && Before(t, ';') == front
            && (if u.params == [] then Behind(t, ';') == None
                else Behind(t, ';').Some? && Behind(t, ';').value != [] && ParamsOf(Split(Behind(t, ';').value, ';')) == Some(u.params))
  {
    hide PrintParams, ParamsOf, Split, PlainParam, PlainHeader, PlainHost, UserText, PasswordText;
    if u.params == [] {
      NoParams();
      assert front + "" == front;
      NotFound(front, ';');
    } else {
      ParamsRead(u.params);
      var ps := PrintParams(u.params);
      assert ps == ";" + ps[1..];
      assert front + ps == front + [';'] + ps[1..];
      FoundAt(front, ';', ps[1..]);
      assert Behind(front + ps, ';') == Some(ps[1..]);
      SomeParam(u.params);
      assert |ps[1..]| > 0;
    }
  }

  lemma SomeParam(ps: seq<Param>)
    requires ps != [] && PlainParam(ps[0])
    ensures |PrintParams(ps)| > 1
  {
    ParamReads(ps[0]);
    hide PrintParam, PlainParam;
  }

  /** `parse_uri` gives back every plain URI that was printed. */
  lemma UriReads(u: Uri, std: IpParser)
    requires Plain(u, std)
    ensures ParseUri(Print(u), std) == Some(u)
  {
    hide Unwrap, Before, Behind, ParamsOf, Split, ParseMain, PrintUserHost, PrintParams, PrintHeaders, SchemeText, HeadersOf,
      PlainParam, PlainHeader, PlainHost, UserText, PasswordText;
    AllVisible(u, std);
    SchemeReads(u.scheme.value);
    UserHostFree(u, std);
    var front := SchemeText(u.scheme.value) + ":" + PrintUserHost(u);
    ParamsSplit(u, std, front);
    var main := front + PrintParams(u.params);
    if u.headers == [] {
      assert Print(u) == main;
      NotFound(main, '?');
    } else {
      HeadersRead(u.headers);
      assert Print(u) == main + ['?'] + PrintHeaders(u.headers);
      FoundAt(main, '?', PrintHeaders(u.headers));
    }
    MainReads(u, std);
  }

  predicate Blank(s: string) { forall i :: 0 <= i < |s| ==> IsSpace(s[i]) }

  lemma {:induction false} TrimStartBlank(before: string, s: string)
    requires Blank(before) && (s == [] || !IsSpace(s[0]))
    ensures TrimStart(before + s) == s
    decreases |before|
  {
    if before == [] {
      assert before + s == s;
    } else {
      assert (before + s)[1..] == before[1..] + s;
      TrimStartBlank(before[1..], s);
    }
  }

  lemma {:induction false} TrimEndBlank(s: string, after: string)
    requires Blank(after) && (s == [] || !IsSpace(s[|s| - 1]))
    ensures TrimEnd(s + after) == s
    decreases |after|
  {
    if after == [] {
      assert s + after == s;
    } else {
      var n := |after| - 1;
      assert (s + after)[..|s + after| - 1] == s + after[..n];
      TrimEndBlank(s, after[..n]);
    }
  }

  lemma TrimBlank(before: string, s: string, after: string)
    requires Blank(before) && Blank(after) && s != [] && Trimmed(s)
    ensures Trim(before + s + after) == s
  {
    assert before + s + after == before + (s + after);
    TrimStartBlank(before, s + after);
    TrimEndBlank(s, after);
  }

  lemma {:induction false} DropsStart(n: nat, c: char, s: string)
    requires s != [] && s[0] != c
    ensures DropStart(seq(n, _ => c) + s, c) == s
  {
    var t := seq(n, _ => c) + s;
    if n == 0 {
      assert t == s;
    } else {
      assert t[1..] == seq(n - 1, _ => c) + s;
      DropsStart(n - 1, c, s);
    }
  }

  lemma {:induction false} DropsEnd(s: string, n: nat, c: char)
    requires s != [] && s[|s| - 1] != c
    ensures DropEnd(s + seq(n, _ => c), c) == s
  {
    var t := s + seq(n, _ => c);
    if n == 0 {
      assert t == s;
    } else {
      assert t[..|t| - 1] == s + seq(n - 1, _ => c);
      DropsEnd(s, n - 1, c);
    }
  }

  /** White space, any number of angle brackets, and white space inside them, around a text that has none
      at its ends, are taken off. */
  lemma UnwrapsAround(before: string, open: nat, inner: string, s: string, innerEnd: string, close: nat, after: string)
    requires Blank(before) && Blank(inner) && Blank(innerEnd) && Blank(after)
    requires s != [] && Visible(s[0]) && Visible(s[|s| - 1]) && (open > 0 || inner == []) && (close > 0 || innerEnd == [])
    ensures Unwrap(before + (seq(open, _ => '<') + (inner + s + innerEnd) + seq(close, _ => '>')) + after) == s
  {
    hide Trim, DropStart, DropEnd;
    var body := inner + s + innerEnd;
    var t := seq(open, _ => '<') + body + seq(close, _ => '>');
    TrimBlank(before, t, after);
    assert t == seq(open, _ => '<') + (body + seq(close, _ => '>'));
    DropsStart(open, '<', body + seq(close, _ => '>'));
    DropsEnd(body, close, '>');
    TrimBlank(inner, s, innerEnd);
  }

  lemma EndsVisible(u: Uri, std: IpParser)
    requires Plain(u, std)
    ensures Print(u) != [] && Visible(Print(u)[0]) && Visible(Print(u)[|Print(u)| - 1])
  {
    hide Plain, PrintUserHost, PrintParams, PrintHeaders, SchemeText, Visible;
    PrintVisible(u, std);
    HasScheme(u, std);
  }

  lemma HasScheme(u: Uri, std: IpParser)
    requires Plain(u, std)
    ensures u.scheme.Some?
  {
  }

  lemma UnwrapsOnce(before: string, s: string, after: string)
    requires Blank(before) && Blank(after) && s != [] && Visible(s[0]) && Visible(s[|s| - 1])
    ensures Unwrap(before + "<" + s + ">" + after) == s
  {
    hide Unwrap, Blank, Visible;
    var open, close := seq(1, _ => '<'), seq(1, _ => '>');
    assert open == "<" && close == ">";
    NoBlanks();
    UnwrapsAround(before, 1, [], s, [], 1, after);
    assert [] + s + [] == s;
    assert before + ("<" + s + ">") + after == before + "<" + s + ">" + after;
  }

  lemma NoBlanks()
    ensures Blank([])
  {
  }

  lemma SameWithin(a: string, b: string, std: IpParser)
    requires Unwrap(a) == Unwrap(b)
    ensures ParseUri(a, std) == ParseUri(b, std)
  {
    hide Unwrap, Before, Behind, ParamsOf, HeadersOf, Split, ParseMain;
  }

  /** So a plain URI is read back from a header value that wraps it. */
  lemma WrappedReads(u: Uri, std: IpParser, before: string, after: string)
    requires Plain(u, std) && Blank(before) && Blank(after)
    ensures ParseUri(before + "<" + Print(u) + ">" + after, std) == Some(u)
  {
    hide Print, Plain, Unwrap, ParseUri, Blank, Visible;
    UriReads(u, std);
    AllVisible(u, std);
    EndsVisible(u, std);
    UnwrapsOnce(before, Print(u), after);
    SameWithin(before + "<" + Print(u) + ">" + after, Print(u), std);
  }

  // ---- Percent-encoding ---------------------------------------------------------------------------------

  function HexValue(c: char): int {
    if '0' <= c <= '9' then c as int - '0' as int else if 'A' <= c <= 'F' then c as int - 'A' as int + 10 else -1
  }

  /** RFC 3986 section 2.1: an escape stands for the octet its two hexadecimal digits say. */
  function PercentDecode(s: string): string {
    if s == [] then []
    else if s[0] == '%' && |s| >= 3 && HexValue(s[1]) >= 0 && HexValue(s[2]) >= 0
    then [(16 * HexValue(s[1]) + HexValue(s[2])) as char] + PercentDecode(s[3..])
    else [s[0]] + PercentDecode(s[1..])
  }

  lemma HexDigit(d: int)
    requires 0 <= d < 16
    ensures HexValue(HEX[d]) == d && HEX[d] != '%'
  {
  }

  lemma EscapeStands(a: char, b: char, rest: string)
    requires HexValue(a) >= 0 && HexValue(b) >= 0
    ensures PercentDecode("%" + [a, b] + rest) == [(16 * HexValue(a) + HexValue(b)) as char] + PercentDecode(rest)
  {
    var e := "%" + [a, b] + rest;
    assert e[0] == '%' && e[1] == a && e[2] == b && e[3..] == rest;
    hide HexValue;
  }

  lemma EscapeReads(c: char, allowed: string, rest: string)
    requires c as int < 256 && '%' !in allowed
    ensures PercentDecode(EncodeChar(c, allowed) + rest) == [c] + PercentDecode(rest)
  {
    if Alphanumeric(c) || c in allowed {
      assert ([c] + rest)[1..] == rest;
    } else {
      HexDigit((c as int / 16) % 16);
      HexDigit(c as int % 16);
      EscapeStands(HEX[(c as int / 16) % 16], HEX[c as int % 16], rest);
      hide PercentDecode, HexValue, Alphanumeric;
    }
  }

  /** What is percent-encoded is read back by percent-decoding, and every octet that is not allowed is
      escaped. */
  lemma {:induction false} EncodeReadsBack(s: string, allowed: string, rest: string)
    requires '%' !in allowed && forall i :: 0 <= i < |s| ==> s[i] as int < 256
    ensures PercentDecode(Encode(s, allowed) + rest) == s + PercentDecode(rest)
  {
    hide PercentDecode, EncodeChar;
    if s == [] {
      assert Encode(s, allowed) + rest == rest && s + PercentDecode(rest) == PercentDecode(rest);
    } else {
      var n := |s| - 1;
      EscapeReads(s[n], allowed, rest);
      EncodeReadsBack(s[..n], allowed, EncodeChar(s[n], allowed) + rest);
      assert Encode(s, allowed) + rest == Encode(s[..n], allowed) + (EncodeChar(s[n], allowed) + rest);
      assert s + PercentDecode(rest) == s[..n] + ([s[n]] + PercentDecode(rest));
    }
  }

  /** Only characters that need no escape, and escapes, appear in it. */
  lemma {:induction false} EncodedText(s: string, allowed: string)
    ensures forall i :: 0 <= i < |Encode(s, allowed)| ==>
              var c := Encode(s, allowed)[i]; Alphanumeric(c) || c in allowed || c == '%'
  {
    if s != [] {
      EncodedText(s[..|s| - 1], allowed);
      HexDigit((s[|s| - 1] as int / 16) % 16);
      HexDigit(s[|s| - 1] as int % 16);
    }
  }

  // ---- Where it fails ---------------------------------------------------------------------------------------

  /** Percent-encoding leaves the user alone; ';' and '?' are among what it leaves alone. */
  predicate EncodedUser(s: string) {
    forall i :: 0 <= i < |s| ==> Alphanumeric(s[i]) || s[i] in USER_CHARS
  }

  function WithUser(u: Uri, user: string): Uri
    requires u.auth.Some?
  {
    u.(auth := Some(u.auth.value.(user := user)))
  }

  lemma EncodedVisible(user: string)
    requires EncodedUser(user)
    ensures Free(user, "@:") && Encode(user, USER_CHARS) == user
  {
    NothingEncoded(user, USER_CHARS);
    forall i | 0 <= i < |user| ensures Visible(user[i]) && user[i] !in "@:" { EncodedChar(user[i]); }
  }

  lemma EncodedChar(c: char)
    requires Alphanumeric(c) || c in USER_CHARS
    ensures Visible(c) && c !in "@:"
  {
  }

  /** What follows the user in the printed text. */
  function Tail(u: Uri): string
    requires u.auth.Some?
  {
    (if u.auth.value.password.Some? then ":" + Encode(u.auth.value.password.value, PASSWORD_CHARS) else "") + "@"
    + PrintHostWithPort(u.hostWithPort) + PrintParams(u.params) + if u.headers != [] then "?" + PrintHeaders(u.headers) else ""
  }

  lemma PrintWithTail(u: Uri)
    requires u.auth.Some? && u.scheme.Some? && EncodedUser(u.auth.value.user)
    ensures Print(u) == SchemeText(u.scheme.value) + ":" + u.auth.value.user + Tail(u)
  {
    hide Encode, PrintHostWithPort, PrintParams, PrintHeaders, EncodedUser, SchemeText;
    var a := u.auth.value;
    EncodedVisible(a.user);
    var pw := if a.password.Some? then ":" + Encode(a.password.value, PASSWORD_CHARS) else "";
    var rest := if u.headers != [] then "?" + PrintHeaders(u.headers) else "";
    Regroup(SchemeText(u.scheme.value) + ":", a.user, pw, "@", PrintHostWithPort(u.hostWithPort), PrintParams(u.params), rest);
    assert PrintAuth(a) == a.user + pw;
  }

  lemma Regroup(a: string, b: string, c: string, d: string, e: string, f: string, g: string)
    ensures a + (((b + c) + d) + e) + f + g == (a + b) + (c + d + e + f + g)
  {
  }

  lemma TailVisible(u: Uri, std: IpParser)
    requires Plain(u, std) && u.auth.Some?
    ensures forall i :: 0 <= i < |Tail(u)| ==> Visible(Tail(u)[i])
  {
    PrintVisible(u, std);
    PrintWithTail(u) by { assert EncodedUser(u.auth.value.user); }
    hide Tail, Print, Plain;
    var front := SchemeText(u.scheme.value) + ":" + u.auth.value.user;
    forall i | 0 <= i < |Tail(u)| ensures Visible(Tail(u)[i]) {
      assert Print(u)[|front| + i] == Tail(u)[i];
    }
  }

  /** The text is cut inside the user, so the parsed URI has no user. */
  lemma CutInsideUser(scheme: string, user: string, i: nat, tail: string)
    requires i < |user| && (user[i] == ';' || user[i] == '?')
    requires forall k :: 0 <= k < i ==> user[k] != ';' && user[k] != '?'
    requires Free(scheme, ";?")
    ensures var t := scheme + ":" + user + tail;
            Before(Before(t, '?'), ';') == scheme + ":" + user[..i]
  {
    var front := scheme + ":" + user[..i];
    var back := user[i + 1..] + tail;
    var t := scheme + ":" + user + tail;
    assert user == user[..i] + [user[i]] + user[i + 1..];
    assert t == front + [user[i]] + back;
    if user[i] == '?' {
      FoundAt(front, '?', back);
      NotFound(front, ';');
    } else {
      var q := Find(back, '?', 0);
      var main := Before(t, '?');
      if q < |back| {
        FindIs(t, '?', 0, |front| + 1 + q);
        assert main == front + [';'] + back[..q];
        FoundAt(front, ';', back[..q]);
      } else {
        NotFound(t, '?');
        FoundAt(front, ';', back);
      }
    }
  }

  lemma FirstBad(user: string) returns (i: nat)
    requires EncodedUser(user) && !UserText(user)
    ensures i < |user| && (user[i] == ';' || user[i] == '?')
    ensures forall k :: 0 <= k < i ==> user[k] != ';' && user[k] != '?'
  {
    i := 0;
    while user[i] != ';' && user[i] != '?'
      invariant 0 <= i < |user|
      invariant forall k :: 0 <= k < i ==> user[k] != ';' && user[k] != '?'
      decreases |user| - i
    {
      assert i + 1 == |user| ==> UserText(user);
      i := i + 1;
    }
  }

  /** A host part without '@' gives no user. */
  lemma NoUser(scheme: string, part: string, std: IpParser, params: seq<Param>, headers: seq<(string, string)>)
    requires Free(scheme, ":") && AllAlphabetic(scheme) && Free(part, "@")
    ensures var u := ParseMain(scheme + ":" + part, std, params, headers);
            u.Some? ==> u.value.auth.None?
  {
    hide ParseHostWithPort, ParseScheme, ParseAuth, RFind;
    FoundAt(scheme, ':', part);
    var t := scheme + ":" + part;
    assert t[..|scheme|] == scheme && t[|scheme| + 1..] == part;
    NotFound(part, '@');
  }

  lemma BrokenText(u: Uri, std: IpParser, user: string)
    requires Plain(u, std) && u.auth.Some? && EncodedUser(user)
    ensures Print(WithUser(u, user)) == SchemeText(u.scheme.value) + ":" + user + Tail(u)
    ensures Unwrap(Print(WithUser(u, user))) == Print(WithUser(u, user))
  {
    hide Print, Unwrap, SchemeText, Trim, PlainParam, PlainHeader, PlainHost, UserText, PasswordText, Encode, PrintHostWithPort, PrintParams, PrintHeaders;
    var w := WithUser(u, user);
    SchemeReads(u.scheme.value);
    PrintWithTail(w);
    TailVisible(u, std);
    assert Tail(w) == Tail(u);
    EncodedVisible(user);
    JoinVisible(SchemeText(u.scheme.value) + ":", user, Tail(u));
    VisibleTrimmed(Print(w));
  }

  lemma JoinVisible(a: string, b: string, c: string)
    requires Free(a, "") && Free(b, "@:") && forall i :: 0 <= i < |c| ==> Visible(c[i])
    ensures forall i :: 0 <= i < |a + b + c| ==> Visible((a + b + c)[i])
  {
  }

  lemma BrokenUser(u: Uri, std: IpParser, user: string)
    requires Plain(u, std) && u.auth.Some? && EncodedUser(user) && !UserText(user)
    ensures ParseUri(Print(WithUser(u, user)), std) != Some(WithUser(u, user))
  {
    hide Print, Tail, Plain, Unwrap, Before, Behind, ParseMain, ParamsOf, Split, HeadersOf, Trim, SchemeText, ParseScheme, UserText, EncodedUser, Encode;
    BrokenText(u, std, user);
    BrokenScheme(u, std);
    EncodedVisible(user);
    var scheme := SchemeText(u.scheme.value);
    var i := FirstBad(user);
    CutInsideUser(scheme, user, i, Tail(u));
    forall params, headers
      ensures var r := ParseMain(scheme + ":" + user[..i], std, params, headers); r.Some? ==> r.value.auth.None?
    {
      NoUser(scheme, user[..i], std, params, headers);
    }
  }

  lemma BrokenScheme(u: Uri, std: IpParser)
    requires Plain(u, std)
    ensures u.scheme.Some? && Free(SchemeText(u.scheme.value), ":;?") && AllAlphabetic(SchemeText(u.scheme.value))
  {
    SchemeReads(u.scheme.value);
  }

  /** For a user over the characters percent-encoding leaves alone, the URI is read back exactly
      when the user contains neither ';' nor '?'. */
  lemma ReadsExactlyWhen(u: Uri, std: IpParser, user: string)
    requires Plain(u, std) && u.auth.Some? && EncodedUser(user)
    ensures ParseUri(Print(WithUser(u, user)), std) == Some(WithUser(u, user))
            <==> forall i :: 0 <= i < |user| ==> user[i] != ';' && user[i] != '?'
  {
    hide ParseUri, Print, PlainParam, PlainHeader, PlainHost;
    if UserText(user) {
      UriReads(WithUser(u, user), std);
    } else {
      BrokenUser(u, std, user);
    }
  }
}
