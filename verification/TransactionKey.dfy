/** Which messages land on which transaction (src/transaction/key.rs). */
module TransactionKey {
  import opened Prelude
  import opened SipMessages

  type Key = string

  function RoleText(role: Role): string {
    match role case Client => "c" case Server => "s"
  }

  function MethodText(m: Method): string {
    match m
    case Ack => "ACK" case Bye => "BYE" case Cancel => "CANCEL" case Info => "INFO"
    case Invite => "INVITE" case Message => "MESSAGE" case Notify => "NOTIFY" case Options => "OPTIONS"
    case PRack => "PRACK" case Publish => "PUBLISH" case Refer => "REFER" case Register => "REGISTER"
    case Subscribe => "SUBSCRIBE" case Update => "UPDATE"
  }

  const DIGITS := "0123456789"

  function Decimal(n: nat): string {
    if n < 10 then [DIGITS[n]] else Decimal(n / 10) + [DIGITS[n % 10]]
  }

  function BuildKey(role: Role, via: Via, verb: Method, cseq: nat, fromTag: string, callId: string): Key {
    RoleText(role) + "." + MethodText(verb) + "_" + Decimal(cseq) + "_" + callId + "_" + fromTag + "_" +
    match via.branch
    case Some(branch) => branch
    case None => via.sentBy + ".2543"
  }

  /** `from_request`: at a server, ACK and CANCEL match as INVITE. */
  function RequestKey(r: Request, role: Role): Option<Key> {
    if r.ids.fromTag.None? then None
    else
      var verb := if (r.verb == Ack || r.verb == Cancel) && role == Server then Invite else r.verb;
      Some(BuildKey(role, r.ids.via, verb, r.ids.cseq, r.ids.fromTag.value, r.ids.callId))
  }

  function ResponseKey(r: Response, role: Role): Option<Key> {
    if r.ids.fromTag.None? then None
    else Some(BuildKey(role, r.ids.via, r.verb, r.ids.cseq, r.ids.fromTag.value, r.ids.callId))
  }

  // ---- What a key determines -------------------------------------------

  predicate NoUnderscore(s: string) {
    forall i :: 0 <= i < |s| ==> s[i] != '_'
  }

  /** The text before the first underscore is determined by the whole. */
  lemma FirstField(a: string, b: string, x: string, y: string)
    requires NoUnderscore(a) && NoUnderscore(b)
    requires a + "_" + x == b + "_" + y
    ensures a == b && x == y
  {
    var s, t := a + "_" + x, b + "_" + y;
    assert forall i :: 0 <= i < |a| ==> s[i] == a[i];
    assert forall i :: 0 <= i < |b| ==> t[i] == b[i];
    assert s[|a|] == '_' && t[|b|] == '_';
    assert |a| == |b|;
    assert a == s[..|a|] && b == t[..|b|];
    assert x == s[|a| + 1..] && y == t[|b| + 1..];
  }

  lemma {:induction false} DecimalDigits(n: nat)
    ensures |Decimal(n)| > 0 && NoUnderscore(Decimal(n))
    ensures n < 10 <==> |Decimal(n)| == 1
  {
    if n >= 10 { DecimalDigits(n / 10); }
  }

  lemma {:induction false} DecimalInjective(m: nat, n: nat)
    requires Decimal(m) == Decimal(n)
    ensures m == n
  {
    DecimalDigits(m);
    DecimalDigits(n);
    var s, t := Decimal(m), Decimal(n);
    assert DIGITS[m % 10] == s[|s| - 1] == t[|t| - 1] == DIGITS[n % 10];
    assert m % 10 == n % 10;
    if m >= 10 {
      assert Decimal(m / 10) == s[..|s| - 1] == t[..|t| - 1] == Decimal(n / 10);
      DecimalInjective(m / 10, n / 10);
    }
  }

  lemma MethodTextInjective(a: Method, b: Method)
    requires MethodText(a) == MethodText(b)
    ensures a == b
  {
    assert |MethodText(a)| == |MethodText(b)| && MethodText(a)[0] == MethodText(b)[0];
    assert MethodText(a)[|MethodText(a)| - 1] == MethodText(b)[|MethodText(b)| - 1];
  }

  function AfterCSeq(via: Via, fromTag: string, callId: string): string {
    callId + "_" + fromTag + "_" +
    match via.branch
    case Some(branch) => branch
    case None => via.sentBy + ".2543"
  }

  /** Role and method, before the first underscore. */
  function KeyHead(role: Role, verb: Method): string {
    RoleText(role) + "." + MethodText(verb)
  }

  lemma KeyShape(role: Role, via: Via, verb: Method, cseq: nat, fromTag: string, callId: string)
    ensures BuildKey(role, via, verb, cseq, fromTag, callId)
            == KeyHead(role, verb) + "_" + (Decimal(cseq) + "_" + AfterCSeq(via, fromTag, callId))
  {
    hide Decimal, RoleText, MethodText;
    var head, number, end := KeyHead(role, verb), Decimal(cseq), if via.branch.Some? then via.branch.value else via.sentBy + ".2543";
    assert BuildKey(role, via, verb, cseq, fromTag, callId) == head + "_" + number + "_" + callId + "_" + fromTag + "_" + end;
    assert AfterCSeq(via, fromTag, callId) == callId + "_" + fromTag + "_" + end;
  }

  lemma HeadIsClean(role: Role, verb: Method)
    ensures NoUnderscore(KeyHead(role, verb))
  {
  }

  lemma KeyHeadInjective(r1: Role, m1: Method, r2: Role, m2: Method)
    requires KeyHead(r1, m1) == KeyHead(r2, m2)
    ensures r1 == r2 && m1 == m2
  {
    var a, b := KeyHead(r1, m1), KeyHead(r2, m2);
    assert a[0] == b[0];
    assert MethodText(m1) == a[2..] && MethodText(m2) == b[2..];
    MethodTextInjective(m1, m2);
  }

  /** Equal keys have the same role, method and CSeq number, whatever the tags and Call-IDs. */
  lemma KeyDeterminesHead(r1: Role, v1: Via, m1: Method, n1: nat, t1: string, c1: string,
                          r2: Role, v2: Via, m2: Method, n2: nat, t2: string, c2: string)
    requires BuildKey(r1, v1, m1, n1, t1, c1) == BuildKey(r2, v2, m2, n2, t2, c2)
    ensures r1 == r2 && m1 == m2 && n1 == n2
    ensures AfterCSeq(v1, t1, c1) == AfterCSeq(v2, t2, c2)
  {
    KeyShape(r1, v1, m1, n1, t1, c1);
    KeyShape(r2, v2, m2, n2, t2, c2);
    var rest1, rest2 := AfterCSeq(v1, t1, c1), AfterCSeq(v2, t2, c2);
    HeadIsClean(r1, m1);
    HeadIsClean(r2, m2);
    FirstField(KeyHead(r1, m1), KeyHead(r2, m2), Decimal(n1) + "_" + rest1, Decimal(n2) + "_" + rest2);
    KeyHeadInjective(r1, m1, r2, m2);
    DecimalDigits(n1);
    DecimalDigits(n2);
    FirstField(Decimal(n1), Decimal(n2), rest1, rest2);
    DecimalInjective(n1, n2);
  }
}
