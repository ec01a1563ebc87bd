/** Octet strings and the searches the stream code makes in them. */
module Octets {
  import opened Prelude
  import opened TransactionKey

  /** One char per octet. */
  type Octets = string

  const CRLF := "\r\n"
  const BREAK := "\r\n\r\n"

  /** `memchr`: where `c` first occurs from `from` on, or the length. */
  function Find(s: Octets, c: char, from: nat): (r: nat)
    requires from <= |s|
    ensures from <= r <= |s| && (r < |s| ==> s[r] == c)
    ensures forall k :: from <= k < r ==> s[k] != c
    decreases |s| - from
  {
    if from == |s| || s[from] == c then from else Find(s, c, from + 1)
  }

  lemma FindIs(s: Octets, c: char, from: nat, r: nat)
    requires from <= r <= |s| && (r < |s| ==> s[r] == c)
    requires forall k :: from <= k < r ==> s[k] != c
    ensures Find(s, c, from) == r
  {
    var f := Find(s, c, from);
    assert f < |s| ==> s[f] == c;
  }

  predicate At(s: Octets, i: nat, t: Octets) {
    i + |t| <= |s| && s[i..i + |t|] == t
  }

  predicate StartsWith(s: Octets, t: Octets) { t <= s }

  /** `memmem::find`: the first blank line, from `from` on. */
  function FindBreak(s: Octets, from: nat): (r: Option<nat>)
    ensures r.Some? ==> from <= r.value && At(s, r.value, BREAK) && forall k :: from <= k < r.value ==> !At(s, k, BREAK)
    ensures r.None? ==> forall k :: from <= k ==> !At(s, k, BREAK)
    decreases |s| - from
  {
    if from + 4 > |s| then None
    else if At(s, from, BREAK) then Some(from)
    else FindBreak(s, from + 1)
  }

  /** The first blank line of a prefix is the first one of the whole. */
  lemma BreakInPrefix(s: Octets, rest: Octets)
    requires FindBreak(s, 0).Some?
    ensures FindBreak(s + rest, 0) == FindBreak(s, 0)
  {
    var i := FindBreak(s, 0).value;
    var t := s + rest;
    assert t[i..i + 4] == s[i..i + 4];
    assert forall k :: 0 <= k < i ==> (At(t, k, BREAK) <==> At(s, k, BREAK)) by {
      forall k | 0 <= k < i ensures At(t, k, BREAK) <==> At(s, k, BREAK) {
        assert t[k..k + 4] == s[k..k + 4];
      }
    }
    var f := FindBreak(t, 0);
    assert At(t, i, BREAK);
    assert f.Some? && At(t, f.value, BREAK);
  }

  /** A shorter piece has its first blank line at the same place, or none. */
  lemma BreakInPiece(s: Octets, p: nat)
    requires p <= |s|
    ensures FindBreak(s[..p], 0).Some? ==> FindBreak(s, 0) == FindBreak(s[..p], 0)
  {
    if FindBreak(s[..p], 0).Some? {
      BreakInPrefix(s[..p], s[p..]);
      assert s[..p] + s[p..] == s;
    }
  }

  // ---- Text -----------------------------------------------------------------------

  predicate IsSpace(c: char) { c == ' ' || '\t' <= c <= '\r' }

  function TrimStart(s: Octets): Octets {
    if s != [] && IsSpace(s[0]) then TrimStart(s[1..]) else s
  }

  function TrimEnd(s: Octets): Octets {
    if s != [] && IsSpace(s[|s| - 1]) then TrimEnd(s[..|s| - 1]) else s
  }

  function Trim(s: Octets): Octets { TrimEnd(TrimStart(s)) }

  /** No white space at either end. */
  predicate Trimmed(s: Octets) {
    s == [] || (!IsSpace(s[0]) && !IsSpace(s[|s| - 1]))
  }

  lemma TrimTrimmed(s: Octets)
    requires Trimmed(s)
    ensures Trim(s) == s
  {
  }

  function Lower(c: char): char {
    if 'A' <= c <= 'Z' then ((c as int) + 32) as char else c
  }

  predicate SameName(a: Octets, b: Octets) {
    |a| == |b| && forall i :: 0 <= i < |a| ==> Lower(a[i]) == Lower(b[i])
  }

  predicate IsDigit(c: char) { '0' <= c <= '9' }

  predicate AllDigits(s: Octets) { forall i :: 0 <= i < |s| ==> IsDigit(s[i]) }

  function DigitsValue(s: Octets): nat
    requires AllDigits(s)
  {
    if s == [] then 0
    else
      assert IsDigit(s[|s| - 1]);
      DigitsValue(s[..|s| - 1]) * 10 + (s[|s| - 1] as int - '0' as int)
  }

  const MAX_USIZE := 0xFFFF_FFFF_FFFF_FFFF

  /** `str::parse::<usize>`: an optional plus sign, digits, no overflow. */
  function ParseUsize(s: Octets): Option<nat> {
    var digits := if s != [] && s[0] == '+' then s[1..] else s;
    if digits == [] || !AllDigits(digits) then None
    else if DigitsValue(digits) > MAX_USIZE then None
    else Some(DigitsValue(digits))
  }

  lemma {:induction false} DecimalParses(n: nat)
    ensures Decimal(n) != [] && AllDigits(Decimal(n))
    ensures DigitsValue(Decimal(n)) == n
  {
    assert forall d :: 0 <= d < 10 ==> IsDigit(DIGITS[d]) && DIGITS[d] as int - '0' as int == d;
    if n < 10 {
      assert Decimal(n) == [DIGITS[n]];
      assert Decimal(n)[..0] == [];
    } else {
      DecimalParses(n / 10);
      var s := Decimal(n);
      assert s == Decimal(n / 10) + [DIGITS[n % 10]];
      assert s[..|s| - 1] == Decimal(n / 10);
    }
  }

  /** A length is written so that it reads back. */
  lemma LengthReadsBack(n: nat)
    requires n <= MAX_USIZE
    ensures Trimmed(Decimal(n)) && ParseUsize(Decimal(n)) == Some(n)
  {
    DecimalParses(n);
  }
}
