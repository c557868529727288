/**
Scoped, expiring tickets (backend/app/tickets.py): `v1.<scope>.<expires_at>.<nonce>.<signature>`.

`sign` stands for the keyed HMAC-SHA256 (section 2 of RFC 2104) in hexadecimal. Nothing is assumed of it but
that its output is ASCII and contains no separator.
*/
module Tickets {
  import opened Prelude

  type Sign = string -> string

  predicate DotFree(s: string) { '.' !in s }

  predicate Ascii(s: string) { forall i :: 0 <= i < |s| ==> s[i] < '\U{80}' }

  ghost predicate HexSigner(sign: Sign) {
    forall payload :: DotFree(sign(payload)) && Ascii(sign(payload))
  }

  // ----- joining and splitting

  function Join(parts: seq<string>): string {
    if parts == [] then "" else if |parts| == 1 then parts[0] else parts[0] + "." + Join(parts[1..])
  }

  function Split(s: string): (parts: seq<string>)
    ensures parts != []
  {
    if s == "" then [""]
    else
      var rest := Split(s[1..]);
      if s[0] == '.' then [""] + rest else [[s[0]] + rest[0]] + rest[1..]
  }

  lemma {:induction false} SplitWord(p: string)
    requires DotFree(p)
    ensures Split(p) == [p]
  {
    if p != "" {
      SplitWord(p[1..]);
      assert p == [p[0]] + p[1..];
    }
  }

  lemma {:induction false} SplitHead(p: string, s: string)
    requires DotFree(p)
    ensures Split(p + "." + s) == [p] + Split(s)
  {
    if p == "" { assert p + "." + s == "." + s && ("." + s)[1..] == s; }
    else {
      SplitHead(p[1..], s);
      assert (p + "." + s)[1..] == p[1..] + "." + s;
      assert p == [p[0]] + p[1..];
      assert Split(p[1..] + "." + s)[1..] == Split(s);
    }
  }

  /** Fields without the separator survive joining and splitting. */
  lemma {:induction false} SplitJoin(parts: seq<string>)
    requires parts != [] && forall i :: 0 <= i < |parts| ==> DotFree(parts[i])
    ensures Split(Join(parts)) == parts
  {
    if |parts| == 1 { SplitWord(parts[0]); }
    else {
      SplitJoin(parts[1..]);
      SplitHead(parts[0], Join(parts[1..]));
      assert parts == [parts[0]] + parts[1..];
    }
  }

  /** Any string is the join of its fields, which are free of the separator. */
  lemma {:induction false} JoinSplit(s: string)
    ensures Join(Split(s)) == s
    ensures forall i :: 0 <= i < |Split(s)| ==> DotFree(Split(s)[i])
  {
    if s != "" {
      JoinSplit(s[1..]);
      var rest := Split(s[1..]);
      assert s == [s[0]] + s[1..];
      if s[0] == '.' { assert ([""] + rest)[1..] == rest; }
      else {
        var parts := [[s[0]] + rest[0]] + rest[1..];
        assert parts[1..] == rest[1..];
        if |rest| > 1 { assert Join(parts) == ([s[0]] + rest[0]) + "." + Join(rest[1..]); }
      }
    }
  }

  /** The number of fields is one more than the number of separators, so a dotted field adds fields. */
  lemma {:induction false} SplitConcat(a: string, b: string)
    ensures |Split(a + "." + b)| == |Split(a)| + |Split(b)|
  {
    if a == "" { assert a + "." + b == "." + b && ("." + b)[1..] == b; }
    else {
      SplitConcat(a[1..], b);
      assert (a + "." + b)[1..] == a[1..] + "." + b;
    }
  }

  lemma {:induction false} DottedSplits(s: string)
    requires !DotFree(s)
    ensures |Split(s)| >= 2
  {
    if s[0] != '.' { DottedSplits(s[1..]); }
  }

  // ----- decimal numbers

  function Digit(d: nat): char
    requires d < 10
  {
    '0' + d as char
  }

  function PrintNat(n: nat): string {
    if n < 10 then [Digit(n)] else PrintNat(n / 10) + [Digit(n % 10)]
  }

  function PrintInt(n: int): string {
    if n < 0 then "-" + PrintNat(-n) else PrintNat(n)
  }

  /** Digits, with single underscores allowed between them. */
  function ParseDigits(s: string): Option<int> {
    if s == "" || !('0' <= s[|s| - 1] <= '9') then None
    else
      var d := (s[|s| - 1] - '0') as int;
      if |s| == 1 then Some(d)
      else
        var rest := if s[|s| - 2] == '_' then s[..|s| - 2] else s[..|s| - 1];
        match ParseDigits(rest)
        case Some(n) => Some(10 * n + d)
        case None => None
  }

  predicate IsSpace(c: char) {
    c == ' ' || '\t' <= c <= '\r' || '\U{1C}' <= c <= '\U{1F}'
  }

  function Stripped(s: string): string
    decreases |s|
  {
    if s == "" then s
    else if IsSpace(s[0]) then Stripped(s[1..])
    else if IsSpace(s[|s| - 1]) then Stripped(s[..|s| - 1])
    else s
  }

  /** Python's int(): surrounding white space, an optional sign, then digits. */
  function ParseInt(s: string): Option<int> {
    var t := Stripped(s);
    if t == "" then None
    else if t[0] == '-' then
      match ParseDigits(t[1..])
      case Some(n) => Some(-n)
      case None => None
    else
      match ParseDigits(if t[0] == '+' then t[1..] else t)
      case Some(n) => Some(n)
      case None => None
  }

  ghost predicate AllDigits(s: string) {
    s != "" && forall i :: 0 <= i < |s| ==> '0' <= s[i] <= '9'
  }

  lemma DigitValue(d: nat)
    requires d < 10
    ensures '0' <= Digit(d) <= '9' && (Digit(d) - '0') as int == d
  { }

  lemma ParseMore(s: string, n: int, d: nat)
    requires AllDigits(s) && ParseDigits(s) == Some(n) && d < 10
    ensures AllDigits(s + [Digit(d)]) && ParseDigits(s + [Digit(d)]) == Some(10 * n + d)
  {
    hide Digit;
    DigitValue(d);
    var t := s + [Digit(d)];
    assert t[..|t| - 1] == s && t[|t| - 2] == s[|s| - 1];
  }

  lemma {:induction false} ParsePrintNat(n: nat)
    ensures AllDigits(PrintNat(n)) && ParseDigits(PrintNat(n)) == Some(n)
  {
    hide Digit, AllDigits, ParseDigits;
    if n < 10 { ParseOne(n); }
    else {
      ParsePrintNat(n / 10);
      ParseMore(PrintNat(n / 10), n / 10, n % 10);
    }
  }

  lemma ParseOne(d: nat)
    requires d < 10
    ensures AllDigits([Digit(d)]) && ParseDigits([Digit(d)]) == Some(d)
  {
    DigitValue(d);
  }

  lemma ParsePrintInt(n: int)
    ensures ParseInt(PrintInt(n)) == Some(n) && DotFree(PrintInt(n))
  {
    hide PrintNat, ParseDigits;
    var digits := PrintNat(if n < 0 then -n else n);
    ParsePrintNat(if n < 0 then -n else n);
    var s := PrintInt(n);
    assert s[|s| - 1] == digits[|digits| - 1];
    assert Stripped(s) == s;
    if n < 0 { assert s[1..] == digits; } else { assert s[0] == digits[0]; }
  }

  // ----- issuing and verifying

  const VERSION := "v1"

  function Payload(scope: string, raw: string, nonce: string): string {
    Join([VERSION, scope, raw, nonce])
  }

  /** int(time.time()) + ttl. */
  function ExpiresAt(now: real, ttl: int): int {
    (if now >= 0.0 then now.Floor else -((-now).Floor)) + ttl
  }

  /** `issue_ticket`, given the clock and the nonce. */
  function IssueTicket(scope: string, ttl: int, now: real, nonce: string, sign: Sign): string {
    var payload := Payload(scope, PrintInt(ExpiresAt(now, ttl)), nonce);
    payload + "." + sign(payload)
  }

  datatype Verdict = Accept | Reject | Raises

  /** hmac.compare_digest on two strings raises a TypeError unless both are ASCII. */
  function CompareDigest(a: string, b: string): Verdict {
    if !Ascii(a) || !Ascii(b) then Raises else if a == b then Accept else Reject
  }

  /** `verify_ticket`. */
  function VerifyTicket(ticket: Option<string>, scope: string, now: real, sign: Sign): Verdict {
    if ticket.None? || ticket.value == "" then Reject
    else
      var parts := Split(ticket.value);
      if |parts| != 5 then Reject
      else if parts[0] != VERSION then Reject
      else
        var signed := CompareDigest(parts[4], sign(Join(parts[..4])));
        if !signed.Accept? then signed
        else
          var scoped := CompareDigest(parts[1], scope);
          if !scoped.Accept? then scoped
          else
            match ParseInt(parts[2])
            case None => Reject
            case Some(expires) => if now < expires as real then Accept else Reject
  }

  // ----- what an issued ticket is worth

  lemma {:induction false} JoinOne(parts: seq<string>, last: string)
    requires parts != []
    ensures Join(parts + [last]) == Join(parts) + "." + last
  {
    if |parts| > 1 {
      assert (parts + [last])[1..] == parts[1..] + [last];
      JoinOne(parts[1..], last);
    } else {
      assert (parts + [last])[1..] == [last];
    }
  }

  lemma JoinFour(a: string, b: string, c: string, d: string)
    ensures Join([a, b, c, d]) == a + "." + (b + "." + (c + "." + d))
  {
    assert [a, b, c, d][1..] == [b, c, d] && [b, c, d][1..] == [c, d] && [c, d][1..] == [d];
    assert Join([c, d]) == c + "." + d;
    assert Join([b, c, d]) == b + "." + Join([c, d]);
  }

  lemma TicketFields(scope: string, raw: string, nonce: string, signature: string)
    requires DotFree(scope) && DotFree(raw) && DotFree(nonce) && DotFree(signature)
    ensures Split(Payload(scope, raw, nonce) + "." + signature) == [VERSION, scope, raw, nonce, signature]
  {
    hide Join, Split;
    var fields := [VERSION, scope, raw, nonce];
    JoinOne(fields, signature);
    assert DotFree(VERSION);
    SplitJoin(fields + [signature]);
  }

  /** A ticket with a dotted scope has too many fields. */
  lemma DottedScope(scope: string, raw: string, nonce: string, signature: string)
    requires !DotFree(scope)
    ensures |Split(Payload(scope, raw, nonce) + "." + signature)| > 5
  {
    hide Split;
    var rest := raw + "." + nonce;
    JoinFour(VERSION, scope, raw, nonce);
    assert Payload(scope, raw, nonce) == VERSION + "." + (scope + "." + rest);
    SplitConcat(Payload(scope, raw, nonce), signature);
    SplitConcat(VERSION, scope + "." + rest);
    SplitConcat(scope, rest);
    SplitConcat(raw, nonce);
    DottedSplits(scope);
  }

  /** For every scope: an issued ticket is accepted exactly if the scope is dot-free ASCII and it has not expired. */
  lemma IssuedVerifies(scope: string, ttl: int, issued: real, nonce: string, now: real, sign: Sign)
    requires HexSigner(sign) && DotFree(nonce)
    ensures VerifyTicket(Some(IssueTicket(scope, ttl, issued, nonce, sign)), scope, now, sign)
            == if !DotFree(scope) then Reject
               else if !Ascii(scope) then Raises
               else if now < ExpiresAt(issued, ttl) as real then Accept
               else Reject
  {
    hide Split, ParseInt, PrintInt, ExpiresAt, Ascii, DotFree;
    var expires := ExpiresAt(issued, ttl);
    var raw := PrintInt(expires);
    var payload := Payload(scope, raw, nonce);
    ParsePrintInt(expires);
    var ticket := IssueTicket(scope, ttl, issued, nonce, sign);
    assert ticket != "";
    if DotFree(scope) {
      TicketFields(scope, raw, nonce, sign(payload));
      assert Split(ticket)[..4] == [VERSION, scope, raw, nonce];
    } else {
      DottedScope(scope, raw, nonce, sign(payload));
    }
  }

  lemma ExpiryBounds(now: real, ttl: int)
    requires now >= 0.0
    ensures now + ttl as real - 1.0 < ExpiresAt(now, ttl) as real <= now + ttl as real
  { }

  /** A ticket lives for its lifetime, rounded down to whole seconds: never longer, and less than one second shorter. */
  lemma LifetimeKept(scope: string, ttl: int, issued: real, nonce: string, now: real, sign: Sign)
    requires HexSigner(sign) && DotFree(nonce) && DotFree(scope) && Ascii(scope) && issued >= 0.0
    ensures var verdict := VerifyTicket(Some(IssueTicket(scope, ttl, issued, nonce, sign)), scope, now, sign);
            && (now <= issued + ttl as real - 1.0 ==> verdict == Accept)
            && (now >= issued + ttl as real ==> verdict == Reject)
  {
    hide VerifyTicket, IssueTicket, ExpiresAt, DotFree, Ascii;
    IssuedVerifies(scope, ttl, issued, nonce, now, sign);
    ExpiryBounds(issued, ttl);
  }

  /** What acceptance says about a string: its five fields, the last signing the others, in scope and in time. */
  ghost predicate Genuine(ticket: string, scope: string, now: real, sign: Sign, raw: string, nonce: string) {
    && DotFree(scope) && DotFree(raw) && DotFree(nonce) && Ascii(scope)
    && ticket == Payload(scope, raw, nonce) + "." + sign(Payload(scope, raw, nonce))
    && ParseInt(raw).Some? && now < ParseInt(raw).value as real
  }

  lemma GenuineAccepted(ticket: string, scope: string, now: real, sign: Sign, raw: string, nonce: string)
    requires HexSigner(sign) && Genuine(ticket, scope, now, sign, raw, nonce)
    ensures VerifyTicket(Some(ticket), scope, now, sign) == Accept
  {
    hide Split, ParseInt, Ascii, DotFree;
    TicketFields(scope, raw, nonce, sign(Payload(scope, raw, nonce)));
    assert Split(ticket)[..4] == [VERSION, scope, raw, nonce];
  }

  lemma AcceptedGenuine(ticket: string, scope: string, now: real, sign: Sign) returns (raw: string, nonce: string)
    requires VerifyTicket(Some(ticket), scope, now, sign) == Accept
    ensures Genuine(ticket, scope, now, sign, raw, nonce)
  {
    hide Split, ParseInt, Ascii, DotFree;
    JoinSplit(ticket);
    var parts := Split(ticket);
    raw, nonce := parts[2], parts[3];
    assert parts[..4] == [VERSION, scope, raw, nonce];
    JoinOne(parts[..4], parts[4]);
    assert parts == parts[..4] + [parts[4]];
  }

  /** Accepted strings are exactly the genuine ones. */
  lemma AcceptedIffGenuine(ticket: string, scope: string, now: real, sign: Sign)
    requires HexSigner(sign)
    ensures VerifyTicket(Some(ticket), scope, now, sign) == Accept
            <==> exists raw, nonce :: Genuine(ticket, scope, now, sign, raw, nonce)
  {
    hide Genuine, VerifyTicket;
    if VerifyTicket(Some(ticket), scope, now, sign) == Accept {
      var raw, nonce := AcceptedGenuine(ticket, scope, now, sign);
    }
    if raw, nonce :| Genuine(ticket, scope, now, sign, raw, nonce) {
      GenuineAccepted(ticket, scope, now, sign, raw, nonce);
    }
  }

  // ----- a client cannot widen its ticket

  datatype Grant = Grant(scope: string, expires: int, nonce: string)

  function GrantPayload(g: Grant): string {
    Payload(g.scope, PrintInt(g.expires), g.nonce)
  }

  /** The signature on the ticket is one the server made for one of its grants. */
  ghost predicate ServerSigned(ticket: string, grants: set<Grant>, sign: Sign) {
    forall scope, raw, nonce ::
      ticket == Payload(scope, raw, nonce) + "." + sign(Payload(scope, raw, nonce)) ==>
        exists g :: g in grants && GrantPayload(g) == Payload(scope, raw, nonce)
  }

  lemma PayloadInjective(scope: string, raw: string, nonce: string, scope': string, raw': string, nonce': string)
    requires DotFree(scope) && DotFree(raw) && DotFree(nonce) && DotFree(scope') && DotFree(raw') && DotFree(nonce')
    requires Payload(scope, raw, nonce) == Payload(scope', raw', nonce')
    ensures scope == scope' && raw == raw' && nonce == nonce'
  {
    hide Join, Split;
    var a, b := [VERSION, scope, raw, nonce], [VERSION, scope', raw', nonce'];
    assert DotFree(VERSION);
    SplitJoin(a);
    SplitJoin(b);
    assert a[1] == b[1] && a[2] == b[2] && a[3] == b[3];
  }

  /** If signatures cannot be made without the server, an accepted ticket has exactly a granted scope and lifetime. */
  lemma NoWidening(ticket: string, scope: string, now: real, sign: Sign, grants: set<Grant>)
    requires VerifyTicket(Some(ticket), scope, now, sign) == Accept && ServerSigned(ticket, grants, sign)
    requires forall g :: g in grants ==> DotFree(g.scope) && DotFree(g.nonce)
    ensures exists g :: g in grants && g.scope == scope && now < g.expires as real
  {
    hide VerifyTicket, Payload, ParseInt, PrintInt, DotFree, Ascii;
    var raw, nonce := AcceptedGenuine(ticket, scope, now, sign);
    var g :| g in grants && GrantPayload(g) == Payload(scope, raw, nonce);
    ParsePrintInt(g.expires);
    PayloadInjective(scope, raw, nonce, g.scope, PrintInt(g.expires), g.nonce);
  }

  // ----- malformed tickets

  /** "False on anything malformed" fails: a non-ASCII signature makes the verifier raise. */
  lemma NonAsciiSignatureRaises(sign: Sign)
    ensures VerifyTicket(Some("v1.console.9.n.\U{E9}"), "console", 0.0, sign) == Raises
  {
    hide Join, Split;
    var ticket := "v1.console.9.n.\U{E9}";
    JoinFour("v1", "console", "9", "n");
    assert ticket == Payload("console", "9", "n") + "." + "\U{E9}";
    TicketFields("console", "9", "n", "\U{E9}");
    assert "\U{E9}"[0] >= '\U{80}';
  }

  /** When it raises: the signature field is not ASCII, or it is right and one of the scopes is not ASCII. */
  lemma RaisesExactly(ticket: string, scope: string, now: real, sign: Sign)
    requires HexSigner(sign)
    ensures VerifyTicket(Some(ticket), scope, now, sign) == Raises <==>
            var fields := Split(ticket);
            && |fields| == 5 && fields[0] == VERSION
            && (!Ascii(fields[4]) || (fields[4] == sign(Join(fields[..4])) && !(Ascii(fields[1]) && Ascii(scope))))
  {
    hide Join, ParseInt, DotFree, Ascii;
    assert |Split("")| == 1;
  }

  /** It never raises on an ASCII ticket checked against an ASCII scope; so for such input it answers. */
  lemma AsciiAnswers(ticket: Option<string>, scope: string, now: real, sign: Sign)
    requires HexSigner(sign) && Ascii(scope) && (ticket.Some? ==> Ascii(ticket.value))
    ensures VerifyTicket(ticket, scope, now, sign) != Raises
  {
    hide Join, ParseInt, DotFree;
    if ticket.Some? { AsciiFields(ticket.value); }
  }

  lemma {:induction false} AsciiFields(s: string)
    requires Ascii(s)
    ensures forall i :: 0 <= i < |Split(s)| ==> Ascii(Split(s)[i])
  {
    if s != "" {
      AsciiFields(s[1..]);
      var rest := Split(s[1..]);
      assert Ascii(rest[0]);
      forall i | 0 <= i < |rest| - 1 ensures Ascii(rest[1..][i]) { assert rest[1..][i] == rest[i + 1]; }
    }
  }
}
