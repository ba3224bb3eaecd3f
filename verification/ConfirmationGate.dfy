/** The text a confirmation token signs, and which terms it can stand for. */
module ConfirmationTerms {

  datatype Terms = Terms(
    request: string, merchant: string, buyer: string, product: string, source: string,
    amount: int, currency: string, plan: string)

  // An integer as it prints in decimal.

  function Digit(d: nat): char
    requires d < 10
  {
    (d + 48) as char
  }

  function Digits(n: nat): (s: string)
    ensures s != ""
  {
    if n < 10 then [Digit(n)] else Digits(n / 10) + [Digit(n % 10)]
  }

  function Decimal(n: int): string {
    if n < 0 then "-" + Digits(-n) else Digits(n)
  }

  predicate AllDigits(s: string) {
    forall i :: 0 <= i < |s| ==> '0' <= s[i] <= '9'
  }

  lemma {:induction false} DigitsAreDigits(n: nat)
    ensures AllDigits(Digits(n))
  {
    if n >= 10 {
      DigitsAreDigits(n / 10);
    }
  }

  /** The number that digits stand for. */
  function Read(s: string): nat
    requires AllDigits(s)
  {
    if s == "" then 0 else 10 * Read(s[..|s| - 1]) + (s[|s| - 1] as int - '0' as int)
  }

  /** What is printed reads back as what was printed. */
  lemma {:induction false} DigitsRead(n: nat)
    ensures AllDigits(Digits(n)) && Read(Digits(n)) == n
  {
    DigitsAreDigits(n);
    if n >= 10 {
      DigitsRead(n / 10);
      assert Digits(n)[..|Digits(n)| - 1] == Digits(n / 10);
    } else {
      assert Digits(n)[..0] == "" && Read("") == 0;
    }
  }

  lemma DecimalReads(n: int)
    ensures n >= 0 ==> AllDigits(Decimal(n)) && Read(Decimal(n)) == n
    ensures n < 0 ==> Decimal(n)[0] == '-' && AllDigits(Decimal(n)[1..]) && Read(Decimal(n)[1..]) == -n
  {
    DigitsRead(if n < 0 then -n else n);
    if n < 0 {
      assert Decimal(n)[1..] == Digits(-n);
    }
  }

  lemma DecimalIsInjective(m: int, n: int)
    requires Decimal(m) == Decimal(n)
    ensures m == n
  {
    DecimalReads(m);
    DecimalReads(n);
    assert Decimal(m) != "" && Decimal(n) != "";
  }

  // Joining with '|'.

  predicate PipeFree(s: string) {
    '|' !in s
  }

  function Join(parts: seq<string>): string {
    if parts == [] then "" else if |parts| == 1 then parts[0] else parts[0] + "|" + Join(parts[1..])
  }

  function Pipes(s: string): nat {
    if s == "" then 0 else (if s[0] == '|' then 1 else 0) + Pipes(s[1..])
  }

  function AllPipes(parts: seq<string>): nat {
    if parts == [] then 0 else Pipes(parts[0]) + AllPipes(parts[1..])
  }

  lemma {:induction false} PipesAppend(a: string, b: string)
    ensures Pipes(a + b) == Pipes(a) + Pipes(b)
  {
    if a == "" {
      assert a + b == b;
    } else {
      assert (a + b)[1..] == a[1..] + b;
      PipesAppend(a[1..], b);
    }
  }

  lemma {:induction false} NoPipesIff(s: string)
    ensures Pipes(s) == 0 <==> PipeFree(s)
  {
    if s != "" {
      NoPipesIff(s[1..]);
    }
  }

  lemma {:induction false} JoinPipes(parts: seq<string>)
    requires parts != []
    ensures Pipes(Join(parts)) == |parts| - 1 + AllPipes(parts)
  {
    if |parts| == 1 {
      assert parts[1..] == [];
    } else {
      JoinPipes(parts[1..]);
      PipesAppend(parts[0] + "|", Join(parts[1..]));
      PipesAppend(parts[0], "|");
      assert "|"[1..] == "" && Pipes("|") == 1;
    }
  }

  predicate AllPipeFree(parts: seq<string>) {
    forall i :: 0 <= i < |parts| ==> PipeFree(parts[i])
  }

  lemma {:induction false} NoPipesAtAllIff(parts: seq<string>)
    ensures AllPipes(parts) == 0 <==> AllPipeFree(parts)
  {
    if parts != [] {
      NoPipesAtAllIff(parts[1..]);
      NoPipesIff(parts[0]);
      assert forall i :: 0 < i < |parts| ==> parts[i] == parts[1..][i - 1];
      assert forall i :: 0 <= i < |parts[1..]| ==> parts[1..][i] == parts[i + 1];
    }
  }

  lemma {:induction false} FirstPartIsUnique(a: string, b: string, c: string, d: string)
    requires PipeFree(a) && PipeFree(c) && a + "|" + b == c + "|" + d
    ensures a == c && b == d
  {
    var x := a + "|" + b;
    assert x[|a|] == '|' && x[|c|] == '|';
    assert forall i :: 0 <= i < |a| ==> x[i] == a[i];
    assert forall i :: 0 <= i < |c| ==> x[i] == c[i];
    assert x[..|a|] == a && x[..|c|] == c && x[|a| + 1..] == b && x[|c| + 1..] == d;
  }

  /** As many parts without a '|' join to one text only. */
  lemma {:induction false} JoinIsInjective(a: seq<string>, b: seq<string>)
    requires |a| == |b| && a != [] && AllPipeFree(a) && AllPipeFree(b) && Join(a) == Join(b)
    ensures a == b
  {
    if |a| == 1 {
      assert a == [a[0]] && b == [b[0]];
    } else {
      FirstPartIsUnique(a[0], Join(a[1..]), b[0], Join(b[1..]));
      JoinIsInjective(a[1..], b[1..]);
      assert a == [a[0]] + a[1..] && b == [b[0]] + b[1..];
    }
  }

  function Parts(t: Terms): seq<string> {
    [t.request, t.merchant, t.buyer, t.product, t.source, Decimal(t.amount), t.currency, t.plan]
  }

  /** The signed text. */
  function Message(t: Terms): string {
    Join(Parts(t))
  }

  lemma MessageReads(t: Terms)
    ensures Message(t) == t.request + "|" + (t.merchant + "|" + (t.buyer + "|" + (t.product + "|" + (
                          t.source + "|" + (Decimal(t.amount) + "|" + (t.currency + "|" + t.plan))))))
  {
    var p := Parts(t);
    assert Join(p[7..]) == t.plan && Join(p[6..]) == t.currency + "|" + t.plan by {
      assert p[6..][1..] == p[7..];
    }
    assert p[5..][1..] == p[6..] && p[4..][1..] == p[5..] && p[3..][1..] == p[4..] && p[2..][1..] == p[3..];
    assert p[0..] == p && p[1..][1..] == p[2..];
    assert Join(p[5..]) == Decimal(t.amount) + "|" + Join(p[6..]);
    assert Join(p[4..]) == t.source + "|" + Join(p[5..]);
    assert Join(p[3..]) == t.product + "|" + Join(p[4..]);
    assert Join(p[2..]) == t.buyer + "|" + Join(p[3..]);
    assert Join(p[1..]) == t.merchant + "|" + Join(p[2..]);
  }

  predicate Clean(t: Terms) {
    && PipeFree(t.request) && PipeFree(t.merchant) && PipeFree(t.buyer) && PipeFree(t.product)
    && PipeFree(t.source) && PipeFree(t.currency) && PipeFree(t.plan)
  }

  lemma CleanPartsIff(t: Terms)
    ensures AllPipeFree(Parts(t)) <==> Clean(t)
  {
    DigitsAreDigits(if t.amount < 0 then -t.amount else t.amount);
    assert PipeFree(Decimal(t.amount));
    if AllPipeFree(Parts(t)) {
      var p := Parts(t);
      assert PipeFree(p[0]) && PipeFree(p[1]) && PipeFree(p[2]) && PipeFree(p[3]) && PipeFree(p[4]);
      assert PipeFree(p[6]) && PipeFree(p[7]);
    }
  }

  lemma CleanMessageIsUnique(t: Terms, u: Terms)
    requires Clean(t) && Message(t) == Message(u)
    ensures t == u
  {
    CleanPartsIff(t);
    NoPipesAtAllIff(Parts(t));
    NoPipesAtAllIff(Parts(u));
    JoinPipes(Parts(t));
    JoinPipes(Parts(u));
    JoinIsInjective(Parts(t), Parts(u));
    assert forall i :: 0 <= i < 8 ==> Parts(t)[i] == Parts(u)[i];
    DecimalIsInjective(t.amount, u.amount);
  }

  /** A '|' at the border of two parts can belong to either. */
  lemma {:induction false} JoinShift(before: seq<string>, a: string, b: string, c: string, after: seq<string>)
    ensures Join(before + [a + "|" + b, c] + after) == Join(before + [a, b + "|" + c] + after)
  {
    var x, y := before + [a + "|" + b, c] + after, before + [a, b + "|" + c] + after;
    if before == [] {
      assert x[1..] == [c] + after && y[1..] == [b + "|" + c] + after;
      assert ([c] + after)[1..] == after && ([b + "|" + c] + after)[1..] == after;
    } else {
      assert x[1..] == before[1..] + [a + "|" + b, c] + after;
      assert y[1..] == before[1..] + [a, b + "|" + c] + after;
      JoinShift(before[1..], a, b, c, after);
    }
  }

  lemma Cut(s: string) returns (a: string, b: string)
    requires !PipeFree(s)
    ensures s == a + "|" + b && |a| < |s| && |b| < |s|
  {
    var i :| 0 <= i < |s| && s[i] == '|';
    a, b := s[..i], s[i + 1..];
  }

  lemma MovedRight(t: Terms, u: Terms, i: nat, a: string, b: string)
    requires i < 7 && Parts(t)[i] == a + "|" + b
    requires Parts(u) == Parts(t)[i := a][i + 1 := b + "|" + Parts(t)[i + 1]]
    ensures Message(u) == Message(t)
  {
    var p := Parts(t);
    JoinShift(p[..i], a, b, p[i + 1], p[i + 2..]);
    assert p == p[..i] + [a + "|" + b, p[i + 1]] + p[i + 2..];
    assert Parts(u) == p[..i] + [a, b + "|" + p[i + 1]] + p[i + 2..];
  }

  lemma MovedLeft(t: Terms, u: Terms, i: nat, a: string, b: string)
    requires i < 7 && Parts(t)[i + 1] == a + "|" + b
    requires Parts(u) == Parts(t)[i := Parts(t)[i] + "|" + a][i + 1 := b]
    ensures Message(u) == Message(t)
  {
    MovedRight(u, t, i, Parts(t)[i], a);
  }

  /** Terms with a '|' in some text share their message with other terms. */
  lemma UncleanTwin(t: Terms) returns (u: Terms)
    requires !Clean(t)
    ensures u != t && Message(u) == Message(t)
  {
    if !PipeFree(t.request) {
      var a, b := Cut(t.request);
      u := t.(request := a, merchant := b + "|" + t.merchant);
      MovedRight(t, u, 0, a, b);
    } else if !PipeFree(t.merchant) {
      var a, b := Cut(t.merchant);
      u := t.(merchant := a, buyer := b + "|" + t.buyer);
      MovedRight(t, u, 1, a, b);
    } else if !PipeFree(t.buyer) {
      var a, b := Cut(t.buyer);
      u := t.(buyer := a, product := b + "|" + t.product);
      MovedRight(t, u, 2, a, b);
    } else if !PipeFree(t.product) {
      var a, b := Cut(t.product);
      u := t.(product := a, source := b + "|" + t.source);
      MovedRight(t, u, 3, a, b);
    } else if !PipeFree(t.source) {
      var a, b := Cut(t.source);
      u := t.(product := t.product + "|" + a, source := b);
      MovedLeft(t, u, 3, a, b);
    } else if !PipeFree(t.currency) {
      var a, b := Cut(t.currency);
      u := t.(currency := a, plan := b + "|" + t.plan);
      MovedRight(t, u, 6, a, b);
    } else {
      var a, b := Cut(t.plan);
      u := t.(currency := t.currency + "|" + a, plan := b);
      MovedLeft(t, u, 6, a, b);
    }
  }

  /** The signed text stands for these terms alone exactly when none of their texts contains a '|'. */
  lemma UnambiguousIff(t: Terms)
    ensures (forall u :: Message(u) == Message(t) ==> u == t) <==> Clean(t)
  {
    if Clean(t) {
      forall u | Message(u) == Message(t) ensures u == t {
        CleanMessageIsUnique(t, u);
      }
    } else {
      var u := UncleanTwin(t);
    }
  }
}

/** The gate that hands out confirmation tokens and accepts each of them once. */
module ConfirmationGates {
  import opened Outcomes
  import opened ConfirmationTerms

  datatype Failure = Replayed | TokenExpired | InvalidExpiry | InvalidSignature

  /** An expiry as it reads after parsing; a time without a zone cannot be compared with the clock. */
  datatype Expiry = Absent | Unparsable | WithoutZone | Instant(at: int)

  /** `mac` gives the 32 hexadecimal digits of the keyed hash that a token shows. */
  function Token(mac: string -> string, t: Terms): string {
    "cnf_" + mac(Message(t))
  }

  ghost predicate Injective(mac: string -> string) {
    forall a, b :: mac(a) == mac(b) ==> a == b
  }

  function CheckExpiry(e: Expiry, now: int): Option<Failure> {
    match e
    case Absent => None
    case Instant(at) => if now > at then Some(TokenExpired) else None
    case _ => Some(InvalidExpiry)
  }

  /** The handler around the check catches the expiry error too, and reports a malformed time instead. */
  function Caught(f: Option<Failure>): Option<Failure> {
    if f.Some? then Some(InvalidExpiry) else None
  }

  datatype Attempt = Attempt(token: string, terms: Terms, expiry: Expiry, now: int)

  function Check(mac: string -> string, consumed: set<string>, a: Attempt): Option<Failure> {
    if a.token in consumed then Some(Replayed)
    else
      var late := Caught(CheckExpiry(a.expiry, a.now));
      if late.Some? then late
      else if a.token != Token(mac, a.terms) then Some(InvalidSignature)
      else None
  }

  function Next(mac: string -> string, consumed: set<string>, a: Attempt): set<string> {
    if Check(mac, consumed, a) == None then consumed + {a.token} else consumed
  }

  /** The consumed tokens after a gate's lifetime so far; handing out tokens does not change them. */
  function Run(mac: string -> string, attempts: seq<Attempt>): set<string> {
    if attempts == [] then {} else Next(mac, Run(mac, attempts[..|attempts| - 1]), attempts[|attempts| - 1])
  }

  predicate Accepted(mac: string -> string, attempts: seq<Attempt>, i: nat)
    requires i < |attempts|
  {
    Check(mac, Run(mac, attempts[..i]), attempts[i]) == None
  }

  /** The verdict on every attempt. An expiry counts only if it is stated, and one that cannot be met is malformed. */
  lemma VerdictIs(mac: string -> string, consumed: set<string>, a: Attempt)
    ensures Check(mac, consumed, a) ==
            if a.token in consumed then Some(Replayed)
            else if !(a.expiry == Absent || (a.expiry.Instant? && a.now <= a.expiry.at)) then Some(InvalidExpiry)
            else if a.token != "cnf_" + mac(Message(a.terms)) then Some(InvalidSignature)
            else None
    ensures Next(mac, consumed, a) == if Check(mac, consumed, a) == None then consumed + {a.token} else consumed
  {
  }

  class HumanConfirmationGate {
    const mac: string -> string
    var consumed: set<string>

    constructor (mac: string -> string)
      ensures this.mac == mac && consumed == {}
    {
      this.mac, consumed := mac, {};
    }

    /** The token verifies for its own terms, with or without its expiry, until it expires or is consumed. */
    method GenerateToken(t: Terms, ttl: int, now: int) returns (token: string, expiresAt: int)
      ensures token == Token(mac, t) && expiresAt == now + ttl
      ensures token == "cnf_" + mac(t.request + "|" + (t.merchant + "|" + (t.buyer + "|" + (t.product + "|" + (
                                    t.source + "|" + (Decimal(t.amount) + "|" + (t.currency + "|" + t.plan)))))))
      ensures forall used: set<string>, later: int | token !in used ::
                && Check(mac, used, Attempt(token, t, Absent, later)) == None
                && (Check(mac, used, Attempt(token, t, Instant(expiresAt), later)) == None <==> later <= expiresAt)
    {
      expiresAt := now + ttl;
      token := "cnf_" + mac(Message(t));
      MessageReads(t);
    }

    method VerifyAndConsumeToken(a: Attempt) returns (error: Option<Failure>)
      modifies this
      ensures error == Check(mac, old(consumed), a) && consumed == Next(mac, old(consumed), a)
    {
      if a.token in consumed {
        return Some(Replayed);
      }
      if a.expiry != Absent {
        var raised := CheckExpiry(a.expiry, a.now);
        if raised.Some? {
          return Some(InvalidExpiry);
        }
      }
      if a.token != Token(mac, a.terms) {
        return Some(InvalidSignature);
      }
      consumed := consumed + {a.token};
      return None;
    }
  }

  lemma {:induction false} ConsumedStays(mac: string -> string, attempts: seq<Attempt>, i: nat)
    requires i < |attempts| && Accepted(mac, attempts, i)
    ensures attempts[i].token in Run(mac, attempts)
  {
    var n := |attempts| - 1;
    if i < n {
      assert attempts[..n][..i] == attempts[..i];
      ConsumedStays(mac, attempts[..n], i);
    }
  }

  /** A token is accepted at most once in a gate's lifetime, and so are the terms it was made for. */
  lemma AcceptedAtMostOnce(mac: string -> string, attempts: seq<Attempt>, i: nat, j: nat)
    requires i < |attempts| && j < |attempts| && Accepted(mac, attempts, i) && Accepted(mac, attempts, j)
    requires attempts[i].token == attempts[j].token || attempts[i].terms == attempts[j].terms
    ensures i == j
  {
    if i < j {
      assert attempts[..j][..i] == attempts[..i];
      ConsumedStays(mac, attempts[..j], i);
    } else if j < i {
      assert attempts[..i][..j] == attempts[..j];
      ConsumedStays(mac, attempts[..i], j);
    }
  }

  /**
    Under a hash without collisions, a token made for given terms can be accepted for other terms, in any
    state of the gate, exactly when it is not consumed and one of the texts in its terms contains a '|'.
   */
  lemma AcceptedForOtherTermsIff(mac: string -> string, t: Terms, consumed: set<string>)
    requires Injective(mac)
    ensures (exists a: Attempt :: a.token == Token(mac, t) && a.terms != t && Check(mac, consumed, a) == None)
            <==> !Clean(t) && Token(mac, t) !in consumed
  {
    if Clean(t) {
      forall a: Attempt | a.token == Token(mac, t) && Check(mac, consumed, a) == None ensures a.terms == t {
        TokensMatchMessages(mac, t, a.terms);
        CleanMessageIsUnique(t, a.terms);
      }
    } else if Token(mac, t) !in consumed {
      var u := UncleanTwin(t);
      TwinsShareToken(mac, t, u);
      var a := Attempt(Token(mac, t), u, Absent, 0);
      assert Check(mac, consumed, a) == None;
    }
  }

  lemma TwinsShareToken(mac: string -> string, t: Terms, u: Terms)
    requires Message(t) == Message(u)
    ensures Token(mac, t) == Token(mac, u)
  {
  }

  lemma TokensMatchMessages(mac: string -> string, t: Terms, u: Terms)
    requires Injective(mac) && Token(mac, t) == Token(mac, u)
    ensures Message(t) == Message(u)
  {
    assert Token(mac, t)[4..] == mac(Message(t)) && Token(mac, u)[4..] == mac(Message(u));
  }

  /**
    The expiry is not signed: once a token would be accepted at any time, it is accepted at every later time
    by leaving the expiry out, and an expiry that has passed is refused as malformed, never as expired.
   */
  lemma ExpiryBindsOnlyWhoStatesIt(mac: string -> string, consumed: set<string>, a: Attempt, later: int)
    ensures Check(mac, consumed, a) == None ==> Check(mac, consumed, a.(expiry := Absent, now := later)) == None
    ensures Check(mac, consumed, a) != Some(TokenExpired)
    ensures Check(mac, consumed, a) == Some(InvalidExpiry) <==>
              a.token !in consumed && a.expiry != Absent && (a.expiry.Instant? ==> a.now > a.expiry.at)
  {
  }
}
