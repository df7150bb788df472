/** The ticket record, its text format, its lifetime, and the key it is filed under.

    Instants are integers in nanoseconds; `Unix` is the whole seconds of an instant, rounded
    down as Go's `Time.Unix` rounds. */
module Tickets {
  import opened Wrappers
  import opened Base64
  import opened Alphabet

  const SECOND := 1_000_000_000
  /** 2020-01-01 and 2100-01-01, in seconds: the issue times `parseState` admits. */
  const MIN_ISSUED := 1577836800
  const MAX_ISSUED := 4102444800
  /** Go's zero time, in nanoseconds: before every instant of the clock. */
  const ZERO_TIME := -62135596800 * SECOND

  datatype Ticket = Ticket(account: int, model: string, hash: string, value: string, issued: int)

  const EMPTY := Ticket(0, "", "", "", 0)

  function Unix(now: int): int { now / SECOND }

  // ---- the text format ----

  function BigEndian(n: nat, width: nat): (b: seq<Byte>)
    ensures |b| == width
  {
    if width == 0 then [] else BigEndian(n / 256, width - 1) + [n % 256]
  }

  /** The conversion of an unsigned 64-bit word to a signed one. */
  function Int64(word: nat): int {
    if word < 0x8000_0000_0000_0000 then word else word - 0x1_0000_0000_0000_0000
  }

  predicate LegalShape(chars: nat, bytes: nat) {
    (chars == 332 && bytes == 249) || (chars == 292 && bytes == 217)
  }

  predicate HasBlank(value: string) { ' ' in value || '\r' in value || '\n' in value || '\t' in value }

  function ParseState(value: string): Option<int> {
    if (|value| != 332 && |value| != 292) || HasBlank(value) then None else ParseDecoded(value)
  }

  /** The part of `parseState` behind its first check. */
  function ParseDecoded(value: string): Option<int> {
    match Decode(Strict, value)
    case None => None
    case Some(b) =>
      if !LegalShape(|value|, |b|) || b[0] != 128 then None
      else
        var issued := Int64(Number256(b[1..9]));
        if MIN_ISSUED <= issued < MAX_ISSUED then Some(issued) else None
  }

  /** The bytes a ticket carries: a marker, the issue time, and 208 or 240 further bytes. */
  function Payload(issued: nat, tail: seq<Byte>): seq<Byte> {
    [128] + BigEndian(issued, 8) + tail
  }

  ghost predicate IsTicketText(value: string, issued: int, tail: seq<Byte>) {
    && 0 <= issued
    && (|tail| == 208 || |tail| == 240)
    && value == Encode(Payload(issued, tail))
  }

  lemma {:induction false} BigEndianRoundTrip(n: nat, width: nat)
    requires n < Pow256(width)
    ensures Number256(BigEndian(n, width)) == n
  {
    if width > 0 {
      BigEndianRoundTrip(n / 256, width - 1);
      assert BigEndian(n, width)[..width - 1] == BigEndian(n / 256, width - 1);
    }
  }

  lemma {:induction false} NumberRoundTrip(b: seq<Byte>)
    ensures BigEndian(Number256(b), |b|) == b
    ensures Number256(b) < Pow256(|b|)
  {
    if |b| > 0 {
      NumberRoundTrip(b[..|b| - 1]);
      assert b[..|b| - 1] + [b[|b| - 1]] == b;
    }
  }

  lemma Pow256Of8()
    ensures Pow256(8) == 0x1_0000_0000_0000_0000
  {
    assert Pow256(4) == 0x1_0000_0000;
  }

  lemma PayloadFields(issued: nat, tail: seq<Byte>)
    requires issued < Pow256(8)
    ensures |Payload(issued, tail)| == 9 + |tail|
    ensures Payload(issued, tail)[0] == 128
    ensures Number256(Payload(issued, tail)[1..9]) == issued
  {
    BigEndianRoundTrip(issued, 8);
    assert Payload(issued, tail)[1..9] == BigEndian(issued, 8);
  }

  /** A text of a legal shape has no room for a character the decoder skips. */
  lemma ShapeHasNoBlank(value: string, b: seq<Byte>)
    requires Decode(Strict, value) == Some(b) && LegalShape(|value|, |b|)
    ensures !HasBlank(value) && Unbroken(value) == value
  {
    hide DecodeQuanta;
    DecodedLength(Strict, value);
    UnbrokenText(value);
    assert |Unbroken(value)| == |value|;
    QuantaAlphabet(Strict, value);
  }

  /** Nor for surplus padding: of a text of a legal shape Python reads every character. */
  lemma ShapeHasNoSurplus(value: string, b: seq<Byte>)
    requires Decode(Lenient, value) == Some(b) && LegalShape(|value|, |b|)
    ensures !HasSurplus(value) && Unbroken(value) == value
  {
    hide DecodeQuanta;
    DecodedLength(Lenient, value);
    UnpaddedShape(value);
    StrictIsCanonicalLenient(value);
  }

  /** The release of Python makes no difference to tickets. */
  lemma ReleasesReadSameTickets(value: string, b: seq<Byte>)
    requires LegalShape(|value|, |b|)
    ensures Decode310(value) == Some(b) <==> Decode(Lenient, value) == Some(b)
    ensures Decode(Lenient, value) == Some(b) <==> DecodeQuanta(Lenient, value) == Some(b)
  {
    hide DecodeQuanta;
    UnpaddedShape(value);
    if HasSurplus(value) {
      SurplusIsNoGroup(Lenient, value);
      if DecodeQuanta(Lenient, Unpadded(value)).Some? { QuantaLength(Lenient, Unpadded(value)); }
    } else if Unpadded(value) != "" {
      ReleasesAgree(value);
    } else {
      ManyPads(value);
    }
  }

  /** The first check of `parseState` never decides: the decoder skips line breaks, but a text with
      one is too short for its length. */
  lemma BlankCheckNeverDecides(value: string)
    ensures ParseState(value) == ParseDecoded(value)
  {
    hide Decode, HasBlank;
    if ParseDecoded(value).Some? {
      ShapeHasNoBlank(value, Decode(Strict, value).value);
    }
  }

  /** Without the two lengths it would: the decoder alone takes texts with line breaks. */
  lemma DecoderSkipsBreaks(b: seq<Byte>)
    ensures Decode(Strict, Encode(b) + "\n") == Some(b)
    ensures Decode(Lenient, Encode(b) + "\n") == None
  {
    hide Encode, DecodeQuanta;
    var s := Encode(b) + "\n";
    EncodeThenDecode(b);
    UnbrokenAppend(Encode(b));
    StrictIsCanonicalLenient(s);
    UnbrokenText(s);
    assert s[|s| - 1] in s && !InLine(s[|s| - 1]);
  }

  lemma {:induction false} UnbrokenAppend(s: string)
    ensures Unbroken(s + "\n") == Unbroken(s)
  {
    if s != [] {
      UnbrokenAppend(s[1..]);
      assert (s + "\n")[1..] == s[1..] + "\n";
    } else {
      assert s + "\n" == "\n" && "\n"[1..] == "";
    }
  }

  lemma TicketTextParses(value: string, issued: int, tail: seq<Byte>)
    requires IsTicketText(value, issued, tail) && issued < 0x8000_0000_0000_0000
    ensures Decode(Strict, value) == Some(Payload(issued, tail))
    ensures LegalShape(|value|, |Payload(issued, tail)|)
    ensures MIN_ISSUED <= issued < MAX_ISSUED ==> ParseState(value) == Some(issued)
  {
    hide Decode, Encode, Payload;
    Pow256Of8();
    PayloadFields(issued, tail);
    EncodeThenDecode(Payload(issued, tail));
    BlankCheckNeverDecides(value);
  }

  lemma ParsedIsText(value: string)
    requires ParseState(value).Some?
    ensures exists tail :: IsTicketText(value, ParseState(value).value, tail)
  {
    hide Decode, Encode, Number256, BigEndian;
    var b := Decode(Strict, value).value;
    ShapeHasNoBlank(value, b);
    DecodeThenEncode(value);
    NumberRoundTrip(b[1..9]);
    Pow256Of8();
    var tail := b[9..];
    assert b == Payload(ParseState(value).value, tail);
    assert IsTicketText(value, ParseState(value).value, tail);
  }

  /** `parseState` accepts exactly the canonical encodings of the two shapes, and reads back
      the issue time they carry. */
  lemma ParseStateExact(value: string, issued: int)
    ensures ParseState(value) == Some(issued)
       <==> MIN_ISSUED <= issued < MAX_ISSUED && exists tail :: IsTicketText(value, issued, tail)
  {
    hide Decode, IsTicketText;
    if ParseState(value) == Some(issued) {
      ParsedIsText(value);
    }
    if MIN_ISSUED <= issued < MAX_ISSUED && exists tail :: IsTicketText(value, issued, tail) {
      var tail :| IsTicketText(value, issued, tail);
      TicketTextParses(value, issued, tail);
    }
  }

  /** Two accepted texts that carry the same bytes are the same text. */
  lemma AcceptedTextsAreInjective(v: string, w: string)
    requires ParseState(v).Some? && ParseState(w).Some?
    requires Decode(Strict, v) == Decode(Strict, w)
    ensures v == w
  {
    hide Decode, HasBlank;
    ShapeHasNoBlank(v, Decode(Strict, v).value);
    ShapeHasNoBlank(w, Decode(Strict, w).value);
    SameBytes(v, w);
  }

  // ---- validity ----

  predicate Admissible(t: Ticket) {
    && ParseState(t.value) == Some(t.issued)
    && t.account > 0
    && t.model != ""
    && |t.hash| == 64
  }

  predicate InWindow(issued: int, now: int) {
    issued <= Unix(now) + 30 && Unix(now) < issued + 3570
  }

  predicate ValidTicket(t: Ticket, now: int) {
    Admissible(t) && InWindow(t.issued, now)
  }

  // ---- the key ----

  function Digits(n: nat): string {
    (if n < 10 then "" else Digits(n / 10)) + [(n % 10 + 48) as char]
  }

  /** Go's `%d`. */
  function Decimal(n: int): string {
    if n < 0 then "-" + Digits(-n) else Digits(n)
  }

  function Key(account: int, model: string, hash: string): string {
    Decimal(account) + ":" + model + ":" + hash
  }

  function KeyOf(t: Ticket): string {
    Key(t.account, t.model, t.hash)
  }

  /** A text read as a number in base 10. */
  function Number10(s: string): int {
    if s == "" then 0 else Number10(s[..|s| - 1]) * 10 + (s[|s| - 1] as int - '0' as int)
  }

  /** The digits of `n` are `n` in base 10, without a leading zero. */
  lemma {:induction false} DigitsMean(n: nat)
    ensures Number10(Digits(n)) == n && forall c | c in Digits(n) :: '0' <= c <= '9'
    ensures Digits(n) != "" && (Digits(n)[0] == '0' ==> Digits(n) == "0")
  {
    if n >= 10 {
      DigitsMean(n / 10);
      assert Digits(n)[..|Digits(n)| - 1] == Digits(n / 10);
      assert Number10("0") == 0 by { assert "0"[..0] == ""; }
    }
  }

  lemma {:induction false} DigitsInjective(m: nat, n: nat)
    requires Digits(m) == Digits(n)
    ensures m == n
    decreases m
  {
    var dm, dn := Digits(m), Digits(n);
    assert dm[|dm| - 1] == dn[|dn| - 1];
    DigitsNonempty(m / 10);
    DigitsNonempty(n / 10);
    if m >= 10 {
      assert dm[..|dm| - 1] == Digits(m / 10);
      assert n >= 10;
      assert dn[..|dn| - 1] == Digits(n / 10);
      DigitsInjective(m / 10, n / 10);
    }
  }

  lemma {:induction false} DigitsNonempty(n: nat)
    ensures |Digits(n)| > 0 && '0' <= Digits(n)[0] <= '9' && ':' !in Digits(n)
  {
    if n >= 10 { DigitsNonempty(n / 10); }
  }

  lemma DecimalInjective(m: int, n: int)
    requires Decimal(m) == Decimal(n)
    ensures m == n
  {
    DigitsNonempty(if m < 0 then -m else m);
    DigitsNonempty(if n < 0 then -n else n);
    if m < 0 && n < 0 {
      assert Decimal(m)[1..] == Digits(-m) && Decimal(n)[1..] == Digits(-n);
      DigitsInjective(-m, -n);
    } else if m >= 0 && n >= 0 {
      DigitsInjective(m, n);
    }
  }

  lemma DecimalHasNoColon(n: int)
    ensures ':' !in Decimal(n)
  {
    DigitsNonempty(if n < 0 then -n else n);
  }

  /** A separator that occurs in neither prefix splits a text in one way only. */
  lemma SplitAtFirstColon(p: string, q: string, x: string, y: string)
    requires ':' !in p && ':' !in q
    requires p + ":" + x == q + ":" + y
    ensures p == q && x == y
  {
    var s, t := p + ":" + x, q + ":" + y;
    assert s[|p|] == ':' && t[|q|] == ':';
    assert |p| == |q|;
    assert s[..|p|] == p && t[..|q|] == q;
    assert s[|p| + 1..] == x && t[|q| + 1..] == y;
  }

  /** Keys determine account, model and hash as soon as the hashes are equally long; the code
      relies on every hash being a 64-character digest. */
  lemma KeyInjective(a: int, m: string, h: string, a': int, m': string, h': string)
    requires |h| == |h'|
    requires Key(a, m, h) == Key(a', m', h')
    ensures a == a' && m == m' && h == h'
  {
    hide Decimal;
    var x, y := m + ":" + h, m' + ":" + h';
    assert Key(a, m, h) == Decimal(a) + ":" + x;
    assert Key(a', m', h') == Decimal(a') + ":" + y;
    DecimalHasNoColon(a);
    DecimalHasNoColon(a');
    SplitAtFirstColon(Decimal(a), Decimal(a'), x, y);
    DecimalInjective(a, a');
    assert |m| == |m'|;
    assert x[..|m|] == m && y[..|m|] == m';
    assert x[|m| + 1..] == h && y[|m| + 1..] == h';
  }

  /** Without equal lengths two records collide. */
  lemma KeyCollision()
    ensures Key(7, "a:b", "c") == Key(7, "a", "b:c")
  {
    assert "a:b" + ":" + "c" == "a" + ":" + "b:c";
    assert Key(7, "a:b", "c") == Digits(7) + ":" + ("a:b" + ":" + "c");
    assert Key(7, "a", "b:c") == Digits(7) + ":" + ("a" + ":" + "b:c");
  }

  // ---- the collector's two readers of the same format ----

  /** `candidate`: what the collector may hand to the plugin.  The clock is read twice. */
  function Candidate(account: int, model: string, hash: string, value: string, t0: int, t1: int)
    : Option<Ticket>
  {
    match Decode(Lenient, value)
    case None => None
    case Some(b) =>
      if !LegalShape(|value|, |b|) || b[0] != 128 then None
      else
        var issued := Number256(b[1..9]);
        if t0 - 3000 * SECOND < issued * SECOND && issued * SECOND <= t1 + 30 * SECOND
        then Some(Ticket(account, model, hash, value, issued))
        else None
  }

  /** `valid`: the scheduler's view of a stored ticket for an account with this hash. */
  predicate CollectorValid(t: Ticket, hash: string, now: int) {
    match Decode(Lenient, t.value)
    case None => false
    case Some(b) =>
      && LegalShape(|t.value|, |b|)
      && b[0] == 128
      && Number256(b[1..9]) == t.issued
      && t.issued * SECOND <= now + 30 * SECOND
      && now < (t.issued + 3570) * SECOND
      && t.hash == hash
  }

  /** The instants at which the two range checks cannot disagree. */
  predicate AgreementWindow(now: int) {
    MIN_ISSUED + 3569 <= Unix(now) < MAX_ISSUED - 30
  }

  /** A clean text filed with an account, a model and a digest. */
  predicate Comparable(t: Ticket) {
    Clean(t.value) && t.account > 0 && t.model != "" && |t.hash| == 64
  }

  lemma WindowInSeconds(issued: int, now: int)
    ensures InWindow(issued, now)
       <==> issued * SECOND <= now + 30 * SECOND && now < (issued + 3570) * SECOND
  {
  }

  /** At every instant of the window, for a record with an account, a model and a digest, and an
      account with any hash: the scheduler and the plugin, which files the ticket under its own hash,
      differ exactly on texts that are not clean and that the scheduler takes. */
  lemma VerdictsDiffer(t: Ticket, hash: string, now: int)
    requires AgreementWindow(now) && t.account > 0 && t.model != "" && |t.hash| == 64
    ensures CollectorValid(t, hash, now) <==> hash == t.hash && CollectorValid(t, t.hash, now)
    ensures CollectorValid(t, hash, now) != (hash == t.hash && ValidTicket(t, now))
       <==> CollectorValid(t, hash, now) && !Clean(t.value)
  {
    hide Decode, Clean, HasSurplus, HasBlank, Number256;
    StrictIsCanonicalLenient(t.value);
    WindowInSeconds(t.issued, now);
    Pow256Of8();
    if Decode(Strict, t.value).Some? {
      var b := Decode(Strict, t.value).value;
      if LegalShape(|t.value|, |b|) {
        ShapeHasNoBlank(t.value, b);
        NumberRoundTrip(b[1..9]);
      }
    }
    if Decode(Lenient, t.value).Some? {
      var b := Decode(Lenient, t.value).value;
      if LegalShape(|t.value|, |b|) {
        ShapeHasNoSurplus(t.value, b);
      }
    }
  }

  /** So they give one verdict on every clean text. */
  lemma VerdictsAgree(t: Ticket, hash: string, now: int)
    requires AgreementWindow(now) && Comparable(t)
    ensures CollectorValid(t, hash, now) <==> hash == t.hash && ValidTicket(t, now)
  {
    hide CollectorValid, ValidTicket, Clean;
    VerdictsDiffer(t, hash, now);
  }

  /** Outside the window they disagree on some clean text, so the window is exact. */
  lemma VerdictsAgreeOnlyInWindow(now: int)
    requires 0 <= Unix(now) < 0x4000_0000_0000_0000
    ensures AgreementWindow(now)
       <==> forall t: Ticket, hash | Comparable(t) ::
              CollectorValid(t, hash, now) == (hash == t.hash && ValidTicket(t, now))
  {
    if AgreementWindow(now) {
      forall t: Ticket, hash | Comparable(t)
        ensures CollectorValid(t, hash, now) == (hash == t.hash && ValidTicket(t, now))
      {
        VerdictsAgree(t, hash, now);
      }
    } else {
      var issued := if Unix(now) < MIN_ISSUED then Unix(now)
                    else if Unix(now) < MIN_ISSUED + 3569 then Unix(now) - 3569
                    else Unix(now) + 30;
      var t := Disagreement(issued, now);
      assert CollectorValid(t, t.hash, now) && !ValidTicket(t, now);
    }
  }

  lemma Disagreement(issued: nat, now: int) returns (t: Ticket)
    requires !(MIN_ISSUED <= issued < MAX_ISSUED)
    requires issued < 0x8000_0000_0000_0000
    requires InWindow(issued, now)
    ensures Comparable(t)
    ensures CollectorValid(t, t.hash, now) && !ValidTicket(t, now)
  {
    var tail := seq(208, i => 0);
    t := Ticket(1, "m", seq(64, i => 'a'), Encode(Payload(issued, tail)), issued);
    Pow256Of8();
    assert IsTicketText(t.value, issued, tail);
    TicketTextParses(t.value, issued, tail);
    PayloadFields(issued, tail);
    ShapeHasNoBlank(t.value, Payload(issued, tail));
    StrictIsCanonicalLenient(t.value);
    WindowInSeconds(issued, now);
  }

  /** A ticket the collector accepts at instant `t1` is valid for the plugin from then until
      3570 s after its issue, exactly when its text is canonical. */
  lemma CandidateStaysImportable(account: int, model: string, hash: string, value: string,
                                 t0: int, t1: int, n: int)
    requires account > 0 && model != "" && |hash| == 64
    requires Candidate(account, model, hash, value, t0, t1).Some?
    requires t0 <= t1 <= n && AgreementWindow(t0) && AgreementWindow(t1)
    requires Unix(n) < Candidate(account, model, hash, value, t0, t1).value.issued + 3570
    ensures ValidTicket(Candidate(account, model, hash, value, t0, t1).value, n) <==> Canonical(value)
  {
    hide Decode, Canonical, HasBlank, Number256;
    StrictIsCanonicalLenient(value);
    if Canonical(value) {
      ShapeHasNoBlank(value, Decode(Strict, value).value);
      NumberRoundTrip(Decode(Strict, value).value[1..9]);
      Pow256Of8();
    }
  }
}
