/** What the three readers of a ticket's text accept, from its characters alone. */
module TicketTexts {
  import opened Wrappers
  import opened Base64
  import opened Alphabet
  import opened Tickets

  /** A text of one of the two lengths, with the padding of its length, that is well formed, and whose
      first twelve digits are the marker 128 and the 64-bit word `word`. */
  predicate Carries(d: Dialect, value: string, word: int) {
    && ((|value| == 332 && |Unpadded(value)| == 332) || (|value| == 292 && |Unpadded(value)| == 290))
    && WellFormed(d, value)
    && 0 <= word < 0x1_0000_0000_0000_0000
    && Number64(d, value[..12]) == 128 * 0x1_0000_0000_0000_0000 + word
  }

  lemma MarkerAndWord(b: seq<Byte>, word: int)
    requires |b| == 9 && 0 <= word < 0x1_0000_0000_0000_0000
    ensures Number256(b) == 128 * 0x1_0000_0000_0000_0000 + word <==> b[0] == 128 && Number256(b[1..]) == word
  {
    hide Number256, Pow256;
    Pow256Of8();
    NumberRoundTrip(b[1..]);
    assert b == [b[0]] + b[1..];
    Append256([b[0]], b[1..]);
    OneByte(b[0]);
  }

  lemma OneByte(b: Byte)
    ensures Number256([b]) == b
  {
  }

  /** Nothing is skipped in such a text. */
  lemma AllCount(d: Dialect, value: string)
    requires WellFormed(d, value) && (|value| == |Unpadded(value)| || |Unpadded(value)| % 4 != 0)
    ensures Counted(d, value) == value
  {
    hide WellFormed, DecodeQuanta;
    QuantaMeans(d, value);
    QuantaAreInLine(d, value);
  }

  lemma CountedText(d: Dialect, value: string, b: seq<Byte>)
    requires Decode(d, value) == Some(b) && LegalShape(|value|, |b|)
    ensures Counted(d, value) == value
  {
    hide DecodeQuanta;
    if d.Strict? { ShapeHasNoBlank(value, b); } else { ShapeHasNoSurplus(value, b); }
  }

  /** The shape of the bytes and the marker among them are the shape of the text. */
  lemma CarriesMeans(d: Dialect, value: string, word: int)
    ensures Carries(d, value, word) <==>
      && Decode(d, value).Some? && var b := Decode(d, value).value;
         LegalShape(|value|, |b|) && b[0] == 128 && Number256(b[1..9]) == word
  {
    hide WellFormed, DecodeQuanta, Number64, Number256, Pow256, Unpadded;
    UnpaddedShape(value);
    QuantaMeans(d, value);
    if Decode(d, value).Some? {
      var b := Decode(d, value).value;
      if LegalShape(|value|, |b|) {
        CountedText(d, value, b);
        FitsShape(d, value, b);
        Words(b);
        FirstTwelve(d, value);
        if 0 <= word < 0x1_0000_0000_0000_0000 { MarkerAndWord(b[..9], word); }
        assert b[..9][1..] == b[1..9];
      }
    }
    if Carries(d, value, word) {
      AllCount(d, value);
    }
  }

  lemma FitsShape(d: Dialect, value: string, b: seq<Byte>)
    requires DecodeQuanta(d, value) == Some(b) && LegalShape(|value|, |b|)
    ensures WellFormed(d, value)
    ensures (|value| == 332 && |Unpadded(value)| == 332) || (|value| == 292 && |Unpadded(value)| == 290)
  {
    hide DecodeQuanta, Number64, Number256, Digit;
    QuantaMeans(d, value);
    UnpaddedShape(value);
  }

  lemma Words(b: seq<Byte>)
    requires |b| >= 9
    ensures 0 <= Number256(b[1..9]) < 0x1_0000_0000_0000_0000
  {
    hide Pow256;
    Pow256Of8();
    NumberRoundTrip(b[1..9]);
  }

  /** `parseState`: exactly the texts that carry an issue time between 2020 and 2100, in the URL-safe
      alphabet and with zero bits left over. */
  lemma ParseStateMeans(value: string, issued: int)
    ensures ParseState(value) == Some(issued)
       <==> Carries(Strict, value, issued) && 1577836800 <= issued < 4102444800
  {
    hide Carries, Decode, HasBlank, Number256;
    BlankCheckNeverDecides(value);
    CarriesMeans(Strict, value, issued);
    if Decode(Strict, value).Some? && |Decode(Strict, value).value| >= 9 {
      Words(Decode(Strict, value).value);
    }
  }

  /** `validTicket`: and at this instant the ticket was issued at most 30 s ahead and less than 3570 s
      ago, for an account, a model and a digest. */
  lemma ValidTicketMeans(t: Ticket, now: int)
    ensures ValidTicket(t, now) <==>
      && Carries(Strict, t.value, t.issued) && 1577836800 <= t.issued < 4102444800
      && t.issued <= now / 1_000_000_000 + 30 && now / 1_000_000_000 < t.issued + 3570
      && t.account > 0 && t.model != "" && |t.hash| == 64
  {
    hide Carries, ParseState;
    ParseStateMeans(t.value, t.issued);
  }

  /** The scheduler's `valid`: any issue time the text carries, in Python's dialect, and the hash of
      the account. */
  lemma CollectorValidMeans(t: Ticket, hash: string, now: int)
    ensures CollectorValid(t, hash, now) <==>
      && Carries(Lenient, t.value, t.issued) && t.hash == hash
      && t.issued * 1_000_000_000 <= now + 30_000_000_000 && now < (t.issued + 3570) * 1_000_000_000
  {
    hide Carries, Decode, Number256;
    CarriesMeans(Lenient, t.value, t.issued);
  }

  /** The collector's `candidate`: a ticket for this account, with the issue time its text carries, less
      than 3000 s ago at the first reading of the clock and at most 30 s ahead at the second. */
  lemma CandidateMeans(account: int, model: string, hash: string, value: string, t0: int, t1: int, t: Ticket)
    ensures Candidate(account, model, hash, value, t0, t1) == Some(t) <==>
      && Carries(Lenient, value, t.issued) && t == Ticket(account, model, hash, value, t.issued)
      && t0 < (t.issued + 3000) * 1_000_000_000 && t.issued * 1_000_000_000 <= t1 + 30_000_000_000
  {
    hide Carries, Decode, Number256;
    CarriesMeans(Lenient, value, t.issued);
  }

  lemma HalfWord(b: seq<Byte>)
    requires |b| == 4
    ensures Number256(b) == ((b[0] as int * 256 + b[1]) * 256 + b[2]) * 256 + b[3]
  {
    Number256Of3(b[..3]);
  }

  /** Eight bytes as the word they are, written out. */
  lemma WordOf(b: seq<Byte>)
    requires |b| == 8
    ensures Number256(b)
         == b[0] as int * 0x100_0000_0000_0000 + b[1] as int * 0x1_0000_0000_0000 + b[2] as int * 0x100_0000_0000
          + b[3] as int * 0x1_0000_0000 + b[4] as int * 0x100_0000 + b[5] as int * 0x1_0000 + b[6] as int * 0x100
          + b[7]
  {
    hide Number256;
    HalfWord(b[..4]);
    HalfWord(b[4..]);
    Append256(b[..4], b[4..]);
    assert Pow256(4) == 0x1_0000_0000 && b == b[..4] + b[4..];
  }
}
