/** Base64 in the URL-safe alphabet of section 5 of RFC 4648, with padding.

    One decoder with two dialects.  `Strict` is Go's `base64.URLEncoding.Strict()`: only the
    URL-safe alphabet, and the unused bits of the last character must be zero (section 3.5); it
    still skips CR and LF wherever they stand.  `Lenient` is
    `b64decode(value, altchars=b"-_", validate=True)` of Python 3.11: it rewrites `-` and `_` to `+`
    and `/` first, so it accepts those two as well; it ignores the unused bits, and any number of
    `=` behind whole groups; but it takes no line breaks.  `Decode310` is the same call in
    Python 3.10, which differs in the surplus padding it takes. */
module Base64 {
  import opened Sequences
  import opened Wrappers

  type Byte = x: int | 0 <= x < 256

  datatype Dialect = Strict | Lenient

  /** The 6-bit value of a character, or -1 when it is not in the dialect's alphabet. */
  function Sextet(d: Dialect, c: char): (v: int)
    ensures -1 <= v < 64
  {
    if 'A' <= c <= 'Z' then c as int - 65
    else if 'a' <= c <= 'z' then c as int - 71
    else if '0' <= c <= '9' then c as int + 4
    else if c == '-' || (d.Lenient? && c == '+') then 62
    else if c == '_' || (d.Lenient? && c == '/') then 63
    else -1
  }

  function Symbol(v: int): (c: char)
    requires 0 <= v < 64
    ensures Sextet(Strict, c) == v
    ensures c != '='
  {
    if v < 26 then (v + 65) as char
    else if v < 52 then (v + 71) as char
    else if v < 62 then (v - 4) as char
    else if v == 62 then '-'
    else '_'
  }

  function Encode(b: seq<Byte>): (s: string)
    ensures |s| == (|b| + 2) / 3 * 4
  {
    if |b| == 0 then ""
    else if |b| == 1 then
      [Symbol(b[0] / 4), Symbol(b[0] % 4 * 16), '=', '=']
    else if |b| == 2 then
      [Symbol(b[0] / 4), Symbol(b[0] % 4 * 16 + b[1] / 16), Symbol(b[1] % 16 * 4), '=']
    else
      [Symbol(b[0] / 4), Symbol(b[0] % 4 * 16 + b[1] / 16),
       Symbol(b[1] % 16 * 4 + b[2] / 64), Symbol(b[2] % 64)] + Encode(b[3..])
  }

  /** Four characters carrying three bytes. */
  function DecodeFull(d: Dialect, q: string): Option<seq<Byte>>
    requires |q| == 4
  {
    var v0, v1, v2, v3 := Sextet(d, q[0]), Sextet(d, q[1]), Sextet(d, q[2]), Sextet(d, q[3]);
    if v0 < 0 || v1 < 0 || v2 < 0 || v3 < 0 then None
    else Some([v0 * 4 + v1 / 16, v1 % 16 * 16 + v2 / 4, v2 % 4 * 64 + v3])
  }

  /** The last four characters, which may be padded. */
  function DecodeLast(d: Dialect, q: string): Option<seq<Byte>>
    requires |q| == 4
  {
    var v0, v1, v2 := Sextet(d, q[0]), Sextet(d, q[1]), Sextet(d, q[2]);
    if q[3] != '=' then DecodeFull(d, q)
    else if v0 < 0 || v1 < 0 then None
    else if q[2] == '=' then
      if d.Strict? && v1 % 16 != 0 then None else Some([v0 * 4 + v1 / 16])
    else if v2 < 0 || (d.Strict? && v2 % 4 != 0) then None
    else Some([v0 * 4 + v1 / 16, v1 % 16 * 16 + v2 / 4])
  }

  /** A text of whole groups of four. */
  function DecodeQuanta(d: Dialect, s: string): Option<seq<Byte>> {
    if |s| == 0 then Some([])
    else if |s| < 4 then None
    else if |s| == 4 then DecodeLast(d, s)
    else
      match DecodeFull(d, s[..4])
      case None => None
      case Some(head) =>
        match DecodeQuanta(d, s[4..])
        case None => None
        case Some(tail) => Some(head + tail)
  }

  /** The text without the `=` at its end. */
  function Unpadded(s: string): string {
    if s != "" && s[|s| - 1] == '=' then Unpadded(s[..|s| - 1]) else s
  }

  /** Whole groups with padding behind them that no group needs. */
  predicate HasSurplus(s: string) {
    Unpadded(s) != "" && |Unpadded(s)| % 4 == 0 && |Unpadded(s)| < |s|
  }

  /** No character from the standard alphabet's tail, and zero padding bits. */
  predicate Clean(s: string) {
    && '+' !in s
    && '/' !in s
    && (|s| >= 4 && s[|s| - 1] == '=' ==>
          if s[|s| - 2] == '=' then Sextet(Lenient, s[|s| - 3]) % 16 == 0
          else Sextet(Lenient, s[|s| - 2]) % 4 == 0)
  }

  /** What a caller can check without decoding. */
  predicate Canonical(s: string) { Clean(s) && !HasSurplus(s) }

  predicate InLine(c: char) { c != '\r' && c != '\n' }

  function Unbroken(s: string): string { Filter(s, InLine) }

  /** The characters that count: Go's decoder skips line breaks, Python's surplus padding. */
  function Counted(d: Dialect, s: string): string {
    if d.Strict? then Unbroken(s) else if HasSurplus(s) then Unpadded(s) else s
  }

  function Decode(d: Dialect, s: string): Option<seq<Byte>> { DecodeQuanta(d, Counted(d, s)) }

  lemma SplitThenJoin(b0: Byte, b1: Byte, b2: Byte)
    ensures b0 / 4 * 4 + (b0 % 4 * 16 + b1 / 16) / 16 == b0
    ensures (b0 % 4 * 16 + b1 / 16) % 16 * 16 + (b1 % 16 * 4 + b2 / 64) / 4 == b1
    ensures (b1 % 16 * 4 + b2 / 64) % 4 * 64 + b2 % 64 == b2
  {
    assert (b0 % 4 * 16 + b1 / 16) / 16 == b0 % 4;
    assert (b1 % 16 * 4 + b2 / 64) / 4 == b1 % 16;
  }

  lemma JoinThenSplit(v0: int, v1: int, v2: int, v3: int)
    requires 0 <= v0 < 64 && 0 <= v1 < 64 && 0 <= v2 < 64 && 0 <= v3 < 64
    ensures var b0, b1, b2 := v0 * 4 + v1 / 16, v1 % 16 * 16 + v2 / 4, v2 % 4 * 64 + v3;
            && b0 / 4 == v0
            && b0 % 4 * 16 + b1 / 16 == v1
            && b1 % 16 * 4 + b2 / 64 == v2
            && b2 % 64 == v3
  {
    var b0, b1, b2 := v0 * 4 + v1 / 16, v1 % 16 * 16 + v2 / 4, v2 % 4 * 64 + v3;
    assert b1 / 16 == v1 % 16 && b1 % 16 == v2 / 4;
    assert b0 / 4 == v0 && b0 % 4 == v1 / 16;
  }

  lemma DecodeOnePadded(b0: Byte)
    ensures DecodeLast(Strict, [Symbol(b0 / 4), Symbol(b0 % 4 * 16), '=', '=']) == Some([b0])
  {
    assert b0 % 4 * 16 % 16 == 0 && b0 % 4 * 16 / 16 == b0 % 4;
  }

  lemma DecodeTwoPadded(b0: Byte, b1: Byte)
    ensures DecodeLast(Strict, [Symbol(b0 / 4), Symbol(b0 % 4 * 16 + b1 / 16), Symbol(b1 % 16 * 4), '='])
         == Some([b0, b1])
  {
    SplitThenJoin(b0, b1, 0);
  }

  lemma {:induction false} QuantaOfEncoding(b: seq<Byte>)
    ensures DecodeQuanta(Strict, Encode(b)) == Some(b)
  {
    if |b| == 1 {
      DecodeOnePadded(b[0]);
      assert b == [b[0]];
    } else if |b| == 2 {
      DecodeTwoPadded(b[0], b[1]);
      assert b == [b[0], b[1]];
    } else if |b| >= 3 {
      var head := Encode(b)[..4];
      assert head == [Symbol(b[0] / 4), Symbol(b[0] % 4 * 16 + b[1] / 16),
                      Symbol(b[1] % 16 * 4 + b[2] / 64), Symbol(b[2] % 64)];
      SplitThenJoin(b[0], b[1], b[2]);
      assert DecodeFull(Strict, head) == Some([b[0], b[1], b[2]]);
      assert Encode(b)[4..] == Encode(b[3..]);
      assert [b[0], b[1], b[2]] + b[3..] == b;
      QuantaOfEncoding(b[3..]);
      if |b| == 3 {
        assert Encode(b) == head && head[3] != '=';
        assert b == [b[0], b[1], b[2]];
      }
    }
  }

  lemma SymbolOfSextet(c: char)
    requires Sextet(Strict, c) >= 0
    ensures Symbol(Sextet(Strict, c)) == c
  {
  }

  lemma EncodeThree(b0: Byte, b1: Byte, b2: Byte)
    ensures Encode([b0, b1, b2]) == [Symbol(b0 / 4), Symbol(b0 % 4 * 16 + b1 / 16),
                                     Symbol(b1 % 16 * 4 + b2 / 64), Symbol(b2 % 64)]
  {
    assert [b0, b1, b2][3..] == [];
  }

  lemma EncodeJoined(v0: int, v1: int, v2: int, v3: int)
    requires 0 <= v0 < 64 && 0 <= v1 < 64 && 0 <= v2 < 64 && 0 <= v3 < 64
    ensures Encode([v0 * 4 + v1 / 16, v1 % 16 * 16 + v2 / 4, v2 % 4 * 64 + v3])
         == [Symbol(v0), Symbol(v1), Symbol(v2), Symbol(v3)]
  {
    hide Encode, Symbol;
    JoinThenSplit(v0, v1, v2, v3);
    EncodeThree(v0 * 4 + v1 / 16, v1 % 16 * 16 + v2 / 4, v2 % 4 * 64 + v3);
  }

  lemma EncodeOfDecodedFull(q: string)
    requires |q| == 4 && DecodeFull(Strict, q).Some?
    ensures |DecodeFull(Strict, q).value| == 3 && Encode(DecodeFull(Strict, q).value) == q
  {
    hide Encode, Symbol;
    EncodeJoined(Sextet(Strict, q[0]), Sextet(Strict, q[1]), Sextet(Strict, q[2]), Sextet(Strict, q[3]));
    SymbolOfSextet(q[0]);
    SymbolOfSextet(q[1]);
    SymbolOfSextet(q[2]);
    SymbolOfSextet(q[3]);
    assert q == [q[0], q[1], q[2], q[3]];
  }

  lemma EncodeOfDecodedLast(q: string)
    requires |q| == 4 && DecodeLast(Strict, q).Some?
    ensures Encode(DecodeLast(Strict, q).value) == q
  {
    if q[3] != '=' {
      EncodeOfDecodedFull(q);
    } else {
      var v2 := if q[2] == '=' then 0 else Sextet(Strict, q[2]);
      JoinThenSplit(Sextet(Strict, q[0]), Sextet(Strict, q[1]), v2, 0);
      SymbolOfSextet(q[0]);
      SymbolOfSextet(q[1]);
      if q[2] == '=' {
        assert Encode(DecodeLast(Strict, q).value) == [q[0], q[1], '=', '='];
      } else {
        SymbolOfSextet(q[2]);
        assert Encode(DecodeLast(Strict, q).value) == [q[0], q[1], q[2], '='];
      }
    }
  }

  lemma EncodeAppend(head: seq<Byte>, tail: seq<Byte>)
    requires |head| == 3
    ensures Encode(head + tail) == Encode(head) + Encode(tail)
  {
    assert (head + tail)[3..] == tail;
    assert head == [head[0], head[1], head[2]];
    EncodeThree(head[0], head[1], head[2]);
  }

  lemma QuantaSplit(d: Dialect, s: string)
    requires |s| > 4 && DecodeQuanta(d, s).Some?
    ensures DecodeFull(d, s[..4]).Some? && DecodeQuanta(d, s[4..]).Some?
    ensures DecodeQuanta(d, s).value == DecodeFull(d, s[..4]).value + DecodeQuanta(d, s[4..]).value
  {
    hide DecodeFull, DecodeLast;
  }

  lemma {:induction false} EncodingOfQuanta(s: string)
    requires DecodeQuanta(Strict, s).Some?
    ensures Encode(DecodeQuanta(Strict, s).value) == s
  {
    hide Encode, DecodeFull, DecodeLast;
    if |s| == 4 {
      EncodeOfDecodedLast(s);
    } else if |s| > 4 {
      QuantaSplit(Strict, s);
      EncodeOfDecodedFull(s[..4]);
      EncodingOfQuanta(s[4..]);
      EncodeAppend(DecodeFull(Strict, s[..4]).value, DecodeQuanta(Strict, s[4..]).value);
      assert s[..4] + s[4..] == s;
    } else {
      EncodeNothing();
    }
  }

  lemma EncodeNothing()
    ensures Encode([]) == ""
  {
  }

  lemma SextetDialects(c: char)
    ensures Sextet(Strict, c) == if c == '+' || c == '/' then -1 else Sextet(Lenient, c)
  {
  }

  lemma DialectsFull(q: string)
    requires |q| == 4
    ensures DecodeFull(Strict, q) == if '+' in q || '/' in q then None else DecodeFull(Lenient, q)
  {
    SextetDialects(q[0]);
    SextetDialects(q[1]);
    SextetDialects(q[2]);
    SextetDialects(q[3]);
  }

  lemma DialectsLast(q: string)
    requires |q| == 4
    ensures DecodeLast(Strict, q) == if Clean(q) then DecodeLast(Lenient, q) else None
  {
    SextetDialects(q[0]);
    SextetDialects(q[1]);
    SextetDialects(q[2]);
    if q[3] != '=' { DialectsFull(q); }
  }

  lemma CleanTail(s: string)
    requires |s| >= 8
    ensures Clean(s) <==> '+' !in s[..4] && '/' !in s[..4] && Clean(s[4..])
  {
    var t := s[4..];
    assert s == s[..4] + t;
    assert t[|t| - 1] == s[|s| - 1] && t[|t| - 2] == s[|s| - 2] && t[|t| - 3] == s[|s| - 3];
  }

  lemma {:induction false} QuantaDialects(s: string)
    ensures DecodeQuanta(Strict, s) == if Clean(s) then DecodeQuanta(Lenient, s) else None
  {
    if |s| == 4 {
      DialectsLast(s);
    } else if |s| > 4 {
      DialectsFull(s[..4]);
      QuantaDialects(s[4..]);
      if |s| >= 8 { CleanTail(s); }
    }
  }

  lemma {:induction false} QuantaLength(d: Dialect, s: string)
    requires DecodeQuanta(d, s).Some?
    ensures |s| % 4 == 0
    ensures |s| / 4 * 3 - 2 <= |DecodeQuanta(d, s).value| <= |s| / 4 * 3
  {
    if |s| > 4 {
      QuantaLength(d, s[4..]);
    }
  }

  lemma {:induction false} QuantaAlphabet(d: Dialect, s: string)
    requires DecodeQuanta(d, s).Some?
    ensures forall c | c in s :: c == '=' || Sextet(d, c) >= 0
  {
    hide Sextet;
    if |s| > 4 {
      QuantaAlphabet(d, s[4..]);
      assert s == s[..4] + s[4..];
      assert s[..4] == [s[0], s[1], s[2], s[3]];
    } else if |s| == 4 {
      assert s == [s[0], s[1], s[2], s[3]];
    }
  }

  // ---- surplus padding ----

  lemma {:induction false} UnpaddedShape(s: string)
    ensures |Unpadded(s)| <= |s| && s[..|Unpadded(s)|] == Unpadded(s)
    ensures forall i | |Unpadded(s)| <= i < |s| :: s[i] == '='
    ensures Unpadded(s) != "" ==> Unpadded(s)[|Unpadded(s)| - 1] != '='
  {
    if s != "" && s[|s| - 1] == '=' {
      UnpaddedShape(s[..|s| - 1]);
    }
  }

  lemma {:induction false} UnpaddedIsUnique(s: string, n: nat)
    requires n <= |s| && (forall i | n <= i < |s| :: s[i] == '=') && (n > 0 ==> s[n - 1] != '=')
    ensures Unpadded(s) == s[..n]
    decreases |s|
  {
    if n < |s| {
      UnpaddedIsUnique(s[..|s| - 1], n);
      assert s[..|s| - 1][..n] == s[..n];
    } else {
      assert s[..n] == s;
    }
  }

  lemma SurplusTail(s: string)
    requires HasSurplus(s) && |Unpadded(s)| > 4
    ensures HasSurplus(s[4..])
  {
    var n := |Unpadded(s)|;
    UnpaddedShape(s);
    UnpaddedIsUnique(s[4..], n - 4);
  }

  /** Surplus padding is no group of its own. */
  lemma {:induction false} SurplusIsNoGroup(d: Dialect, s: string)
    requires HasSurplus(s)
    ensures DecodeQuanta(d, s).None?
  {
    UnpaddedShape(s);
    if |Unpadded(s)| > 4 {
      SurplusTail(s);
      SurplusIsNoGroup(d, s[4..]);
    } else {
      var t := s[4..];
      assert t[0] == '=';
      assert |t| >= 4 ==> DecodeFull(d, t[..4]).None? && DecodeLast(d, t[..4]).None?;
    }
  }

  // ---- the decoders ----

  lemma {:induction false} UnbrokenText(s: string)
    ensures |Unbroken(s)| <= |s|
    ensures |Unbroken(s)| == |s| <==> forall c | c in s :: InLine(c)
    ensures (forall c | c in s :: InLine(c)) ==> Unbroken(s) == s
  {
    if s != [] {
      UnbrokenText(s[1..]);
      assert s == [s[0]] + s[1..];
    }
  }

  lemma QuantaAreInLine(d: Dialect, s: string)
    requires DecodeQuanta(d, s).Some?
    ensures Unbroken(s) == s
  {
    hide DecodeQuanta;
    QuantaAlphabet(d, s);
    UnbrokenText(s);
  }

  /** Decoding undoes encoding. */
  lemma EncodeThenDecode(b: seq<Byte>)
    ensures Decode(Strict, Encode(b)) == Some(b)
  {
    hide Encode, DecodeQuanta;
    QuantaOfEncoding(b);
    QuantaAreInLine(Strict, Encode(b));
  }

  /** Line breaks apart, the strict decoder accepts nothing but what the encoder produces. */
  lemma DecodeThenEncode(s: string)
    requires Decode(Strict, s).Some?
    ensures Encode(Decode(Strict, s).value) == Unbroken(s)
  {
    hide Encode, DecodeQuanta;
    EncodingOfQuanta(Unbroken(s));
  }

  /** Two texts the strict decoder accepts carry the same bytes exactly when they differ only in
      line breaks. */
  lemma SameBytes(s: string, t: string)
    requires Decode(Strict, s).Some? && Decode(Strict, t).Some?
    ensures Decode(Strict, s) == Decode(Strict, t) <==> Unbroken(s) == Unbroken(t)
  {
    hide Encode, DecodeQuanta;
    DecodeThenEncode(s);
    DecodeThenEncode(t);
  }

  /** The strict dialect is the lenient one on the text without its line breaks, restricted to
      canonical texts; a text with a line break is no text of the lenient one. */
  lemma StrictIsCanonicalLenient(s: string)
    ensures Decode(Strict, s) == if Canonical(Unbroken(s)) then Decode(Lenient, Unbroken(s)) else None
    ensures Decode(Lenient, s).Some? ==> Unbroken(s) == s
  {
    hide DecodeQuanta, HasSurplus, Clean;
    if HasSurplus(Unbroken(s)) {
      SurplusIsNoGroup(Strict, Unbroken(s));
    } else {
      QuantaDialects(Unbroken(s));
    }
    if Decode(Lenient, s).Some? {
      LenientIsInLine(s);
    }
  }

  lemma LenientIsInLine(s: string)
    requires Decode(Lenient, s).Some?
    ensures Unbroken(s) == s
  {
    hide DecodeQuanta, HasSurplus;
    QuantaAlphabet(Lenient, Counted(Lenient, s));
    UnpaddedShape(s);
    forall c | c in s ensures InLine(c) {
      var i :| 0 <= i < |s| && s[i] == c;
      if HasSurplus(s) && i < |Unpadded(s)| {
        assert Unpadded(s)[i] == c;
      }
    }
    UnbrokenText(s);
  }

  /** The condition is exact for texts without line breaks: the two decoders differ on such a text
      exactly if Python takes it and it is not canonical. */
  lemma DialectsDiffer(s: string)
    requires forall c | c in s :: InLine(c)
    ensures Decode(Strict, s) != Decode(Lenient, s) <==> Decode(Lenient, s).Some? && !Canonical(s)
  {
    hide Decode, Canonical;
    UnbrokenText(s);
    StrictIsCanonicalLenient(s);
  }

  /** Four characters that count become three bytes, less the padding. */
  lemma DecodedLength(d: Dialect, s: string)
    requires Decode(d, s).Some?
    ensures |Counted(d, s)| % 4 == 0
    ensures |Counted(d, s)| / 4 * 3 - 2 <= |Decode(d, s).value| <= |Counted(d, s)| / 4 * 3
  {
    QuantaLength(d, Counted(d, s));
  }

  /** Surplus padding of any length is taken by Python and refused by Go. */
  lemma SurplusIsTaken(b: seq<Byte>, pads: string)
    requires b != [] && |b| % 3 == 0 && pads != "" && forall c | c in pads :: c == '='
    ensures Decode(Lenient, Encode(b) + pads) == Some(b)
    ensures Decode(Strict, Encode(b) + pads) == None
  {
    hide DecodeQuanta, Encode;
    var s := Encode(b) + pads;
    GroupsEndUnpadded(b);
    forall i | |Encode(b)| <= i < |s| ensures s[i] == '=' {
      assert s[i] == pads[i - |Encode(b)|] && pads[i - |Encode(b)|] in pads;
    }
    UnpaddedIsUnique(s, |Encode(b)|);
    assert s[..|Encode(b)|] == Encode(b);
    EncodeThenDecode(b);
    QuantaOfEncoding(b);
    QuantaDialects(Encode(b));
    QuantaAreInLine(Strict, Encode(b));
    PadsInLine(Encode(b), pads);
    StrictIsCanonicalLenient(s);
  }

  lemma {:induction false} GroupsEndUnpadded(b: seq<Byte>)
    requires b != [] && |b| % 3 == 0
    ensures |Encode(b)| >= 4 && |Encode(b)| % 4 == 0 && Encode(b)[|Encode(b)| - 1] != '='
  {
    if |b| > 3 {
      GroupsEndUnpadded(b[3..]);
    }
  }

  lemma PadsInLine(s: string, pads: string)
    requires Unbroken(s) == s && forall c | c in pads :: c == '='
    ensures Unbroken(s + pads) == s + pads
  {
    UnbrokenText(s);
    UnbrokenText(s + pads);
  }

  // ---- another release of Python ----

  /** Python 3.10 checks the text against `[A-Za-z0-9+/]*={0,2}` and then stops reading at the first
      padding that completes a group. */
  function Counted310(s: string): string {
    var n := |Unpadded(s)|;
    if n % 4 == 0 then Unpadded(s)
    else if n % 4 == 3 && |s| > n + 1 then s[..|s| - 1]
    else s
  }

  function Decode310(s: string): Option<seq<Byte>> {
    if |s| > |Unpadded(s)| + 2 then None else DecodeQuanta(Lenient, Counted310(s))
  }

  /** On texts of whole groups the release makes no difference, surplus padding apart. */
  lemma ReleasesAgree(s: string)
    requires |s| % 4 == 0 && Unpadded(s) != "" && !HasSurplus(s)
    ensures Decode310(s) == Decode(Lenient, s)
  {
    hide DecodeQuanta;
    UnpaddedShape(s);
    if |s| > |Unpadded(s)| + 2 {
      ManyPads(s);
    }
  }

  lemma {:induction false} ManyPads(s: string)
    requires |s| % 4 == 0 && |s| >= 4 && s[|s| - 3..] == "==="
    ensures DecodeQuanta(Lenient, s).None?
  {
    if |s| > 4 {
      assert s[4..][|s| - 7..] == "===";
      ManyPads(s[4..]);
    } else {
      assert s[1] == s[1..][0] && s[2] == s[1..][1] && s[3] == s[1..][2];
    }
  }
}
