/** What base64 means without an encoder: characters are places in a table, a text is a number in
    base 64, and its bytes are the same number in base 256. */
module Alphabet {
  import opened Wrappers
  import opened Sequences
  import opened Base64

  const UPPER := "ABCDEFGHIJKLMNOPQRSTUVWXYZ"
  const LOWER := "abcdefghijklmnopqrstuvwxyz"
  const OTHERS := "0123456789-_"

  /** Table 2 of RFC 4648. */
  const TABLE := UPPER + LOWER + OTHERS

  /** The digit a character stands for, or -1.  Python reads `+` and `/` as `-` and `_`. */
  function Digit(d: Dialect, c: char): int {
    if c in TABLE then IndexOf(TABLE, c)
    else if d.Lenient? && c == '+' then 62
    else if d.Lenient? && c == '/' then 63
    else -1
  }

  lemma Letters(v: int)
    requires 0 <= v < 26
    ensures Symbol(v) == UPPER[v] && Symbol(v + 26) == LOWER[v]
  {
  }

  lemma Others(v: int)
    requires 52 <= v < 64
    ensures Symbol(v) == OTHERS[v - 52]
  {
  }

  lemma Sizes()
    ensures |UPPER| == |LOWER| == 26 && |OTHERS| == 12
  {
  }

  lemma SymbolAt(v: int)
    requires 0 <= v < 64
    ensures Symbol(v) == TABLE[v]
  {
    Sizes();
    hide UPPER, LOWER, OTHERS, Symbol;
    if v < 26 {
      Letters(v);
    } else if v < 52 {
      Letters(v - 26);
    } else {
      Others(v);
    }
  }

  /** The code's arithmetic on characters is the table. */
  lemma DigitIsSextet(d: Dialect, c: char)
    ensures Digit(d, c) == Sextet(d, c)
  {
    hide Symbol;
    var v := Sextet(Strict, c);
    if v >= 0 {
      SymbolOfSextet(c);
      SymbolAt(v);
    }
    if c in TABLE {
      var i := IndexOf(TABLE, c);
      SymbolAt(i);
    }
  }

  // ---- numbers ----

  /** The characters of a text as digits in base 64, most significant first. */
  function Number64(d: Dialect, s: string): int {
    if s == "" then 0 else Number64(d, s[..|s| - 1]) * 64 + Digit(d, s[|s| - 1])
  }

  /** Bytes as digits in base 256, most significant first. */
  function Number256(b: seq<Byte>): nat {
    if b == [] then 0 else Number256(b[..|b| - 1]) * 256 + b[|b| - 1]
  }

  /** How many values the bits take that are left over behind `n` characters. */
  function Spare(n: nat): nat { if n % 4 == 2 then 16 else if n % 4 == 3 then 4 else 1 }

  /** A text of whole groups, with what padding they need and nothing else outside the alphabet; for Go
      the bits left over are zero. */
  predicate WellFormed(d: Dialect, s: string) {
    && |s| % 4 == 0 && |s| <= |Unpadded(s)| + 2
    && (forall c | c in Unpadded(s) :: Digit(d, c) >= 0)
    && (d.Strict? ==> Number64(d, Unpadded(s)) % Spare(|Unpadded(s)|) == 0)
  }

  function Pow64(n: nat): nat { if n == 0 then 1 else 64 * Pow64(n - 1) }

  function Pow256(n: nat): nat { if n == 0 then 1 else 256 * Pow256(n - 1) }

  lemma {:induction false} Append64(d: Dialect, x: string, y: string)
    ensures Number64(d, x + y) == Number64(d, x) * Pow64(|y|) + Number64(d, y)
  {
    hide Digit;
    if y == "" {
      assert x + y == x;
    } else {
      var z := y[..|y| - 1];
      Append64(d, x, z);
      assert (x + y)[..|x + y| - 1] == x + z;
      assert Number64(d, x) * Pow64(|y|) == Number64(d, x) * Pow64(|z|) * 64;
    }
  }

  lemma {:induction false} Append256(x: seq<Byte>, y: seq<Byte>)
    ensures Number256(x + y) == Number256(x) * Pow256(|y|) + Number256(y)
  {
    if y == [] {
      assert x + y == x;
    } else {
      var z := y[..|y| - 1];
      Append256(x, z);
      assert (x + y)[..|x + y| - 1] == x + z;
      assert Number256(x) * Pow256(|y|) == Number256(x) * Pow256(|z|) * 256;
    }
  }

  lemma FourDigits(n: nat)
    ensures Pow64(n + 4) == 0x100_0000 * Pow64(n)
  {
    assert Pow64(n + 4) == 64 * Pow64(n + 3) && Pow64(n + 2) == 64 * Pow64(n + 1);
  }

  lemma ThreeDigits(n: nat)
    ensures Pow256(n + 3) == 0x100_0000 * Pow256(n)
  {
    assert Pow256(n + 3) == 256 * Pow256(n + 2);
  }

  /** `n` digits in base 64 less the bits left over. */
  lemma {:induction false} Powers(n: nat)
    requires n % 4 != 1
    ensures Pow64(n) == Spare(n) * Pow256(n * 6 / 8)
  {
    if n >= 4 {
      Powers(n - 4);
      FourDigits(n - 4);
      ThreeDigits((n - 4) * 6 / 8);
    } else {
      assert Pow256(1) == 256 * Pow256(0) && Pow256(2) == 256 * Pow256(1);
      assert Pow64(2) == 64 * Pow64(1) && Pow64(3) == 64 * Pow64(2);
    }
  }

  // ---- one group ----

  lemma Tail3(d: Dialect, u: string)
    requires |u| == 3
    ensures Number64(d, u) == (Digit(d, u[0]) * 64 + Digit(d, u[1])) * 64 + Digit(d, u[2])
  {
    hide Digit;
    assert u[..2][..1] == [u[0]];
    assert Number64(d, u[..2]) == Number64(d, [u[0]]) * 64 + Digit(d, u[1]);
  }

  lemma Tail2(d: Dialect, u: string)
    requires |u| == 2
    ensures Number64(d, u) == Digit(d, u[0]) * 64 + Digit(d, u[1])
  {
    hide Digit;
    assert Number64(d, u[..1]) == Digit(d, u[0]);
  }

  lemma Number64Of4(d: Dialect, q: string)
    requires |q| == 4
    ensures Number64(d, q)
         == ((Digit(d, q[0]) * 64 + Digit(d, q[1])) * 64 + Digit(d, q[2])) * 64 + Digit(d, q[3])
  {
    hide Digit;
    Tail3(d, q[..3]);
  }

  lemma Number256Of3(b: seq<Byte>)
    requires |b| == 3
    ensures Number256(b) == (b[0] as int * 256 + b[1]) * 256 + b[2]
  {
    assert b[..2][..1] == [b[0]];
    assert Number256(b[..2]) == Number256([b[0]]) * 256 + b[1];
  }

  /** Four characters are accepted if each is in the table, and are then the same number as the bytes. */
  lemma FullMeans(d: Dialect, q: string)
    requires |q| == 4
    ensures DecodeFull(d, q).Some? <==> forall i | 0 <= i < 4 :: Digit(d, q[i]) >= 0
    ensures DecodeFull(d, q).Some? ==>
      |DecodeFull(d, q).value| == 3 && Number64(d, q) == Number256(DecodeFull(d, q).value)
  {
    hide Digit, Sextet;
    Number64Of4(d, q);
    forall i | 0 <= i < 4 ensures Digit(d, q[i]) == Sextet(d, q[i]) < 64 { DigitIsSextet(d, q[i]); }
    if DecodeFull(d, q).Some? { Number256Of3(DecodeFull(d, q).value); }
  }

  // ---- the last group ----

  lemma DigitsOf(d: Dialect, q: string)
    requires |q| == 4
    ensures forall i | 0 <= i < 4 :: Digit(d, q[i]) == Sextet(d, q[i]) < 64
    ensures Digit(d, '=') == -1
  {
    hide Digit, Sextet;
    forall i | 0 <= i < 4 ensures Digit(d, q[i]) == Sextet(d, q[i]) < 64 { DigitIsSextet(d, q[i]); }
    NoDigit(d);
  }

  lemma LastFull(d: Dialect, q: string)
    requires |q| == 4 && q[3] != '='
    ensures DecodeLast(d, q).Some? <==> WellFormed(d, q)
    ensures DecodeLast(d, q).Some? ==> Same(d, Unpadded(q), DecodeLast(d, q).value)
  {
    hide Digit, Sextet, Number64, Number256, DecodeFull;
    FullMeans(d, q);
    assert Unpadded(q) == q;
    assert q == [q[0], q[1], q[2], q[3]];
  }

  lemma EighteenBits(v0: int, v1: int, v2: int)
    requires 0 <= v0 < 64 && 0 <= v1 < 64 && 0 <= v2 < 64
    ensures ((v0 * 64 + v1) * 64 + v2) % 4 == v2 % 4
    ensures ((v0 * 64 + v1) * 64 + v2) / 4 == (v0 * 4 + v1 / 16) * 256 + v1 % 16 * 16 + v2 / 4
  {
  }

  lemma LastThree(d: Dialect, q: string)
    requires |q| == 4 && q[3] == '=' && q[2] != '='
    ensures DecodeLast(d, q).Some? <==> WellFormed(d, q)
    ensures DecodeLast(d, q).Some? ==> Same(d, Unpadded(q), DecodeLast(d, q).value)
  {
    hide Digit, Sextet, Number64, Number256, Unpadded;
    DigitsOf(d, q);
    UnpaddedIsUnique(q, 3);
    Tail3(d, q[..3]);
    assert q[..3] == [q[0], q[1], q[2]];
    assert Unpadded(q) == q[..3];
    if Digit(d, q[0]) >= 0 && Digit(d, q[1]) >= 0 && Digit(d, q[2]) >= 0 {
      EighteenBits(Digit(d, q[0]), Digit(d, q[1]), Digit(d, q[2]));
      if DecodeLast(d, q).Some? { Bytes2(DecodeLast(d, q).value); }
    }
  }

  lemma LastTwo(d: Dialect, q: string)
    requires |q| == 4 && q[3] == '=' && q[2] == '='
    ensures DecodeLast(d, q).Some? <==> WellFormed(d, q)
    ensures DecodeLast(d, q).Some? ==> Same(d, Unpadded(q), DecodeLast(d, q).value)
  {
    hide Digit, Sextet, Number64, Number256, Unpadded;
    DigitsOf(d, q);
    if q[1] != '=' {
      UnpaddedIsUnique(q, 2);
      Tail2(d, q[..2]);
      assert q[..2] == [q[0], q[1]];
      if DecodeLast(d, q).Some? { Bytes2(DecodeLast(d, q).value); }
    } else {
      UnpaddedShape(q);
      assert |Unpadded(q)| <= 1;
    }
  }

  /** The text is the number its bytes are, apart from the bits left over. */
  predicate Same(d: Dialect, u: string, b: seq<Byte>) {
    |b| == |u| * 6 / 8 && Number64(d, u) / Spare(|u|) == Number256(b)
  }

  lemma NoDigit(d: Dialect)
    ensures Digit(d, '=') == -1
  {
    hide Digit;
    DigitIsSextet(d, '=');
  }

  lemma Bytes2(b: seq<Byte>)
    ensures |b| == 1 ==> Number256(b) == b[0]
    ensures |b| == 2 ==> Number256(b) == b[0] as int * 256 + b[1]
  {
    if |b| == 2 { assert Number256(b[..1]) == b[0]; }
  }

  // ---- whole texts ----

  lemma SpareOfGroup(a: int, p: int, sp: int, m: int, b: int)
    requires sp > 0 && p == sp * m
    ensures (a * p + b) % sp == b % sp
    ensures (a * p + b) / sp == a * m + b / sp
  {
    var k := a * m;
    assert a * p == sp * k;
    assert sp * k + b == sp * (k + b / sp) + b % sp;
    Quotient(sp * k + b, sp, k + b / sp, b % sp);
  }

  lemma Quotient(n: int, d: int, q: int, r: int)
    requires d > 0 && n == d * q + r && 0 <= r < d
    ensures n / d == q && n % d == r
  {
    var e := n / d - q;
    assert n == d * (n / d) + n % d;
    assert d * e == r - n % d;
    assert e > 0 ==> d * e >= d;
    assert e < 0 ==> d * e <= -d;
  }

  /** A group in front of a text that ends in at most two `=`. */
  lemma UnpaddedGroup(q: string, rest: string)
    requires |q| == 4 && |Unpadded(rest)| > 0
    ensures Unpadded(q + rest) == q + Unpadded(rest)
  {
    UnpaddedShape(rest);
    var n := 4 + |Unpadded(rest)|;
    UnpaddedIsUnique(q + rest, n);
    assert (q + rest)[..n] == q + rest[..n - 4];
  }

  lemma NumberGroup(d: Dialect, q: string, u: string)
    requires |q| == 4 && |u| % 4 != 1
    ensures Number64(d, q + u) % Spare(|u|) == Number64(d, u) % Spare(|u|)
    ensures Number64(d, q + u) / Spare(|u|)
         == Number64(d, q) * Pow256(|u| * 6 / 8) + Number64(d, u) / Spare(|u|)
  {
    hide Number64, Digit, Pow64, Pow256;
    Append64(d, q, u);
    Powers(|u|);
    SpareOfGroup(Number64(d, q), Pow64(|u|), Spare(|u|), Pow256(|u| * 6 / 8), Number64(d, u));
  }

  lemma SameGroup(d: Dialect, q: string, u: string, head: seq<Byte>, tail: seq<Byte>)
    requires |q| == 4 && |u| % 4 != 1 && |head| == 3 && Number64(d, q) == Number256(head) && Same(d, u, tail)
    ensures Same(d, q + u, head + tail)
  {
    hide Number64, Number256, Digit, Pow64, Pow256;
    NumberGroup(d, q, u);
    Append256(head, tail);
    assert Spare(|q + u|) == Spare(|u|);
  }

  lemma OnlyPadding(d: Dialect, q: string, rest: string)
    requires |q| == 4 && rest != "" && |Unpadded(rest)| == 0
    ensures !WellFormed(d, q + rest) && !WellFormed(d, rest)
  {
    hide Number64, Digit, Spare;
    var s := q + rest;
    UnpaddedShape(rest);
    UnpaddedShape(s);
    assert forall i | 4 <= i < |s| :: s[i] == rest[i - 4];
  }

  lemma GroupDigits(d: Dialect, q: string, u: string)
    requires |q| == 4
    ensures (forall c | c in q + u :: Digit(d, c) >= 0)
       <==> (forall i | 0 <= i < 4 :: Digit(d, q[i]) >= 0) && forall c | c in u :: Digit(d, c) >= 0
  {
    hide Digit;
    assert forall c :: c in q + u <==> c in q || c in u;
    assert q == [q[0], q[1], q[2], q[3]];
  }

  lemma WellFormedGroup(d: Dialect, q: string, rest: string)
    requires |q| == 4 && rest != ""
    ensures WellFormed(d, q + rest) <==> (forall i | 0 <= i < 4 :: Digit(d, q[i]) >= 0) && WellFormed(d, rest)
  {
    hide Number64, Digit, Spare, Unpadded, Pow64, Pow256, TABLE;
    if |Unpadded(rest)| == 0 {
      OnlyPadding(d, q, rest);
    } else {
      var u := Unpadded(rest);
      UnpaddedGroup(q, rest);
      GroupDigits(d, q, u);
      SpareGroup(|u|);
      if |rest| % 4 == 0 && |rest| <= |u| + 2 {
        UnpaddedShape(rest);
        NumberGroup(d, q, u);
      }
    }
  }

  lemma SpareGroup(n: nat)
    ensures Spare(n + 4) == Spare(n)
  {
  }

  /** Go and Python accept exactly the well-formed texts, and read them as the number they are. */
  lemma {:induction false} QuantaMeans(d: Dialect, s: string)
    ensures DecodeQuanta(d, s).Some? <==> WellFormed(d, s)
    ensures DecodeQuanta(d, s).Some? ==> Same(d, Unpadded(s), DecodeQuanta(d, s).value)
  {
    hide Digit, Number64, Number256, WellFormed, Same, Unpadded, DecodeFull, DecodeLast;
    if |s| == 4 {
      if s[3] != '=' { LastFull(d, s); } else if s[2] != '=' { LastThree(d, s); } else { LastTwo(d, s); }
    } else if |s| > 4 {
      var q, rest := s[..4], s[4..];
      assert s == q + rest;
      FullMeans(d, q);
      QuantaMeans(d, rest);
      WellFormedGroup(d, q, rest);
      if DecodeQuanta(d, s).Some? {
        PaddingFits(d, rest);
        UnpaddedGroup(q, rest);
        SameGroup(d, q, Unpadded(rest), DecodeFull(d, q).value, DecodeQuanta(d, rest).value);
      }
    } else {
      ShortTexts(d, s);
    }
  }

  lemma PaddingFits(d: Dialect, s: string)
    requires WellFormed(d, s) && s != ""
    ensures |Unpadded(s)| > 0 && |Unpadded(s)| % 4 != 1
  {
    hide Digit, Number64;
    UnpaddedShape(s);
  }

  lemma ShortTexts(d: Dialect, s: string)
    requires |s| < 4
    ensures WellFormed(d, s) <==> s == ""
    ensures Same(d, Unpadded(""), [])
  {
    hide Digit;
    assert Unpadded("") == "";
  }

  lemma {:induction false} SameNumber(b: seq<Byte>, c: seq<Byte>)
    requires |b| == |c| && Number256(b) == Number256(c)
    ensures b == c
  {
    if b != [] {
      var n := |b| - 1;
      assert b[n] as int - c[n] as int == 256 * (Number256(c[..n]) - Number256(b[..n]));
      SameNumber(b[..n], c[..n]);
      assert b == b[..n] + [b[n]] && c == c[..n] + [c[n]];
    }
  }

  /** The two decoders by their meaning: what is accepted, and which bytes it is. */
  lemma DecodeMeans(d: Dialect, s: string, b: seq<Byte>)
    ensures Decode(d, s) == Some(b)
       <==> WellFormed(d, Counted(d, s)) && Same(d, Unpadded(Counted(d, s)), b)
  {
    hide WellFormed, Counted, Unpadded, DecodeQuanta, Number64, Number256, Digit;
    QuantaMeans(d, Counted(d, s));
    if Decode(d, s).Some? && Same(d, Unpadded(Counted(d, s)), b) { SameNumber(b, Decode(d, s).value); }
  }

  /** The first twelve characters are the first nine bytes. */
  lemma FirstTwelve(d: Dialect, s: string)
    requires |s| > 12 && DecodeQuanta(d, s).Some?
    ensures |DecodeQuanta(d, s).value| >= 9
    ensures Number64(d, s[..12]) == Number256(DecodeQuanta(d, s).value[..9])
  {
    hide DecodeQuanta, DecodeFull, Number64, Number256, Digit;
    var x, y, z, rest := s[..4], s[4..8], s[8..12], s[12..];
    QuantaSplit(d, s);
    QuantaSplit(d, s[4..]);
    QuantaSplit(d, s[8..]);
    assert s[4..][..4] == y && s[4..][4..] == s[8..] && s[8..][..4] == z && s[8..][4..] == rest;
    FullMeans(d, x);
    FullMeans(d, y);
    FullMeans(d, z);
    var a, b, c := DecodeFull(d, x).value, DecodeFull(d, y).value, DecodeFull(d, z).value;
    assert DecodeQuanta(d, s).value[..9] == a + b + c;
    assert s[..12] == x + y + z;
    Append64(d, x, y);
    Append64(d, x + y, z);
    Append256(a, b);
    Append256(a + b, c);
    assert Pow64(4) == Pow256(3) by { Powers(4); }
  }
}
