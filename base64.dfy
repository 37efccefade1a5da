/**
 * The standard base64 encoding of section 4 of RFC 4648 (alphabet `A-Z a-z 0-9 + /`,
 * `=` padding), as Go's `base64.StdEncoding` produces it, together with a strict
 * reference decoder that serves as its inverse.
 *
 * The encoding is taken in two layers, as the RFC describes it: bytes are split into
 * 6-bit groups (symbols, with `Pad` for padding), and each symbol is then written as a
 * character of the alphabet.
 */
module Base64 {
  import opened Wrappers

  type byte = bv8
  /** A 6-bit group, held in the low bits of a byte. */
  type sextet = x: bv8 | x < 64

  const Padding: char := '='

  /** Number of characters in the padded encoding of `n` bytes (Go's `EncodedLen`). */
  function EncodedLen(n: nat): nat
  {
    (n + 2) / 3 * 4
  }

  // ---------------------------------------------------------------------------
  // The alphabet

  predicate IsAlphabetChar(c: char)
  {
    ('A' <= c <= 'Z') || ('a' <= c <= 'z') || ('0' <= c <= '9') || c == '+' || c == '/'
  }

  /** The character of the standard alphabet that stands for `v`. */
  function Char(v: sextet): (c: char)
    ensures IsAlphabetChar(c) && c != Padding
  {
    if v < 26 then ('A' as int + v as int) as char
    else if v < 52 then ('a' as int + (v as int - 26)) as char
    else if v < 62 then ('0' as int + (v as int - 52)) as char
    else if v == 62 then '+'
    else '/'
  }

  /** The value of a character of the standard alphabet. */
  function Value(c: char): sextet
    requires IsAlphabetChar(c)
  {
    if 'A' <= c <= 'Z' then (c as int - 'A' as int) as bv8
    else if 'a' <= c <= 'z' then (c as int - 'a' as int + 26) as bv8
    else if '0' <= c <= '9' then (c as int - '0' as int + 52) as bv8
    else if c == '+' then 62
    else 63
  }

  /** `Char` and `Value` are inverse bijections between 0..63 and the alphabet. */
  lemma CharValueInverse(v: sextet, c: char)
    ensures Value(Char(v)) == v
    ensures IsAlphabetChar(c) ==> Char(Value(c)) == c
  {
    ValueOfChar(v);
    if IsAlphabetChar(c) {
      CharOfValue(c);
    }
  }

  lemma ValueOfChar(v: sextet)
    ensures Value(Char(v)) == v
  {
    SextetToIntToBv(v);
    if v < 26 {
      ValueOfUpper(v);
    } else if v < 52 {
      ValueOfLower(v);
    } else if v < 62 {
      ValueOfDigit(v);
    }
  }

  lemma ValueOfUpper(v: sextet)
    requires v < 26 && (v as int) as bv8 == v
    ensures Value(Char(v)) == v
  {
    assert Char(v) as int - 'A' as int == v as int;
  }

  lemma ValueOfLower(v: sextet)
    requires 26 <= v < 52 && (v as int) as bv8 == v
    ensures Value(Char(v)) == v
  {
    assert Char(v) as int - 'a' as int + 26 == v as int;
  }

  lemma ValueOfDigit(v: sextet)
    requires 52 <= v < 62 && (v as int) as bv8 == v
    ensures Value(Char(v)) == v
  {
    assert Char(v) as int - '0' as int + 52 == v as int;
  }

  lemma CharOfValue(c: char)
    requires IsAlphabetChar(c)
    ensures Char(Value(c)) == c
  {
    if 'A' <= c <= 'Z' {
      SmallIntToBv(c as int - 'A' as int);
    } else if 'a' <= c <= 'z' {
      SmallIntToBv(c as int - 'a' as int + 26);
    } else if '0' <= c <= '9' {
      SmallIntToBv(c as int - '0' as int + 52);
    }
  }

  lemma SmallIntToBv(k: int)
    requires 0 <= k < 64
    ensures (k as bv8) as int == k
  {
  }

  lemma SextetToIntToBv(v: sextet)
    ensures (v as int) as bv8 == v
  {
  }

  // ---------------------------------------------------------------------------
  // Symbols: one character of an encoding, either a 6-bit digit or padding

  datatype Symbol = Digit(value: sextet) | Pad

  function SymbolChar(x: Symbol): char
  {
    match x
    case Digit(v) => Char(v)
    case Pad => Padding
  }

  predicate IsSymbolChar(c: char)
  {
    IsAlphabetChar(c) || c == Padding
  }

  function SymbolOf(c: char): Symbol
    requires IsSymbolChar(c)
  {
    if c == Padding then Pad else Digit(Value(c))
  }

  lemma SymbolCharInverse(x: Symbol, c: char)
    ensures IsSymbolChar(SymbolChar(x)) && SymbolOf(SymbolChar(x)) == x
    ensures IsSymbolChar(c) ==> SymbolChar(SymbolOf(c)) == c
  {
    match x
    case Digit(v) => CharValueInverse(v, c);
    case Pad => CharValueInverse(0, c);
  }

  /** Writes symbols as characters. */
  function Render(xs: seq<Symbol>): (s: seq<char>)
    ensures |s| == |xs| && forall i | 0 <= i < |xs| :: s[i] == SymbolChar(xs[i])
  {
    seq(|xs|, i requires 0 <= i < |xs| => SymbolChar(xs[i]))
  }

  /** Reads characters as symbols; `None` if one of them is outside the alphabet and `=`. */
  function Symbols(s: seq<char>): Option<seq<Symbol>>
  {
    if forall i | 0 <= i < |s| :: IsSymbolChar(s[i]) then Some(SymbolsOf(s)) else None
  }

  function SymbolsOf(s: seq<char>): (xs: seq<Symbol>)
    requires forall i | 0 <= i < |s| :: IsSymbolChar(s[i])
    ensures |xs| == |s| && forall i | 0 <= i < |s| :: xs[i] == SymbolOf(s[i])
  {
    seq(|s|, i requires 0 <= i < |s| => SymbolOf(s[i]))
  }

  lemma SymbolsRender(xs: seq<Symbol>)
    ensures Symbols(Render(xs)) == Some(xs)
  {
    var s := Render(xs);
    forall i | 0 <= i < |s|
      ensures IsSymbolChar(s[i]) && SymbolOf(s[i]) == xs[i]
    {
      SymbolCharInverse(xs[i], s[i]);
    }
    assert SymbolsOf(s) == xs;
  }

  lemma RenderSymbols(s: seq<char>, xs: seq<Symbol>)
    requires Symbols(s) == Some(xs)
    ensures Render(xs) == s
  {
    forall i | 0 <= i < |s|
      ensures SymbolChar(xs[i]) == s[i]
    {
      SymbolCharInverse(xs[i], s[i]);
    }
  }

  // ---------------------------------------------------------------------------
  // Groups: three bytes b0 b1 b2 <-> four sextets v0 v1 v2 v3 (a missing byte counts as 0)

  function S0(b0: byte): sextet { b0 >> 2 }
  function S1(b0: byte, b1: byte): sextet { ((b0 & 3) << 4) | (b1 >> 4) }
  function S2(b1: byte, b2: byte): sextet { ((b1 & 15) << 2) | (b2 >> 6) }
  function S3(b2: byte): sextet { b2 & 63 }

  function B0(v0: sextet, v1: sextet): byte { (v0 << 2) | (v1 >> 4) }
  function B1(v1: sextet, v2: sextet): byte { ((v1 & 15) << 4) | (v2 >> 2) }
  function B2(v2: sextet, v3: sextet): byte { ((v2 & 3) << 6) | v3 }

  /** Splitting a group into sextets and joining them again gives back the bytes ... */
  lemma BytesSextetsBytes(b0: byte, b1: byte, b2: byte)
    ensures B0(S0(b0), S1(b0, b1)) == b0
    ensures B1(S1(b0, b1), S2(b1, b2)) == b1
    ensures B2(S2(b1, b2), S3(b2)) == b2
    ensures S1(b0, 0) & 15 == 0 && S2(b1, 0) & 3 == 0
  {
  }

  /** ... and joining sextets into bytes and splitting them again gives back the sextets. */
  lemma SextetsBytesSextets(v0: sextet, v1: sextet, v2: sextet, v3: sextet)
    ensures S0(B0(v0, v1)) == v0
    ensures S1(B0(v0, v1), B1(v1, v2)) == v1
    ensures S2(B1(v1, v2), B2(v2, v3)) == v2
    ensures S3(B2(v2, v3)) == v3
    ensures v1 & 15 == 0 ==> S1(B0(v0, v1), 0) == v1
    ensures v2 & 3 == 0 ==> S2(B1(v1, v2), 0) == v2
  {
  }

  /** The symbols of the padded encoding of `d`, one 3-byte group at a time. */
  function Sextets(d: seq<byte>): (r: seq<Symbol>)
    ensures |r| == EncodedLen(|d|)
    decreases |d|
  {
    if |d| == 0 then []
    else if |d| == 1 then [Digit(S0(d[0])), Digit(S1(d[0], 0)), Pad, Pad]
    else if |d| == 2 then [Digit(S0(d[0])), Digit(S1(d[0], d[1])), Digit(S2(d[1], 0)), Pad]
    else [Digit(S0(d[0])), Digit(S1(d[0], d[1])), Digit(S2(d[1], d[2])), Digit(S3(d[2]))] + Sextets(d[3..])
  }

  /**
   * Decodes one quantum of four symbols; padding is accepted only in the `final`
   * quantum, and only when the unused low bits of the last digit are zero.
   */
  function DecodeQuantum(x0: Symbol, x1: Symbol, x2: Symbol, x3: Symbol, final: bool): Option<seq<byte>>
  {
    if x0.Pad? || x1.Pad? then None
    else if x2.Pad? && x3.Pad? then
      if final && x1.value & 15 == 0 then Some([B0(x0.value, x1.value)]) else None
    else if x2.Pad? then None
    else if x3.Pad? then
      if final && x2.value & 3 == 0 then Some([B0(x0.value, x1.value), B1(x1.value, x2.value)]) else None
    else Some([B0(x0.value, x1.value), B1(x1.value, x2.value), B2(x2.value, x3.value)])
  }

  function DecodeSymbols(xs: seq<Symbol>): Option<seq<byte>>
    decreases |xs|
  {
    if |xs| == 0 then Some([])
    else if |xs| < 4 then None
    else
      var q := DecodeQuantum(xs[0], xs[1], xs[2], xs[3], |xs| == 4);
      var rest := DecodeSymbols(xs[4..]);
      if q.None? || rest.None? then None else Some(q.value + rest.value)
  }

  // Each kind of quantum `Sextets` produces decodes to the bytes it was made from.

  lemma SingleDecodes(b0: byte)
    ensures DecodeQuantum(Digit(S0(b0)), Digit(S1(b0, 0)), Pad, Pad, true) == Some([b0])
  {
  }

  lemma PairDecodes(b0: byte, b1: byte)
    ensures DecodeQuantum(Digit(S0(b0)), Digit(S1(b0, b1)), Digit(S2(b1, 0)), Pad, true) == Some([b0, b1])
  {
  }

  lemma GroupDecodes(b0: byte, b1: byte, b2: byte, final: bool)
    ensures DecodeQuantum(Digit(S0(b0)), Digit(S1(b0, b1)), Digit(S2(b1, b2)), Digit(S3(b2)), final) == Some([b0, b1, b2])
  {
  }

  /** The first quantum of `Sextets(d)` decodes to the first (up to three) bytes of `d`. */
  lemma ShortQuantumDecodes(d: seq<byte>)
    requires 1 <= |d| <= 2
    ensures var xs := Sextets(d);
            DecodeQuantum(xs[0], xs[1], xs[2], xs[3], true) == Some(d)
  {
    var xs := Sextets(d);
    if |d| == 1 {
      assert xs == [Digit(S0(d[0])), Digit(S1(d[0], 0)), Pad, Pad];
      SingleDecodes(d[0]);
      assert d == [d[0]];
    } else {
      assert xs == [Digit(S0(d[0])), Digit(S1(d[0], d[1])), Digit(S2(d[1], 0)), Pad];
      PairDecodes(d[0], d[1]);
      assert d == [d[0], d[1]];
    }
  }

  lemma GroupQuantumDecodes(d: seq<byte>)
    requires |d| >= 3
    ensures var xs := Sextets(d);
            DecodeQuantum(xs[0], xs[1], xs[2], xs[3], |d| == 3) == Some(d[..3])
  {
    SextetsHead(d);
    GroupDecodes(d[0], d[1], d[2], |d| == 3);
    FirstThree(d);
  }

  lemma FirstThree<T>(s: seq<T>)
    requires |s| >= 3
    ensures s[..3] == [s[0], s[1], s[2]]
  {
  }

  /** The first quantum of three or more bytes, symbol by symbol. */
  lemma SextetsHead(d: seq<byte>)
    requires |d| >= 3
    ensures var xs := Sextets(d);
            && |xs| >= 4
            && xs[0] == Digit(S0(d[0])) && xs[1] == Digit(S1(d[0], d[1]))
            && xs[2] == Digit(S2(d[1], d[2])) && xs[3] == Digit(S3(d[2]))
  {
  }

  lemma {:induction false} DecodeSextets(d: seq<byte>)
    ensures DecodeSymbols(Sextets(d)) == Some(d)
    decreases |d|
  {
    if |d| > 0 {
      var xs := Sextets(d);
      if |d| <= 2 {
        ShortQuantumDecodes(d);
        assert xs[4..] == [];
        assert d + [] == d;
      } else if |d| == 3 {
        GroupQuantumDecodes(d);
        assert xs[4..] == [];
        assert d[..3] + [] == d;
      } else {
        GroupQuantumDecodes(d);
        assert xs[4..] == Sextets(d[3..]);
        DecodeSextets(d[3..]);
        assert d[..3] + d[3..] == d;
      }
    }
  }

  /** A quantum that decodes is the quantum `Sextets` produces for the decoded bytes. */
  lemma QuantumOfDecoded(x0: Symbol, x1: Symbol, x2: Symbol, x3: Symbol, final: bool, q: seq<byte>)
    requires DecodeQuantum(x0, x1, x2, x3, final) == Some(q)
    ensures 1 <= |q| <= 3 && (|q| < 3 ==> final)
    ensures |q| == 1 ==> [x0, x1, x2, x3] == [Digit(S0(q[0])), Digit(S1(q[0], 0)), Pad, Pad]
    ensures |q| == 2 ==> [x0, x1, x2, x3] == [Digit(S0(q[0])), Digit(S1(q[0], q[1])), Digit(S2(q[1], 0)), Pad]
    ensures |q| == 3 ==> [x0, x1, x2, x3] == [Digit(S0(q[0])), Digit(S1(q[0], q[1])), Digit(S2(q[1], q[2])), Digit(S3(q[2]))]
  {
    var v0, v1 := x0.value, x1.value;
    if x2.Pad? && x3.Pad? {
      assert q == [B0(v0, v1)];
      SextetsBytesSextets(v0, v1, 0, 0);
    } else if x3.Pad? {
      var v2 := x2.value;
      assert q == [B0(v0, v1), B1(v1, v2)];
      SextetsBytesSextets(v0, v1, v2, 0);
    } else {
      var v2, v3 := x2.value, x3.value;
      assert q == [B0(v0, v1), B1(v1, v2), B2(v2, v3)];
      SextetsBytesSextets(v0, v1, v2, v3);
    }
  }

  lemma {:induction false} SextetsOfDecoded(xs: seq<Symbol>, d: seq<byte>)
    requires DecodeSymbols(xs) == Some(d)
    ensures Sextets(d) == xs
    decreases |xs|
  {
    if |xs| > 0 {
      var q := DecodeQuantum(xs[0], xs[1], xs[2], xs[3], |xs| == 4).value;
      var rest := DecodeSymbols(xs[4..]).value;
      SextetsOfDecoded(xs[4..], rest);
      QuantumOfDecoded(xs[0], xs[1], xs[2], xs[3], |xs| == 4, q);
      assert d == q + rest;
      SplitFour(xs);
      if |q| < 3 {
        assert |xs| == 4 && rest == [] && d == q + [];
        assert xs[4..] == [];
      } else {
        AppendParts(q, rest);
      }
    }
  }

  // ---------------------------------------------------------------------------
  // Encoding and decoding strings

  /** The padded standard base64 encoding of `d`. */
  function Encode(d: seq<byte>): (r: seq<char>)
  {
    Render(Sextets(d))
  }

  /** Strict decoder: `None` unless `s` is the canonical padded encoding of some bytes. */
  function Decode(s: seq<char>): Option<seq<byte>>
  {
    match Symbols(s)
    case None => None
    case Some(xs) => DecodeSymbols(xs)
  }

  lemma DecodeEncode(d: seq<byte>)
    ensures Decode(Encode(d)) == Some(d)
  {
    SymbolsRender(Sextets(d));
    DecodeSextets(d);
  }

  lemma EncodeDecode(s: seq<char>, d: seq<byte>)
    requires Decode(s) == Some(d)
    ensures Encode(d) == s
  {
    var xs := Symbols(s).value;
    SextetsOfDecoded(xs, d);
    RenderSymbols(s, xs);
  }

  /** The encoding is the only string that decodes to `d`. */
  lemma DecodeIffEncode(s: seq<char>, d: seq<byte>)
    ensures Decode(s) == Some(d) <==> s == Encode(d)
  {
    if Decode(s) == Some(d) {
      EncodeDecode(s, d);
    }
    if s == Encode(d) {
      DecodeEncode(d);
    }
  }

  /** The length of an encoding: four characters for every started group of three bytes. */
  lemma EncodeLength(d: seq<byte>)
    ensures |Encode(d)| == 4 * ((|d| + 2) / 3)
    ensures |Encode(d)| % 4 == 0 && 3 * |Encode(d)| < 4 * |d| + 12
  {
  }

  /** A sequence of at least three bytes starts with a full quantum of digits. */
  lemma SextetsCons(d: seq<byte>)
    requires |d| >= 3
    ensures var r := Sextets(d);
            && |r| == 4 + |Sextets(d[3..])| && r[4..] == Sextets(d[3..])
            && r[0].Digit? && r[1].Digit? && r[2].Digit? && r[3].Digit?
  {
  }

  /**
   * Padding symbols appear only at the end: two after a final single byte, one after
   * a final pair, none when the length is a multiple of three.
   */
  lemma SextetsPadding(d: seq<byte>)
    ensures var r := Sextets(d);
            && (forall i | 0 <= i < |r| && r[i].Pad? :: i >= |r| - 2)
            && (|d| % 3 == 0 ==> forall i | 0 <= i < |r| :: r[i].Digit?)
            && (|d| % 3 == 1 ==> r[|r| - 2].Pad? && r[|r| - 1].Pad?)
            && (|d| % 3 == 2 ==> r[|r| - 2].Digit? && r[|r| - 1].Pad?)
  {
    PadOnlyAtEnd(d);
    if |d| % 3 == 0 {
      NoPadInGroups(d);
    } else {
      PaddedEnd(d);
    }
  }

  lemma {:induction false} PadOnlyAtEnd(d: seq<byte>)
    ensures var r := Sextets(d); forall i | 0 <= i < |r| && r[i].Pad? :: i >= |r| - 2
    decreases |d|
  {
    if |d| >= 3 {
      PadOnlyAtEnd(d[3..]);
      SextetsCons(d);
      var r, t := Sextets(d), Sextets(d[3..]);
      forall i | 0 <= i < |r| && r[i].Pad?
        ensures i >= |r| - 2
      {
        assert i >= 4 && t[i - 4].Pad?;
      }
    }
  }

  lemma {:induction false} NoPadInGroups(d: seq<byte>)
    requires |d| % 3 == 0
    ensures var r := Sextets(d); forall i | 0 <= i < |r| :: r[i].Digit?
    decreases |d|
  {
    if |d| >= 3 {
      NoPadInGroups(d[3..]);
      SextetsCons(d);
      var r, t := Sextets(d), Sextets(d[3..]);
      forall i | 0 <= i < |r|
        ensures r[i].Digit?
      {
        if i >= 4 { assert r[i] == t[i - 4]; }
      }
    }
  }

  lemma {:induction false} PaddedEnd(d: seq<byte>)
    requires |d| % 3 != 0
    ensures var r := Sextets(d);
            && (|d| % 3 == 1 ==> r[|r| - 2].Pad? && r[|r| - 1].Pad?)
            && (|d| % 3 == 2 ==> r[|r| - 2].Digit? && r[|r| - 1].Pad?)
    decreases |d|
  {
    var r := Sextets(d);
    if |d| == 1 {
      assert r == [Digit(S0(d[0])), Digit(S1(d[0], 0)), Pad, Pad];
    } else if |d| == 2 {
      assert r == [Digit(S0(d[0])), Digit(S1(d[0], d[1])), Digit(S2(d[1], 0)), Pad];
    } else {
      var t := Sextets(d[3..]);
      assert |d[3..]| % 3 == |d| % 3 by {
        assert |d[3..]| == |d| - 3;
      }
      PaddedEnd(d[3..]);
      SextetsCons(d);
      assert |t| >= 4;
      assert r[|r| - 2] == t[|t| - 2] && r[|r| - 1] == t[|t| - 1];
    }
  }

  /**
   * Every character of an encoding is from the standard alphabet, except `=` padding in
   * the last two positions: two `=` after a final single byte, one after a final pair.
   */
  lemma EncodeShape(d: seq<byte>)
    ensures var r := Encode(d);
            && (forall i | 0 <= i < |r| :: IsAlphabetChar(r[i]) || (r[i] == Padding && i >= |r| - 2))
            && (|d| % 3 == 0 ==> Padding !in r)
            && (|d| % 3 == 1 ==> r[|r| - 2..] == [Padding, Padding] && Padding !in r[..|r| - 2])
            && (|d| % 3 == 2 ==> r[|r| - 1..] == [Padding] && Padding !in r[..|r| - 1])
  {
    var xs, r := Sextets(d), Encode(d);
    SextetsPadding(d);
    if |d| % 3 == 1 {
      LastTwo(r);
    } else if |d| % 3 == 2 {
      LastOne(r);
    }
  }

  lemma LastTwo<T>(s: seq<T>)
    requires |s| >= 2
    ensures s[|s| - 2..] == [s[|s| - 2], s[|s| - 1]]
  {
  }

  lemma LastOne<T>(s: seq<T>)
    requires |s| >= 1
    ensures s[|s| - 1..] == [s[|s| - 1]]
  {
  }

  /** `Encode` emits one 4-character quantum per group of three bytes. */
  lemma EncodeGroups(d: seq<byte>)
    ensures |d| >= 3 ==> Encode(d) == [Char(S0(d[0])), Char(S1(d[0], d[1])), Char(S2(d[1], d[2])), Char(S3(d[2]))] + Encode(d[3..])
    ensures |d| == 2 ==> Encode(d) == [Char(S0(d[0])), Char(S1(d[0], d[1])), Char(S2(d[1], 0)), Padding]
    ensures |d| == 1 ==> Encode(d) == [Char(S0(d[0])), Char(S1(d[0], 0)), Padding, Padding]
  {
    var xs := Sextets(d);
    if |d| >= 3 {
      SextetsHead(d);
      SextetsCons(d);
      SplitFour(xs);
      RenderAppend([xs[0], xs[1], xs[2], xs[3]], xs[4..]);
      RenderFour(xs[0], xs[1], xs[2], xs[3]);
    } else if |d| == 2 {
      assert xs == [Digit(S0(d[0])), Digit(S1(d[0], d[1])), Digit(S2(d[1], 0)), Pad];
      RenderFour(xs[0], xs[1], xs[2], xs[3]);
    } else if |d| == 1 {
      assert xs == [Digit(S0(d[0])), Digit(S1(d[0], 0)), Pad, Pad];
      RenderFour(xs[0], xs[1], xs[2], xs[3]);
    }
  }

  lemma AppendParts<T>(a: seq<T>, b: seq<T>)
    ensures (a + b)[..|a|] == a && (a + b)[|a|..] == b
  {
  }

  lemma SplitFour<T>(s: seq<T>)
    requires |s| >= 4
    ensures s == [s[0], s[1], s[2], s[3]] + s[4..]
  {
  }

  lemma RenderFour(x0: Symbol, x1: Symbol, x2: Symbol, x3: Symbol)
    ensures Render([x0, x1, x2, x3]) == [SymbolChar(x0), SymbolChar(x1), SymbolChar(x2), SymbolChar(x3)]
  {
  }

  lemma RenderAppend(xs: seq<Symbol>, ys: seq<Symbol>)
    ensures Render(xs + ys) == Render(xs) + Render(ys)
  {
  }

  /**
   * Go's `Encoding.Encode`: fills `dst` with the encoding of `src`, whole 3-byte
   * groups first, then the 1- or 2-byte remainder with its padding.
   */
  method EncodeInto(dst: array<char>, src: seq<byte>)
    requires dst.Length == EncodedLen(|src|)
    modifies dst
    ensures dst[..] == Encode(src)
  {
    var di, si := 0, 0;
    ghost var groups := |src| / 3;
    var n := (|src| / 3) * 3;
    ghost var g := 0;
    while si < n
      invariant 0 <= g <= groups && si == 3 * g && di == 4 * g && n == 3 * groups
      invariant dst[..di] + Encode(src[si..]) == Encode(src)
      decreases n - si
    {
      ghost var done := dst[..di];
      var c0, c1 := Char(S0(src[si])), Char(S1(src[si], src[si + 1]));
      var c2, c3 := Char(S2(src[si + 1], src[si + 2])), Char(S3(src[si + 2]));
      EncodeStep(src, si);
      PutQuantum(dst, di, c0, c1, c2, c3);
      AppendAssoc(done, [c0, c1, c2, c3], Encode(src[si + 3..]));
      si, di, g := si + 3, di + 4, g + 1;
    }
    RemainderLength(|src|, groups, di);
    if si < |src| {
      EncodeRemainder(dst, di, src, si);
    }
    assert dst[..] == dst[..di] + Encode(src[si..]);
  }

  /** Writes the padded quantum of the last one or two bytes of `src`, which end the buffer. */
  method EncodeRemainder(dst: array<char>, di: nat, src: seq<byte>, si: nat)
    requires si + 1 == |src| || si + 2 == |src|
    requires di + 4 == dst.Length
    modifies dst
    ensures dst[..] == old(dst[..di]) + Encode(src[si..])
  {
    var b1 := if |src| - si == 2 then src[si + 1] else 0;
    var c0, c1 := Char(S0(src[si])), Char(S1(src[si], b1));
    var c2 := if |src| - si == 2 then Char(S2(b1, 0)) else Padding;
    EncodeTail(src, si);
    PutQuantum(dst, di, c0, c1, c2, Padding);
    assert dst[..] == dst[..di + 4];
  }

  /** The loop step of `EncodeInto`: a whole group at `si` contributes one quantum. */
  lemma EncodeStep(src: seq<byte>, si: nat)
    requires si + 3 <= |src|
    ensures Encode(src[si..]) == [Char(S0(src[si])), Char(S1(src[si], src[si + 1])),
                                  Char(S2(src[si + 1], src[si + 2])), Char(S3(src[si + 2]))] + Encode(src[si + 3..])
  {
    EncodeGroups(src[si..]);
    assert src[si..][3..] == src[si + 3..];
  }

  /** The last step of `EncodeInto`: a remainder of one or two bytes is one padded quantum. */
  lemma EncodeTail(src: seq<byte>, si: nat)
    requires si + 1 == |src| || si + 2 == |src|
    ensures var b1: byte := if |src| - si == 2 then src[si + 1] else 0;
            Encode(src[si..]) == [Char(S0(src[si])), Char(S1(src[si], b1)),
                                  if |src| - si == 2 then Char(S2(b1, 0)) else Padding, Padding]
  {
    EncodeGroups(src[si..]);
  }

  /** After the loop, `di` plus one quantum for a remainder fills the buffer. */
  lemma RemainderLength(len: nat, groups: nat, di: nat)
    requires groups == len / 3 && di == 4 * groups
    ensures len - 3 * groups < 3
    ensures len == 3 * groups ==> di == EncodedLen(len)
    ensures len > 3 * groups ==> di + 4 == EncodedLen(len)
  {
  }

  lemma AppendAssoc<T>(a: seq<T>, b: seq<T>, c: seq<T>)
    ensures a + (b + c) == (a + b) + c
  {
  }

  /** Writes one 4-character quantum at `dst[di..di + 4]`, leaving the rest unchanged. */
  method PutQuantum(dst: array<char>, di: nat, c0: char, c1: char, c2: char, c3: char)
    requires di + 4 <= dst.Length
    modifies dst
    ensures dst[..di + 4] == old(dst[..di]) + [c0, c1, c2, c3]
    ensures dst[di + 4..] == old(dst[di + 4..])
  {
    dst[di] := c0;
    dst[di + 1] := c1;
    dst[di + 2] := c2;
    dst[di + 3] := c3;
    assert dst[..di + 4] == dst[..di] + dst[di..di + 4];
  }
}
