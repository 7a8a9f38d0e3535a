/**
  Base64 and base64url as the library writes them: an encoder over groups of three bytes, and a decoder that feeds
  six bits at a time into a 32-bit accumulator which is never cleared and wraps around. Sections 4 and 5 of RFC 4648
  give the two alphabets.
*/
module Base64 {
  import opened Arithmetic
  import opened Wrappers

  /** Characters of a byte string. */
  type Symbol = c: char | c as int < 256

  type Byte = b: int | 0 <= b < 256

  const WRAP := 0x1_0000_0000

  /** The symbol for six bits. */
  function SymbolOf(url: bool, v: int): Symbol
    requires 0 <= v < 64
  {
    if v < 26 then ('A' as int + v) as char
    else if v < 52 then ('a' as int + v - 26) as char
    else if v < 62 then ('0' as int + v - 52) as char
    else if v == 62 then (if url then '-' else '+')
    else (if url then '_' else '/')
  }

  /** The six bits a symbol stands for. */
  function ValueOf(url: bool, c: Symbol): Option<int> {
    if 'A' <= c <= 'Z' then Some(c as int - 'A' as int)
    else if 'a' <= c <= 'z' then Some(c as int - 'a' as int + 26)
    else if '0' <= c <= '9' then Some(c as int - '0' as int + 52)
    else if c == (if url then '-' else '+') then Some(62)
    else if c == (if url then '_' else '/') then Some(63)
    else None
  }

  lemma SymbolRoundTrip(url: bool, v: int)
    requires 0 <= v < 64
    ensures ValueOf(url, SymbolOf(url, v)) == Some(v)
  {
  }

  /** The symbols are those of tables 1 and 2 of RFC 4648: 'A' to 'Z', 'a' to 'z' and '0' to '9' one after the other,
      and the two that differ. No other character has a value. */
  lemma SymbolsOfTheTables(url: bool, v: int, c: Symbol)
    requires 0 <= v < 64
    ensures SymbolOf(url, 0) == 'A' && SymbolOf(url, 26) == 'a' && SymbolOf(url, 52) == '0'
    ensures 0 < v < 62 && v != 26 && v != 52 ==> SymbolOf(url, v) as int == SymbolOf(url, v - 1) as int + 1
    ensures SymbolOf(url, 62) == (if url then '-' else '+') && SymbolOf(url, 63) == (if url then '_' else '/')
    ensures ValueOf(url, c) == Some(v) <==> c == SymbolOf(url, v)
  {
  }

  /** Padding and line breaks are skipped wherever they stand. */
  predicate Skipped(c: Symbol) {
    c == '=' || c == '\n' || c == '\r' || c == ' '
  }

  // ---------------------------------------------------------------- what encoding means

  /** The four groups of six bits of three bytes. */
  function Sextets(a: Byte, b: Byte, c: Byte): (int, int, int, int) {
    (a / 4, a % 4 * 16 + b / 16, b % 16 * 4 + c / 64, c % 64)
  }

  function Pad(pad: bool, n: nat): seq<Symbol> {
    if pad then seq(n, _ => '=') else []
  }

  function Encode(url: bool, pad: bool, data: seq<Byte>): seq<Symbol> {
    if |data| == 0 then []
    else if |data| == 1 then
      var (v0, v1, _, _) := Sextets(data[0], 0, 0);
      [SymbolOf(url, v0), SymbolOf(url, v1)] + Pad(pad, 2)
    else if |data| == 2 then
      var (v0, v1, v2, _) := Sextets(data[0], data[1], 0);
      [SymbolOf(url, v0), SymbolOf(url, v1), SymbolOf(url, v2)] + Pad(pad, 1)
    else
      var (v0, v1, v2, v3) := Sextets(data[0], data[1], data[2]);
      [SymbolOf(url, v0), SymbolOf(url, v1), SymbolOf(url, v2), SymbolOf(url, v3)] + Encode(url, pad, data[3..])
  }

  /** A quotient and its low six bits, with the parts spelled out. */
  lemma SixBitsAt(n: int, high: int, six: int, low: int, weight: int)
    requires weight > 0 && 0 <= low < weight && 0 <= six < 64 && n == (high * 64 + six) * weight + low
    ensures n / weight % 64 == six
  {
    QuotientAndRest(high * 64 + six, low, weight);
    QuotientAndRest(high, six, 64);
  }

  /** The shifts and masks of the encoder give the four groups. */
  lemma ShiftsGiveSextets(a: Byte, b: Byte, c: Byte)
    ensures var n := a * 0x1_0000 + b * 0x100 + c;
            Sextets(a, b, c) == (n / 0x4_0000 % 64, n / 0x1000 % 64, n / 64 % 64, n % 64)
  {
    var n := a * 0x1_0000 + b * 0x100 + c;
    SixBitsAt(n, 0, a / 4, a % 4 * 0x1_0000 + b * 0x100 + c, 0x4_0000);
    SixBitsAt(n, a / 4, a % 4 * 16 + b / 16, b % 16 * 0x100 + c, 0x1000);
    SixBitsAt(n, a * 16 + b / 16, b % 16 * 4 + c / 64, c % 64, 64);
    SixBitsAt(n, a * 1024 + b * 4 + c / 64, c % 64, 0, 1);
  }

  /** The symbols of one 24-bit group. */
  method GroupSymbols(a: Byte, b: Byte, c: Byte, url: bool) returns (v: seq<Symbol>)
    ensures |v| == 4
    ensures var x := Sextets(a, b, c);
            v == [SymbolOf(url, x.0), SymbolOf(url, x.1), SymbolOf(url, x.2), SymbolOf(url, x.3)]
  {
    var high: int, middle: int, low: int := a, b, c;
    var n := high * 0x1_0000 + middle * 0x100 + low;
    ShiftsGiveSextets(a, b, c);
    v := [SymbolOf(url, n / 0x4_0000 % 64), SymbolOf(url, n / 0x1000 % 64), SymbolOf(url, n / 64 % 64),
          SymbolOf(url, n % 64)];
  }

  lemma EncodeStep(data: seq<Byte>, i: nat, url: bool, pad: bool, group: seq<Symbol>, out: seq<Symbol>)
    requires i + 3 <= |data|
    requires var x := Sextets(data[i], data[i + 1], data[i + 2]);
             group == [SymbolOf(url, x.0), SymbolOf(url, x.1), SymbolOf(url, x.2), SymbolOf(url, x.3)]
    ensures out + group + Encode(url, pad, data[i + 3..]) == out + Encode(url, pad, data[i..])
  {
    var rest := data[i..];
    assert rest[3..] == data[i + 3..];
    assert Encode(url, pad, rest) == group + Encode(url, pad, data[i + 3..]);
  }

  method EncodeImpl(data: seq<Byte>, url: bool, pad: bool) returns (out: seq<Symbol>)
    ensures out == Encode(url, pad, data)
  {
    out := [];
    var i := 0;
    assert data[0..] == data;
    while i + 3 <= |data|
      invariant 0 <= i <= |data|
      invariant out + Encode(url, pad, data[i..]) == Encode(url, pad, data)
    {
      var group := GroupSymbols(data[i], data[i + 1], data[i + 2], url);
      EncodeStep(data, i, url, pad, group, out);
      out := out + group;
      i := i + 3;
    }
    var rest := EncodeRest(data[i..], url, pad);
    out := out + rest;
  }

  /** The last one or two bytes, if any. */
  method EncodeRest(data: seq<Byte>, url: bool, pad: bool) returns (out: seq<Symbol>)
    requires |data| < 3
    ensures out == Encode(url, pad, data)
  {
    out := [];
    if |data| == 1 {
      var group := GroupSymbols(data[0], 0, 0, url);
      out := group[..2] + Pad(pad, 2);
    } else if |data| == 2 {
      var group := GroupSymbols(data[0], data[1], 0, url);
      out := group[..3] + Pad(pad, 1);
    }
  }

  /** Padded output has four symbols for every started group of three bytes; unpadded output as few as needed. */
  lemma {:induction false} EncodedLength(url: bool, pad: bool, data: seq<Byte>)
    ensures |Encode(url, pad, data)| == if pad then (|data| + 2) / 3 * 4 else (4 * |data| + 2) / 3
  {
    if |data| >= 3 {
      EncodedLength(url, pad, data[3..]);
    }
  }

  /** Padding is by equals signs at the very end, one for each byte missing in the last group, if asked for. */
  lemma {:induction false} PaddingAtTheEnd(url: bool, pad: bool, data: seq<Byte>, k: nat)
    requires k < |Encode(url, pad, data)|
    ensures var missing := if pad then (3 - |data| % 3) % 3 else 0;
            Encode(url, pad, data)[k] == '=' <==> k >= |Encode(url, pad, data)| - missing
  {
    if |data| >= 3 {
      MissingBehind(url, pad, data);
      if k < 4 {
        FrontIsSymbols(url, pad, data, k);
      } else {
        PaddingAtTheEnd(url, pad, data[3..], k - 4);
      }
    } else {
      ShortPadding(url, pad, data, k);
    }
  }

  lemma ShortPadding(url: bool, pad: bool, data: seq<Byte>, k: nat)
    requires |data| < 3 && k < |Encode(url, pad, data)|
    ensures var missing := if pad then (3 - |data| % 3) % 3 else 0;
            Encode(url, pad, data)[k] == '=' <==> k >= |Encode(url, pad, data)| - missing
  {
  }

  lemma FrontIsSymbols(url: bool, pad: bool, data: seq<Byte>, k: nat)
    requires |data| >= 3 && k < 4
    ensures |Encode(url, pad, data)| >= 4 && Encode(url, pad, data)[k] != '='
  {
  }

  /** A full group in front changes nothing about what is missing behind it. */
  lemma MissingBehind(url: bool, pad: bool, data: seq<Byte>)
    requires |data| >= 3
    ensures |Encode(url, pad, data)| == 4 + |Encode(url, pad, data[3..])| && |data[3..]| % 3 == |data| % 3
    ensures forall k :: 4 <= k < |Encode(url, pad, data)| ==>
              Encode(url, pad, data)[k] == Encode(url, pad, data[3..])[k - 4]
    ensures |Encode(url, pad, data[3..])| >= if pad then (3 - |data| % 3) % 3 else 0
  {
    FrontGroup(url, pad, data);
    MissingFits(url, pad, data[3..]);
    QuotientAndRest(|data| / 3 - 1, |data| % 3, 3);
    assert |data[3..]| == (|data| / 3 - 1) * 3 + |data| % 3;
  }

  lemma FrontGroup(url: bool, pad: bool, data: seq<Byte>)
    requires |data| >= 3
    ensures var text, rest := Encode(url, pad, data), Encode(url, pad, data[3..]);
            |text| == 4 + |rest| && forall k :: 4 <= k < |text| ==> text[k] == rest[k - 4]
  {
  }

  lemma MissingFits(url: bool, pad: bool, data: seq<Byte>)
    ensures |Encode(url, pad, data)| >= if pad then (3 - |data| % 3) % 3 else 0
  {
    EncodedLength(url, pad, data);
  }

  // ---------------------------------------------------------------- what decoding means

  function Prepend(b: int, rest: Option<seq<int>>): Option<seq<int>> {
    if rest.Some? then Some([b] + rest.value) else None
  }

  /** Two to the number of bits left over after a byte has been taken out: 0, 2, 4 or 6. */
  function Power(bits: int): int {
    if bits == 0 then 1 else if bits == 2 then 4 else if bits == 4 then 16 else 64
  }

  predicate LeftOver(bits: int) {
    bits == 0 || bits == 2 || bits == 4 || bits == 6
  }

  /** The decoder with a mathematical remainder of fewer than `bits` bits instead of an accumulator. */
  function Decode(url: bool, s: seq<Symbol>, low: int, bits: int): Option<seq<int>>
    requires LeftOver(bits)
  {
    if s == [] then Some([])
    else if Skipped(s[0]) then Decode(url, s[1..], low, bits)
    else if ValueOf(url, s[0]).None? then None
    else
      var x := low * 64 + ValueOf(url, s[0]).value;
      if bits == 0 then Decode(url, s[1..], x, 6)
      else Prepend(x / Power(bits - 2), Decode(url, s[1..], x % Power(bits - 2), bits - 2))
  }

  lemma WrapKeepsLow(x: int, k: int, q: int)
    requires x >= 0 && k > 0 && q > 0
    ensures x % (k * q) % k == x % k
  {
    var w := k * q;
    assert x == x / w * w + x % w;
    var m := x / w * q;
    assert x / w * w == m * k by {
      assert x / w * (k * q) == (x / w * q) * k;
    }
    ModAddsMultiple(x % w, m, k);
  }

  lemma ModAddsMultiple(r: int, m: int, k: int)
    requires k > 0
    ensures (m * k + r) % k == r % k
  {
    var q := r / k;
    assert r == q * k + r % k;
    assert m * k + r == (m + q) * k + r % k by {
      assert (m + q) * k == m * k + q * k;
    }
    QuotientAndRest(m + q, r % k, k);
  }

  /** The six bits pushed into the wrapping accumulator: only its low bits matter, and they are the remainder. */
  lemma AccumulatorStep(accum: int, v: int, bits: int)
    requires 0 <= accum < WRAP && 0 <= v < 64 && LeftOver(bits)
    ensures var next, low := (accum * 64 + v) % WRAP, accum % Power(bits);
            && (bits == 0 ==> next % 64 == low * 64 + v)
            && (bits != 0 ==> next / Power(bits - 2) % 256 == (low * 64 + v) / Power(bits - 2)
                              && next % Power(bits - 2) == (low * 64 + v) % Power(bits - 2))
  {
    var p, next := Power(bits), (accum * 64 + v) % WRAP;
    var low, high := accum % p, accum / p;
    assert accum == high * p + low;
    var x := low * 64 + v;
    assert accum * 64 + v == high * (p * 64) + x;
    WrapKeepsLow(accum * 64 + v, p * 64, WRAP / (p * 64));
    QuotientAndRest(high, x, p * 64);
    assert next % (p * 64) == x;
    if bits != 0 {
      LowByte(next, x, Power(bits - 2));
    }
  }

  /** The byte above `q` and the bits below it depend on the remainder modulo `256 q` only. */
  lemma LowByte(next: int, x: int, q: int)
    requires next >= 0 && (q == 1 || q == 4 || q == 16)
    requires next % (256 * q) == x
    ensures next / q % 256 == x / q && next % q == x % q
  {
    var high := next / (256 * q);
    assert next == high * (256 * q) + x;
    assert next == (high * 256 + x / q) * q + x % q;
    QuotientAndRest(high * 256 + x / q, x % q, q);
    QuotientAndRest(high, x / q, 256);
  }

  /** The reverse table: 255 for characters outside the alphabet. */
  method BuildDecodeTable(url: bool) returns (table: seq<int>)
    ensures |table| == 256
    ensures forall c: Symbol :: table[c as int] == if ValueOf(url, c).Some? then ValueOf(url, c).value else 0xFF
  {
    table := seq(256, _ => 0xFF);
    var i := 0;
    while i < 64
      invariant 0 <= i <= 64 && |table| == 256
      invariant forall c: Symbol ::
                  table[c as int] == if ValueOf(url, c).Some? && ValueOf(url, c).value < i
                                     then ValueOf(url, c).value else 0xFF
    {
      SymbolRoundTrip(url, i);
      table := table[SymbolOf(url, i) as int := i];
      i := i + 1;
    }
    forall c: Symbol
      ensures ValueOf(url, c).Some? ==> ValueOf(url, c).value < 64
    {
    }
  }

  /** The decoder's loop; an illegal character gives the empty result. */
  method DecodeImpl(s: seq<Symbol>, url: bool) returns (out: seq<int>)
    ensures out == if Decode(url, s, 0, 0).Some? then Decode(url, s, 0, 0).value else []
  {
    var table := BuildDecodeTable(url);
    out := [];
    var accum, bits := 0, 0;
    var k := 0;
    ghost var whole := Decode(url, s, 0, 0);
    assert s[0..] == s;
    JoinNothing(whole);
    while k < |s|
      invariant 0 <= k <= |s| && 0 <= accum < WRAP && LeftOver(bits)
      invariant whole == Join(out, Decode(url, s[k..], accum % Power(bits), bits))
    {
      var c := s[k];
      assert s[k..][1..] == s[k + 1..] && s[k..][0] == c;
      if c == '=' || c == '\n' || c == '\r' || c == ' ' {
        k := k + 1;
        continue;
      }
      var v := table[c as int];
      if v == 0xFF {
        return [];
      }
      AccumulatorStep(accum, v, bits);
      ghost var low := accum % Power(bits);
      ghost var rest := Decode(url, s[k..], low, bits);
      accum := (accum * 64 + v) % WRAP;
      bits := bits + 6;
      if bits >= 8 {
        bits := bits - 8;
        var b := accum / Power(bits) % 256;
        assert rest == Prepend(b, Decode(url, s[k + 1..], accum % Power(bits), bits));
        JoinPrepend(out, b, Decode(url, s[k + 1..], accum % Power(bits), bits));
        out := out + [b];
      }
      k := k + 1;
    }
  }

  function Join(out: seq<int>, rest: Option<seq<int>>): Option<seq<int>> {
    if rest.Some? then Some(out + rest.value) else None
  }

  lemma JoinNothing(rest: Option<seq<int>>)
    ensures Join([], rest) == rest
  {
    if rest.Some? {
      assert [] + rest.value == rest.value;
    }
  }

  lemma JoinPrepend(out: seq<int>, b: int, rest: Option<seq<int>>)
    ensures Join(out, Prepend(b, rest)) == Join(out + [b], rest)
  {
    if rest.Some? {
      assert out + ([b] + rest.value) == out + [b] + rest.value;
    }
  }

  // ---------------------------------------------------------------- the round trip

  lemma {:induction false} SkipOnly(url: bool, s: seq<Symbol>, low: int, bits: int)
    requires LeftOver(bits) && forall c :: c in s ==> Skipped(c)
    ensures Decode(url, s, low, bits) == Some([])
  {
    if s != [] {
      SkipOnly(url, s[1..], low, bits);
    }
  }

  lemma SymbolNotSkipped(url: bool, v: int)
    requires 0 <= v < 64
    ensures !Skipped(SymbolOf(url, v))
  {
  }

  /** One symbol in front. */
  lemma DecodeSymbol(url: bool, v: int, rest: seq<Symbol>, low: int, bits: int)
    requires 0 <= v < 64 && LeftOver(bits)
    ensures var x := low * 64 + v;
            Decode(url, [SymbolOf(url, v)] + rest, low, bits)
            == if bits == 0 then Decode(url, rest, x, 6)
               else Prepend(x / Power(bits - 2), Decode(url, rest, x % Power(bits - 2), bits - 2))
  {
    SymbolRoundTrip(url, v);
    SymbolNotSkipped(url, v);
    assert ([SymbolOf(url, v)] + rest)[1..] == rest;
  }

  lemma TwoSextets(a: Byte, b: Byte)
    ensures var x := a / 4 * 64 + (a % 4 * 16 + b / 16);
            x / 16 == a && x % 16 == b / 16
  {
    assert a / 4 * 64 + (a % 4 * 16 + b / 16) == a * 16 + b / 16;
    QuotientAndRest(a, b / 16, 16);
  }

  lemma ThirdSextet(b: Byte, c: Byte)
    ensures var x := b / 16 * 64 + (b % 16 * 4 + c / 64);
            x / 4 == b && x % 4 == c / 64
  {
    assert b / 16 * 64 + (b % 16 * 4 + c / 64) == b * 4 + c / 64;
    QuotientAndRest(b, c / 64, 4);
  }

  /** The first two symbols of a group give its first byte. */
  lemma DecodeTwo(url: bool, a: Byte, b: Byte, rest: seq<Symbol>)
    ensures var (v0, v1, _, _) := Sextets(a, b, 0);
            Decode(url, [SymbolOf(url, v0)] + ([SymbolOf(url, v1)] + rest), 0, 0)
            == Prepend(a, Decode(url, rest, b / 16, 4))
  {
    var v0, v1 := a / 4, a % 4 * 16 + b / 16;
    DecodeSymbol(url, v0, [SymbolOf(url, v1)] + rest, 0, 0);
    DecodeSymbol(url, v1, rest, v0, 6);
    TwoSextets(a, b);
  }

  lemma DecodeThird(url: bool, b: Byte, c: Byte, rest: seq<Symbol>)
    ensures Decode(url, [SymbolOf(url, b % 16 * 4 + c / 64)] + rest, b / 16, 4)
            == Prepend(b, Decode(url, rest, c / 64, 2))
  {
    DecodeSymbol(url, b % 16 * 4 + c / 64, rest, b / 16, 4);
    ThirdSextet(b, c);
  }

  lemma DecodeFourth(url: bool, c: Byte, rest: seq<Symbol>)
    ensures Decode(url, [SymbolOf(url, c % 64)] + rest, c / 64, 2) == Prepend(c, Decode(url, rest, 0, 0))
  {
    DecodeSymbol(url, c % 64, rest, c / 64, 2);
  }

  lemma OneByteRoundTrip(url: bool, pad: bool, a: Byte)
    ensures Decode(url, Encode(url, pad, [a]), 0, 0) == Some([a])
  {
    var tail, text := Pad(pad, 2), Encode(url, pad, [a]);
    assert text == [text[0]] + ([text[1]] + tail);
    DecodeTwo(url, a, 0, tail);
    SkipOnly(url, tail, 0, 4);
    assert [a] + [] == [a];
  }

  lemma TwoBytesRoundTrip(url: bool, pad: bool, a: Byte, b: Byte)
    ensures Decode(url, Encode(url, pad, [a, b]), 0, 0) == Some([a, b])
  {
    var tail, text := Pad(pad, 1), Encode(url, pad, [a, b]);
    assert text == [text[0]] + ([text[1]] + ([text[2]] + tail));
    DecodeTwo(url, a, b, [text[2]] + tail);
    DecodeThird(url, b, 0, tail);
    SkipOnly(url, tail, 0, 2);
    assert [a] + ([b] + []) == [a, b];
  }

  /** The four symbols of a full group give its three bytes, and the decoder is back where it started. */
  lemma GroupDecodes(url: bool, a: Byte, b: Byte, c: Byte, tail: seq<Symbol>)
    ensures var (v0, v1, v2, v3) := Sextets(a, b, c);
            Decode(url, [SymbolOf(url, v0), SymbolOf(url, v1), SymbolOf(url, v2), SymbolOf(url, v3)] + tail, 0, 0)
            == Prepend(a, Prepend(b, Prepend(c, Decode(url, tail, 0, 0))))
  {
    var (v0, v1, v2, v3) := Sextets(a, b, c);
    var s0, s1, s2, s3 := SymbolOf(url, v0), SymbolOf(url, v1), SymbolOf(url, v2), SymbolOf(url, v3);
    assert [s0, s1, s2, s3] + tail == [s0] + ([s1] + ([s2] + ([s3] + tail)));
    DecodeTwo(url, a, b, [s2] + ([s3] + tail));
    DecodeThird(url, b, c, [s3] + tail);
    DecodeFourth(url, c, tail);
  }

  /** Decoding an encoded byte string gives it back, in either alphabet, padded or not. */
  lemma {:induction false} RoundTrip(url: bool, pad: bool, data: seq<Byte>)
    ensures Decode(url, Encode(url, pad, data), 0, 0) == Some(data)
  {
    if |data| == 1 {
      assert data == [data[0]];
      OneByteRoundTrip(url, pad, data[0]);
    } else if |data| == 2 {
      assert data == [data[0], data[1]];
      TwoBytesRoundTrip(url, pad, data[0], data[1]);
    } else if |data| >= 3 {
      GroupDecodes(url, data[0], data[1], data[2], Encode(url, pad, data[3..]));
      RoundTrip(url, pad, data[3..]);
      assert [data[0]] + ([data[1]] + ([data[2]] + data[3..])) == data;
    }
  }

  /** What a text becomes when padding, spaces and line breaks are taken out. */
  function Strip(s: seq<Symbol>): seq<Symbol> {
    if s == [] then [] else if Skipped(s[0]) then Strip(s[1..]) else [s[0]] + Strip(s[1..])
  }

  /** Where they stand does not matter. */
  lemma {:induction false} SkippedDoNotMatter(url: bool, s: seq<Symbol>, low: int, bits: int)
    requires LeftOver(bits)
    ensures Decode(url, s, low, bits) == Decode(url, Strip(s), low, bits)
    decreases |s|
  {
    if s != [] {
      if Skipped(s[0]) {
        SkippedDoNotMatter(url, s[1..], low, bits);
      } else {
        assert ([s[0]] + Strip(s[1..]))[1..] == Strip(s[1..]);
        if ValueOf(url, s[0]).Some? {
          var x := low * 64 + ValueOf(url, s[0]).value;
          if bits == 0 {
            SkippedDoNotMatter(url, s[1..], x, 6);
          } else {
            SkippedDoNotMatter(url, s[1..], x % Power(bits - 2), bits - 2);
          }
        }
      }
    }
  }

  /** A text is refused exactly when it holds a character that is neither skipped nor in the alphabet. */
  lemma {:induction false} RefusedExactly(url: bool, s: seq<Symbol>, low: int, bits: int)
    requires LeftOver(bits)
    ensures Decode(url, s, low, bits).None? <==> exists c :: c in s && !Skipped(c) && ValueOf(url, c).None?
    ensures Decode(url, s, low, bits).None? <==> exists c :: c in s && c !in " =\n\r" && ValueOf(url, c).None?
    decreases |s|
  {
    if s != [] {
      assert forall c :: c in s <==> c == s[0] || c in s[1..];
      if Skipped(s[0]) {
        RefusedExactly(url, s[1..], low, bits);
      } else if ValueOf(url, s[0]).Some? {
        var x := low * 64 + ValueOf(url, s[0]).value;
        if bits == 0 {
          RefusedExactly(url, s[1..], x, 6);
        } else {
          RefusedExactly(url, s[1..], x % Power(bits - 2), bits - 2);
        }
      }
    }
  }
}
