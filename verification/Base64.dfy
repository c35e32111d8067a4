/** Base64 with padding, section 4 of RFC 4648: how a response body crosses from the
    dispatcher to the pending-request table. */
module Base64 {
  import opened Common

  type sextet = x: int | 0 <= x < 64

  // Table 1 of RFC 4648.
  function Symbol(n: sextet): char {
    if n < 26 then ('A' as int + n) as char
    else if n < 52 then ('a' as int + n - 26) as char
    else if n < 62 then ('0' as int + n - 52) as char
    else if n == 62 then '+' else '/'
  }

  function Value(c: char): Option<sextet> {
    if 'A' <= c <= 'Z' then Some(c as int - 'A' as int)
    else if 'a' <= c <= 'z' then Some(c as int - 'a' as int + 26)
    else if '0' <= c <= '9' then Some(c as int - '0' as int + 52)
    else if c == '+' then Some(62)
    else if c == '/' then Some(63)
    else None
  }

  lemma SymbolValue(n: sextet)
    ensures Value(Symbol(n)) == Some(n)
  {
  }

  // Three bytes are four sextets.
  function First(a: byte): sextet { a / 4 }
  function Second(a: byte, b: byte): sextet { a % 4 * 16 + b / 16 }
  function Third(b: byte, c: byte): sextet { b % 16 * 4 + c / 64 }
  function Fourth(c: byte): sextet { c % 64 }

  function Encode(body: seq<byte>): string {
    if |body| == 0 then ""
    else if |body| == 1 then [Symbol(First(body[0])), Symbol(Second(body[0], 0)), '=', '=']
    else if |body| == 2 then [Symbol(First(body[0])), Symbol(Second(body[0], body[1])), Symbol(Third(body[1], 0)), '=']
    else [Symbol(First(body[0])), Symbol(Second(body[0], body[1])),
          Symbol(Third(body[1], body[2])), Symbol(Fourth(body[2]))]
         + Encode(body[3..])
  }

  // One group of four symbols; padding may stand only in the last group, and the bits it
  // leaves over must be zero.
  function DecodeGroup(group: string, last: bool): Option<seq<byte>>
    requires |group| == 4
  {
    var v0, v1, v2, v3 := Value(group[0]), Value(group[1]), Value(group[2]), Value(group[3]);
    if v0.None? || v1.None? then None
    else if v2.Some? && v3.Some? then
      Some([v0.value * 4 + v1.value / 16, v1.value % 16 * 16 + v2.value / 4, v2.value % 4 * 64 + v3.value])
    else if !last || group[3] != '=' then None
    else if v2.Some? then
      if v2.value % 4 != 0 then None else Some([v0.value * 4 + v1.value / 16, v1.value % 16 * 16 + v2.value / 4])
    else if group[2] != '=' || v1.value % 16 != 0 then None
    else Some([v0.value * 4 + v1.value / 16])
  }

  function Decode(text: string): Option<seq<byte>> {
    if |text| == 0 then Some([])
    else if |text| < 4 then None
    else
      var head, rest := DecodeGroup(text[..4], |text| == 4), Decode(text[4..]);
      if head.Some? && rest.Some? then Some(head.value + rest.value) else None
  }

  // The sextets of three bytes give the bytes back, and leave no bits over in a short group.
  lemma Rejoin(a: byte, b: byte, c: byte)
    ensures First(a) * 4 + Second(a, b) / 16 == a
    ensures Second(a, b) % 16 * 16 + Third(b, c) / 4 == b
    ensures Third(b, c) % 4 * 64 + Fourth(c) == c
    ensures b == 0 ==> Second(a, b) % 16 == 0
    ensures c == 0 ==> Third(b, c) % 4 == 0
  {
  }

  lemma FullGroup(a: byte, b: byte, c: byte, last: bool)
    ensures DecodeGroup([Symbol(First(a)), Symbol(Second(a, b)), Symbol(Third(b, c)), Symbol(Fourth(c))], last)
        == Some([a, b, c])
  {
    hide First, Second, Third, Fourth, Symbol, Value;
    SymbolValue(First(a));
    SymbolValue(Second(a, b));
    SymbolValue(Third(b, c));
    SymbolValue(Fourth(c));
    Rejoin(a, b, c);
  }

  lemma OneByteGroup(a: byte)
    ensures DecodeGroup([Symbol(First(a)), Symbol(Second(a, 0)), '=', '='], true) == Some([a])
  {
    assert Value('=').None?;
    hide First, Second, Third, Symbol, Value;
    SymbolValue(First(a));
    SymbolValue(Second(a, 0));
    Rejoin(a, 0, 0);
  }

  lemma TwoByteGroup(a: byte, b: byte)
    ensures DecodeGroup([Symbol(First(a)), Symbol(Second(a, b)), Symbol(Third(b, 0)), '='], true) == Some([a, b])
  {
    assert Value('=').None?;
    hide First, Second, Third, Symbol, Value;
    SymbolValue(First(a));
    SymbolValue(Second(a, b));
    SymbolValue(Third(b, 0));
    Rejoin(a, b, 0);
  }

  // Decoding inverts encoding on every byte string.
  lemma {:induction false} DecodeEncode(body: seq<byte>)
    ensures Decode(Encode(body)) == Some(body)
    decreases |body|
  {
    hide DecodeGroup, Symbol;
    var text := Encode(body);
    if |body| >= 3 {
      DecodeEncode(body[3..]);
      assert text[4..] == Encode(body[3..]);
      FullGroup(body[0], body[1], body[2], |text| == 4);
      assert text[..4] == [Symbol(First(body[0])), Symbol(Second(body[0], body[1])),
                Symbol(Third(body[1], body[2])), Symbol(Fourth(body[2]))];
      assert body == [body[0], body[1], body[2]] + body[3..];
    } else if |body| > 0 {
      if |body| == 1 {
        OneByteGroup(body[0]);
        assert body == [body[0]];
      } else {
        TwoByteGroup(body[0], body[1]);
        assert body == [body[0], body[1]];
      }
      assert text[..4] == text && text[4..] == "";
      assert Decode(text[4..]) == Some([]);
      assert body + [] == body;
    }
  }

  // ---------- Against the RFC's own words ----------

  const UPPER: string := "ABCDEFGHIJKLMNOPQRSTUVWXYZ"
  const LOWER: string := "abcdefghijklmnopqrstuvwxyz"
  const DIGITS: string := "0123456789"
  const ALPHABET: string := UPPER + LOWER + DIGITS + "+/"

  lemma SymbolIsTheAlphabets(n: sextet)
    ensures |ALPHABET| == 64 && Symbol(n) == ALPHABET[n]
  {
    if n < 26 {
      assert ALPHABET[n] == UPPER[n];
    } else if n < 52 {
      assert ALPHABET[n] == LOWER[n - 26];
    } else if n < 62 {
      assert ALPHABET[n] == DIGITS[n - 52];
    } else {
      assert ALPHABET[n] == "+/"[n - 62];
    }
  }

  // The 24 bits of three octets, most significant first.
  function Bits24(a: nat, b: nat, c: nat): nat {
    65536 * a + 256 * b + c
  }

  function AlphabetAt(n: nat): char {
    if n < |ALPHABET| then ALPHABET[n] else '='
  }

  // Three octets are one 24-bit number, and its four sextets are the symbols; a short last
  // group is filled up with zero bits and marked by '='.
  lemma EncodesBits(body: seq<byte>)
    requires |body| > 0
    ensures var n := Bits24(body[0], if |body| > 1 then body[1] else 0, if |body| > 2 then body[2] else 0);
            Encode(body) ==
              [AlphabetAt(n / 262144), AlphabetAt(n / 4096 % 64),
               if |body| > 1 then AlphabetAt(n / 64 % 64) else '=', if |body| > 2 then AlphabetAt(n % 64) else '=']
              + Encode(if |body| > 2 then body[3..] else [])
  {
    var a: byte := body[0];
    var b: byte, c: byte := if |body| > 1 then body[1] else 0, if |body| > 2 then body[2] else 0;
    SextetsOf(a, b, c);
    SymbolIsTheAlphabets(First(a));
    SymbolIsTheAlphabets(Second(a, b));
    SymbolIsTheAlphabets(Third(b, c));
    SymbolIsTheAlphabets(Fourth(c));
    hide First, Second, Third, Fourth, Symbol, Bits24;
  }

  lemma Quotient(n: nat, d: nat, q: nat, r: nat)
    requires 0 < d && n == d * q + r && r < d
    ensures n / d == q && n % d == r
  {
    var extra := n / d - q;
    assert d * (n / d) + n % d == n;
    assert d * extra == d * (n / d) - d * q;
    MultipleBelow(d, extra, r - n % d);
  }

  lemma MultipleBelow(d: nat, k: int, x: int)
    requires x < d && -x < d && d * k == x
    ensures k == 0
  {
    if k >= 1 {
      MultipleAtLeast(d, k);
    } else if k <= -1 {
      MultipleAtLeast(d, -k);
    }
  }

  lemma MultipleAtLeast(d: nat, k: int)
    requires k >= 1
    ensures d * k >= d
  {
  }

  lemma SextetsOf(a: byte, b: byte, c: byte)
    ensures var n := Bits24(a, b, c);
            && First(a) == n / 262144 && Second(a, b) == n / 4096 % 64
            && Third(b, c) == n / 64 % 64 && Fourth(c) == n % 64
  {
    var n := Bits24(a, b, c);
    Quotient(n, 262144, a / 4, 65536 * (a % 4) + 256 * b + c);
    Quotient(n, 4096, 16 * a + b / 16, 256 * (b % 16) + c);
    Quotient(16 * a + b / 16, 64, a / 4, a % 4 * 16 + b / 16);
    Quotient(n, 64, 1024 * a + 4 * b + c / 64, c % 64);
    Quotient(1024 * a + 4 * b + c / 64, 64, 16 * a + b / 16, b % 16 * 4 + c / 64);
  }

  // ---------- What does not decode ----------

  lemma ValueSymbol(c: char)
    ensures Value(c).Some? ==> Symbol(Value(c).value) == c
  {
  }

  // Sextets whose leftover bits are zero are those of the bytes they give.
  lemma Resplit(v0: sextet, v1: sextet, v2: sextet, v3: sextet)
    ensures var a: byte, b: byte, c: byte := v0 * 4 + v1 / 16, v1 % 16 * 16 + v2 / 4, v2 % 4 * 64 + v3;
            && First(a) == v0 && Second(a, b) == v1 && Third(b, c) == v2 && Fourth(c) == v3
            && (v2 % 4 == 0 ==> Third(b, 0) == v2) && (v1 % 16 == 0 ==> Second(a, 0) == v1)
  {
  }

  lemma GroupIsEncoded(group: string, last: bool)
    requires |group| == 4 && DecodeGroup(group, last).Some?
    ensures var bytes := DecodeGroup(group, last).value;
            && 1 <= |bytes| <= 3 && (!last ==> |bytes| == 3) && Encode(bytes) == group
  {
    ValueSymbol(group[0]);
    ValueSymbol(group[1]);
    ValueSymbol(group[2]);
    ValueSymbol(group[3]);
    var v0, v1, v2, v3 := Value(group[0]), Value(group[1]), Value(group[2]), Value(group[3]);
    Resplit(v0.value, v1.value, if v2.Some? then v2.value else 0, if v3.Some? then v3.value else 0);
    assert group == [group[0], group[1], group[2], group[3]];
    hide First, Second, Third, Fourth, Symbol, Value;
    if v2.Some? && v3.Some? {
      var bytes := DecodeGroup(group, last).value;
      assert bytes[3..] == [];
    }
  }

  // A text decodes exactly when it is the encoding of some bytes, and to those: other symbols,
  // missing or misplaced padding and leftover bits are all refused.
  lemma {:induction false} DecodesOnlyEncodings(text: string)
    ensures Decode(text).Some? ==> Encode(Decode(text).value) == text
    decreases |text|
  {
    hide DecodeGroup;
    if |text| == 0 {
    } else if Decode(text).Some? {
      var head, rest := DecodeGroup(text[..4], |text| == 4).value, Decode(text[4..]).value;
      GroupIsEncoded(text[..4], |text| == 4);
      DecodesOnlyEncodings(text[4..]);
      assert text == text[..4] + text[4..];
      if |text| == 4 {
        assert text[4..] == "" && head + rest == head;
      } else {
        assert (head + rest)[3..] == rest;
        assert head[3..] == [];
      }
    }
  }

  lemma DecodesExactly(text: string, body: seq<byte>)
    ensures Decode(text) == Some(body) <==> text == Encode(body)
  {
    DecodesOnlyEncodings(text);
    DecodeEncode(body);
  }
}
