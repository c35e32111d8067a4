/** The parsing methods of the STUN client, proved against the format. */
module StunClient {
  import opened Common
  import opened Stun

  // ---------- The padding expression ----------

  // Bitwise AND of two naturals.
  function BitAnd(a: nat, b: nat): nat {
    if a == 0 || b == 0 then 0 else (a % 2) * (b % 2) + 2 * BitAnd(a / 2, b / 2)
  }

  // The number written as k one bits.
  function Ones(k: nat): nat {
    if k == 0 then 0 else 2 * Ones(k - 1) + 1
  }

  const USIZE_BITS: nat := 64

  function BitNot(a: nat): nat
    requires a <= Ones(USIZE_BITS)
  {
    Ones(USIZE_BITS) - a
  }

  lemma {:induction false} AndOnes(a: nat, k: nat)
    requires a <= Ones(k)
    ensures BitAnd(a, Ones(k)) == a
  {
    if a == 0 {
    } else {
      AndOnes(a / 2, k - 1);
    }
  }

  lemma {:induction false} OnesExceed17Bits(k: nat)
    requires 17 <= k
    ensures 0x1FFFF <= Ones(k)
  {
    if k == 17 {
      assert Ones(9) == 0x1FF;
      assert Ones(13) == 0x1FFF;
    } else {
      OnesExceed17Bits(k - 1);
    }
  }

  lemma ClearLowBits(x: nat, k: nat)
    requires x <= Ones(k + 2)
    ensures Ones(k + 2) - 3 == 4 * Ones(k)
    ensures BitAnd(x, 4 * Ones(k)) == x / 4 * 4
  {
    var ones := Ones(k);
    AndOnes(x / 4, k);
    assert (x / 2) / 2 == x / 4;
    assert BitAnd(x / 2, 2 * ones) == 2 * BitAnd(x / 4, ones);
    assert BitAnd(x, 4 * ones) == 2 * BitAnd(x / 2, 2 * ones);
  }

  // Clearing the two low bits of len + 3 rounds len up to a multiple of four, for every
  // length that leaves room for the addition.
  lemma PaddingExpression(len: nat)
    requires 3 <= len + 3 <= Ones(USIZE_BITS)
    ensures BitAnd(len + 3, BitNot(3)) == RoundUp4(len)
  {
    hide Ones, BitAnd;
    ClearLowBits(len + 3, USIZE_BITS - 2);
  }

  // ---------- The parser ----------

  lemma {:induction false} AddressesConcat(a: seq<Attribute>, b: seq<Attribute>)
    ensures Addresses(a + b) == Addresses(a) + Addresses(b)
  {
    if a == [] {
      assert a + b == b;
    } else {
      assert (a + b)[1..] == a[1..] + b;
      AddressesConcat(a[1..], b);
    }
  }

  method ParseMappedAddress(value: seq<byte>, typ: nat) returns (result: Option<Address>)
    ensures result == AddressIn(typ, value)
    ensures result.Some? <==> |value| >= 8 && value[1] == 0x01
    ensures result.Some? && typ == ATTR_MAPPED_ADDRESS ==> result.value.ip == value[4..8]
  {
    if |value| < 8 {
      return None;
    }
    var family := value[1];
    var port := U16(value[2], value[3]);
    var ip := value[4..8];
    if typ == ATTR_XOR_MAPPED_ADDRESS {
      var ipBytes := new byte[4];
      for i := 0 to 4
        invariant forall j :: 0 <= j < i ==> ipBytes[j] == XorBytes(value[4 + j], MAGIC_COOKIE[j])
      {
        ipBytes[i] := XorBytes(value[4 + i], MAGIC_COOKIE[i]);
      }
      ip := ipBytes[..];
      assert ip == Unmask(value[4..8]);
    }
    if family != 0x01 {
      return None;
    }
    result := Some(Address(ip, port));
  }

  method PaddedLength(len: nat) returns (padded: nat)
    requires len < 0x10000
    ensures padded == RoundUp4(len)
  {
    OnesExceed17Bits(USIZE_BITS);
    PaddingExpression(len);
    padded := BitAnd(len + 3, BitNot(3));
  }

  // The attribute that stands at `pos` in the response, ending at `next`.
  ghost predicate StandsAt(response: seq<byte>, pos: nat, a: Attribute, next: nat) {
    && pos + 4 <= next <= |response|
    && a.typ == U16(response[pos], response[pos + 1])
    && |a.value| == U16(response[pos + 2], response[pos + 3])
    && next == pos + 4 + RoundUp4(|a.value|)
    && a.value == response[pos + 4..pos + 4 + |a.value|]
    && a.padding == response[pos + 4 + |a.value|..next]
  }

  // What the loop knows when it stands at `pos`: the attributes before it, none of them an
  // ERROR-CODE, and the last address among them.
  ghost predicate ReadUpTo(response: seq<byte>, pos: nat, seen: seq<Attribute>, found: Option<Address>) {
    && HEADER_LEN <= pos <= |response|
    && (var msgLen := U16(response[2], response[3]);
        Decode(response[HEADER_LEN..], msgLen) == seen + Decode(response[pos..], HEADER_LEN + msgLen - pos))
    && (forall a :: a in seen ==> a.typ != ATTR_ERROR_CODE)
    && found == LastAddress(seen)
  }

  lemma StandingIsFirst(response: seq<byte>, pos: nat, a: Attribute, next: nat)
    requires StandsAt(response, pos, a, next)
    ensures FirstEnd(response[pos..]) == next - pos && First(response[pos..]) == a
    ensures response[pos..][next - pos..] == response[next..]
  {
    hide U16, RoundUp4;
    var rest := response[pos..];
    assert rest[4..4 + |a.value|] == a.value;
    assert rest[4 + |a.value|..next - pos] == a.padding;
  }

  lemma DecodeStep(response: seq<byte>, pos: nat, budget: int, a: Attribute, next: nat)
    requires StandsAt(response, pos, a, next) && 0 < budget
    ensures Decode(response[pos..], budget) == [a] + Decode(response[next..], budget - (next - pos))
  {
    StandingIsFirst(response, pos, a, next);
    hide First, FirstEnd, U16, RoundUp4;
  }

  function LastAddress(attrs: seq<Attribute>): Option<Address> {
    if Addresses(attrs) == [] then None else Some(Addresses(attrs)[|Addresses(attrs)| - 1])
  }

  lemma LastAddressOfOneMore(seen: seq<Attribute>, a: Attribute)
    ensures LastAddress(seen + [a]) ==
            if IsAddressType(a.typ) && AddressIn(a.typ, a.value).Some?
              then AddressIn(a.typ, a.value) else LastAddress(seen)
  {
    AddressesConcat(seen, [a]);
    assert Addresses([a]) ==
      if IsAddressType(a.typ) && AddressIn(a.typ, a.value).Some? then [AddressIn(a.typ, a.value).value] else [];
  }

  lemma ReadNext(response: seq<byte>, pos: nat, seen: seq<Attribute>, found: Option<Address>, a: Attribute, next: nat)
    requires ReadUpTo(response, pos, seen, found) && StandsAt(response, pos, a, next)
    requires pos < HEADER_LEN + U16(response[2], response[3])
    ensures a in Decode(response[HEADER_LEN..], U16(response[2], response[3]))
    ensures a.typ != ATTR_ERROR_CODE ==> ReadUpTo(response, next, seen + [a], LastAddress(seen + [a]))
  {
    hide Decode;
    var msgLen := U16(response[2], response[3]);
    var budget := HEADER_LEN + msgLen - pos;
    var all, tail := Decode(response[HEADER_LEN..], msgLen), Decode(response[next..], budget - (next - pos));
    assert all == seen + ([a] + tail) by {
      DecodeStep(response, pos, budget, a, next);
    }
    assert all == (seen + [a]) + tail;
    assert a == all[|seen|];
  }

  predicate HeaderOk(response: seq<byte>) {
    |response| >= HEADER_LEN && response[4..8] == MAGIC_COOKIE && U16(response[0], response[1]) == BINDING_RESPONSE
  }

  lemma ReadStart(response: seq<byte>)
    requires HeaderOk(response)
    ensures ReadUpTo(response, HEADER_LEN, [], None)
  {
    var msgLen := U16(response[2], response[3]);
    assert [] + Decode(response[HEADER_LEN..], msgLen) == Decode(response[HEADER_LEN..], msgLen);
  }

  lemma LastAddressOfNone()
    ensures LastAddress([]) == None
  {
  }

  // An ERROR-CODE anywhere in the list decides the outcome.
  lemma ErrorAborts(response: seq<byte>, a: Attribute)
    requires HeaderOk(response) && a in Decode(response[HEADER_LEN..], U16(response[2], response[3]))
    requires a.typ == ATTR_ERROR_CODE
    ensures Parse(response) == Failed(ErrorCodePresent)
  {
    hide Decode, U16;
  }

  lemma ReadDone(response: seq<byte>, pos: nat, seen: seq<Attribute>, found: Option<Address>)
    requires HeaderOk(response) && ReadUpTo(response, pos, seen, found)
    requires Stuck(response[pos..], HEADER_LEN + U16(response[2], response[3]) - pos)
    ensures Parse(response) == if found.Some? then Found(found.value) else Failed(NoMappedAddress)
  {
    assert Decode(response[HEADER_LEN..], U16(response[2], response[3])) == seen;
  }

  // Total on every byte sequence, and equal to the meaning of the attributes it holds.
  method ParseStunResponse(response: seq<byte>) returns (result: Outcome)
    ensures result == Parse(response)
  {
    hide Decode, Addresses, LastAddress, RoundUp4, ReadUpTo, Meaning, AddressIn, Unmask, U16;
    if |response| < 20 {
      return Failed(TooShort);
    }
    var msgType := U16(response[0], response[1]);
    var msgLen := U16(response[2], response[3]);
    if response[4..8] != MAGIC_COOKIE {
      return Failed(BadCookie);
    }
    if msgType != BINDING_RESPONSE {
      return Failed(BadType);
    }
    var pos := 20;
    var found: Option<Address> := None;
    ghost var seen: seq<Attribute>, at := [], 20;
    ReadStart(response);
    LastAddressOfNone();
    while pos < 20 + msgLen
      invariant at == pos && 20 <= pos <= |response|
      invariant found == LastAddress(seen) && ReadUpTo(response, at, seen, found)
      decreases |response| - pos
    {
      if pos + 4 > |response| {
        break;
      }
      var attrType := U16(response[pos], response[pos + 1]);
      var attrLen := U16(response[pos + 2], response[pos + 3]);
      pos := pos + 4;
      var attrValueLen := PaddedLength(attrLen);
      if pos + attrValueLen > |response| {
        break;
      }
      var attrValue := response[pos..pos + attrLen];
      ghost var attribute := Attribute(attrType, attrValue, response[pos + attrLen..pos + attrValueLen]);
      ReadNext(response, at, seen, found, attribute, pos + attrValueLen);
      LastAddressOfOneMore(seen, attribute);
      if attrType == ATTR_MAPPED_ADDRESS || attrType == ATTR_XOR_MAPPED_ADDRESS {
        var parsed := ParseMappedAddress(attrValue, attrType);
        if parsed.Some? {
          found := parsed;
        }
      } else if attrType == ATTR_ERROR_CODE {
        ErrorAborts(response, attribute);
        return Failed(ErrorCodePresent);
      }
      pos := pos + attrValueLen;
      seen, at := seen + [attribute], pos;
    }
    ReadDone(response, at, seen, found);
    result := if found.Some? then Found(found.value) else Failed(NoMappedAddress);
  }
}
