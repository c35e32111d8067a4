/** The parser's verdicts stated on the bytes themselves: which headers, types, families and
    lengths count, and in which byte order. */
module StunBytes {
  import opened Common
  import opened Stun
  import opened StunClient
  import opened StunFormat

  const COOKIE: seq<byte> := [0x21, 0x12, 0xA4, 0x42]

  // ---------- One address value ----------

  predicate Bit(n: nat, k: nat) {
    if k == 0 then n % 2 == 1 else Bit(n / 2, k - 1)
  }

  // The model's exclusive or, bit by bit.
  lemma {:induction false} XorBitwise(a: nat, b: nat, k: nat)
    ensures Bit(BitXor(a, b), k) <==> Bit(a, k) != Bit(b, k)
  {
    if a == 0 && b == 0 {
      ZeroHasNoBits(k);
    } else if k > 0 {
      XorBitwise(a / 2, b / 2, k - 1);
    }
  }

  lemma {:induction false} ZeroHasNoBits(k: nat)
    ensures !Bit(0, k)
  {
    if k == 0 {
    } else {
      ZeroHasNoBits(k - 1);
    }
  }

  function BigEndian(hi: byte, lo: byte): nat {
    256 * hi + lo
  }

  // The address these value bytes spell: the port big-endian, the four octets of the field,
  // each differing from it by the cookie's octet when the type is XOR-MAPPED-ADDRESS.
  ghost predicate Spells(typ: nat, value: seq<byte>, address: Address)
    requires |value| >= 8
  {
    && address.port == BigEndian(value[2], value[3]) && |address.ip| == 4
    && (typ != 0x0020 ==> address.ip == value[4..8])
    && (typ == 0x0020 ==> forall i :: 0 <= i < 4 ==> OctetXor(address.ip[i], value[4 + i], COOKIE[i]))
  }

  ghost predicate OctetXor(octet: byte, field: byte, mask: byte) {
    forall k: nat :: Bit(octet, k) <==> Bit(field, k) != Bit(mask, k)
  }

  // A value decodes exactly when it holds eight bytes and its family byte is 1, for IPv4.
  lemma DecodesExactly(typ: nat, value: seq<byte>)
    ensures AddressIn(typ, value).Some? <==> |value| >= 8 && value[1] == 1
    ensures AddressIn(typ, value).Some? ==> Spells(typ, value, AddressIn(typ, value).value)
  {
    if AddressIn(typ, value).Some? && typ == 0x0020 {
      var ip := AddressIn(typ, value).value.ip;
      forall i | 0 <= i < 4
        ensures OctetXor(ip[i], value[4 + i], COOKIE[i])
      {
        forall k: nat
          ensures Bit(ip[i], k) <==> Bit(value[4 + i], k) != Bit(COOKIE[i], k)
        {
          XorBitwise(value[4 + i], COOKIE[i], k);
        }
      }
    }
  }

  // ---------- Headers ----------

  // Every response is judged first by its length, then by its cookie, then by its type.
  lemma HeaderVerdict(response: seq<byte>)
    ensures Parse(response) == Failed(TooShort) <==> |response| < 20
    ensures Parse(response) == Failed(BadCookie) <==> |response| >= 20 && response[4..8] != COOKIE
    ensures Parse(response) == Failed(BadType) <==>
            |response| >= 20 && response[4..8] == COOKIE && response[..2] != [0x01, 0x01]
  {
    if |response| >= 20 {
      assert response[..2] == [response[0], response[1]];
    }
  }

  // ---------- Attribute lists ----------

  predicate CarriesIPv4(a: Attribute) {
    (a.typ == 0x0001 || a.typ == 0x0020) && |a.value| >= 8 && a.value[1] == 1
  }

  predicate HasErrorCode(attrs: seq<Attribute>) {
    exists a :: a in attrs && a.typ == 0x0009
  }

  lemma DecodableIsIPv4(a: Attribute)
    ensures Decodable(a) <==> CarriesIPv4(a)
  {
    DecodesExactly(a.typ, a.value);
  }

  // The three outcomes of a list, by the bytes of its attributes.
  lemma OutcomeByBytes(attrs: seq<Attribute>)
    ensures Meaning(attrs) == Failed(ErrorCodePresent) <==> HasErrorCode(attrs)
    ensures Meaning(attrs) == Failed(NoMappedAddress) <==>
            !HasErrorCode(attrs) && forall a :: a in attrs ==> !CarriesIPv4(a)
    ensures Meaning(attrs).Found? <==> !HasErrorCode(attrs) && exists a :: a in attrs && CarriesIPv4(a)
  {
    var i := LastAddressIsDecided(attrs);
    if Addresses(attrs) != [] {
      DecodableIsIPv4(attrs[i]);
      assert attrs[i] in attrs && CarriesIPv4(attrs[i]);
    } else {
      forall a | a in attrs
        ensures !CarriesIPv4(a)
      {
        DecodableIsIPv4(a);
      }
    }
  }

  // Address attributes that are IPv6 or too short, and attributes of other types, change
  // nothing after an answer.
  lemma OthersLeaveTheAnswer(attrs: seq<Attribute>, more: seq<Attribute>)
    requires forall a :: a in more ==> !CarriesIPv4(a) && a.typ != 0x0009
    ensures Meaning(attrs + more) == Meaning(attrs)
  {
    AddressesConcat(attrs, more);
    NoAddresses(more);
    assert HasErrorCode(attrs + more) <==> HasErrorCode(attrs) by {
      if HasErrorCode(attrs) {
        var a :| a in attrs && a.typ == 0x0009;
        assert a in attrs + more;
      }
    }
  }

  lemma {:induction false} NoAddresses(attrs: seq<Attribute>)
    requires forall a :: a in attrs ==> !CarriesIPv4(a)
    ensures Addresses(attrs) == []
  {
    if attrs == [] {
    } else {
      DecodableIsIPv4(attrs[0]);
      NoAddresses(attrs[1..]);
    }
  }

  // ---------- Whole responses ----------

  // A response none of whose attributes carries an IPv4 address or an error fails for want of
  // an address, and such attributes after others leave what those gave.
  lemma NonIPv4Response(
    attrs: seq<Attribute>, more: seq<Attribute>, transactionId: seq<byte>, trailing: seq<byte>)
    requires AllValid(attrs) && AllValid(more) && |transactionId| == 12
    requires |Encode(attrs + more)| < 0x10000 && |Encode(attrs)| < 0x10000
    requires forall a :: a in more ==> !CarriesIPv4(a) && a.typ != 0x0009
    ensures Parse(Message(attrs + more, transactionId) + trailing) == Parse(Message(attrs, transactionId) + trailing)
    ensures attrs == [] ==> Parse(Message(attrs + more, transactionId) + trailing) == Failed(NoMappedAddress)
  {
    hide Message, Parse;
    SerializedMessageRoundTrips(attrs + more, transactionId, trailing);
    SerializedMessageRoundTrips(attrs, transactionId, trailing);
    OthersLeaveTheAnswer(attrs, more);
  }

  // Every response that is one attribute with an eight-byte value, byte for byte.
  lemma OneAttributeResponse(hi: byte, lo: byte, value: seq<byte>, transactionId: seq<byte>)
    requires |value| == 8 && |transactionId| == 12
    ensures var outcome := Parse([0x01, 0x01, 0, 12] + COOKIE + transactionId + [hi, lo, 0, 8] + value);
            if hi == 0 && lo == 0x09 then outcome == Failed(ErrorCodePresent)
            else if hi == 0 && (lo == 0x01 || lo == 0x20) && value[1] == 1 then
              outcome.Found? && Spells(lo, value, outcome.address)
            else outcome == Failed(NoMappedAddress)
  {
    hide Parse, Spells, Message;
    var a := Attribute(BigEndian(hi, lo), value, []);
    BytesOfOne(hi, lo, value, transactionId);
    OneAttribute(a, transactionId);
  }

  lemma BytesOfOne(hi: byte, lo: byte, value: seq<byte>, transactionId: seq<byte>)
    requires |value| == 8 && |transactionId| == 12
    ensures var a := Attribute(BigEndian(hi, lo), value, []);
            && a.Valid() && AllValid([a]) && |Encode([a])| == 12
            && Message([a], transactionId) + []
               == [0x01, 0x01, 0, 12] + COOKIE + transactionId + [hi, lo, 0, 8] + value
  {
    var a := Attribute(BigEndian(hi, lo), value, []);
    assert Bytes16(a.typ) == [hi, lo] && Bytes16(8) == [0, 8] && Bytes16(12) == [0, 12];
    assert EncodeAttribute(a) == [hi, lo, 0, 8] + value;
    assert [a][1..] == [];
    assert Encode([a]) == EncodeAttribute(a);
    hide Encode, EncodeAttribute, Bytes16, BigEndian;
    assert Message([a], transactionId) == [0x01, 0x01] + [0, 12] + COOKIE + transactionId + Encode([a]);
  }

  lemma OneAttribute(a: Attribute, transactionId: seq<byte>)
    requires a.Valid() && |a.value| == 8 && |transactionId| == 12
    ensures AllValid([a]) && |Encode([a])| == 12
    ensures var outcome := Parse(Message([a], transactionId) + []);
            if a.typ == 0x0009 then outcome == Failed(ErrorCodePresent)
            else if CarriesIPv4(a) then outcome.Found? && Spells(a.typ, a.value, outcome.address)
            else outcome == Failed(NoMappedAddress)
  {
    assert [a][1..] == [];
    assert Encode([a]) == EncodeAttribute(a);
    hide Parse, Message, EncodeAttribute, Encode, Meaning, AddressIn, Spells;
    SerializedMessageRoundTrips([a], transactionId, []);
    OutcomeByBytes([a]);
    DecodesExactly(a.typ, a.value);
    assert [a][0] == a;
    if CarriesIPv4(a) && a.typ != 0x0009 {
      DecodableIsIPv4(a);
      assert DecidedAt([a], 0, AddressIn(a.typ, a.value).value);
      LastDecodableWins([a], AddressIn(a.typ, a.value).value);
    }
  }

  // ---------- The announced length ----------

  // How many attributes start inside the first `budget` bytes of the body.
  function StartInside(attrs: seq<Attribute>, budget: int): (n: nat)
    requires AllValid(attrs)
    ensures n <= |attrs|
  {
    if attrs == [] || budget <= 0 then 0
    else 1 + StartInside(attrs[1..], budget - |EncodeAttribute(attrs[0])|)
  }

  lemma {:induction false} StartInsideExactly(attrs: seq<Attribute>, budget: int)
    requires AllValid(attrs)
    ensures var n := StartInside(attrs, budget);
            && (forall i :: 0 <= i < n ==> |Encode(attrs[..i])| < budget)
            && (n < |attrs| ==> budget <= |Encode(attrs[..n])|)
    decreases |attrs|
  {
    hide EncodeAttribute;
    var n := StartInside(attrs, budget);
    if attrs == [] || budget <= 0 {
      assert attrs[..0] == [];
    } else {
      StartInsideExactly(attrs[1..], budget - |EncodeAttribute(attrs[0])|);
      assert Encode(attrs[..0]) == [];
      forall i | 0 < i <= n
        ensures |Encode(attrs[..i])| == |EncodeAttribute(attrs[0])| + |Encode(attrs[1..][..i - 1])|
      {
        EncodeCons(attrs, i - 1);
      }
    }
  }

  // An announced length inside the attributes ends the reading at the first attribute that
  // starts past it; one that starts inside and runs past it is still read whole.
  lemma AnnouncedLength(attrs: seq<Attribute>, announced: nat, transactionId: seq<byte>, trailing: seq<byte>)
    requires AllValid(attrs) && announced <= |Encode(attrs)| && announced < 0x10000 && |transactionId| == 12
    ensures Parse([0x01, 0x01, announced / 256, announced % 256] + COOKIE + transactionId + Encode(attrs) + trailing)
         == Meaning(attrs[..StartInside(attrs, announced)])
  {
    hide Encode, Decode, Meaning, FirstEnd, StartInside;
    var m := [0x01, 0x01, announced / 256, announced % 256] + COOKIE + transactionId + Encode(attrs) + trailing;
    var n := StartInside(attrs, announced);
    var kept, body := attrs[..n], Encode(attrs) + trailing;
    assert m[4..8] == COOKIE && m[HEADER_LEN..] == body;
    StartInsideExactly(attrs, announced);
    EncodePrefix(attrs, n);
    assert Encode(kept) <= body;
    forall i | 0 <= i < |kept|
      ensures |Encode(kept[..i])| < announced
    {
      assert kept[..i] == attrs[..i];
    }
    assert n == |attrs| ==> kept == attrs;
    ReadsIsDecode(body, announced, kept);
  }
}
