/** The STUN binding-response parser, against the message format of sections 6 and 15 of
    RFC 5389. */
module Stun {
  import opened Common

  const BINDING_RESPONSE: nat := 0x0101
  const ATTR_MAPPED_ADDRESS: nat := 0x0001
  const ATTR_XOR_MAPPED_ADDRESS: nat := 0x0020
  const ATTR_ERROR_CODE: nat := 0x0009
  const MAGIC_COOKIE: seq<byte> := [0x21, 0x12, 0xA4, 0x42]
  const HEADER_LEN: nat := 20

  // u16::from_be_bytes
  function U16(hi: byte, lo: byte): (n: nat)
    ensures n < 0x10000
  {
    hi * 256 + lo
  }

  // u16::to_be_bytes
  function Bytes16(n: nat): (b: seq<byte>)
    requires n < 0x10000
    ensures |b| == 2 && U16(b[0], b[1]) == n
  {
    [n / 256, n % 256]
  }

  // Exclusive or, bit by bit.
  function BitXor(a: nat, b: nat): nat {
    if a == 0 && b == 0 then 0 else (if a % 2 == b % 2 then 0 else 1) + 2 * BitXor(a / 2, b / 2)
  }

  function XorBytes(a: byte, b: byte): byte {
    XorBound(a, b, 256);
    BitXor(a, b)
  }

  predicate IsPowerOfTwo(m: nat) {
    m == 1 || (m > 1 && m % 2 == 0 && IsPowerOfTwo(m / 2))
  }

  lemma {:induction false} XorBound(a: nat, b: nat, m: nat)
    requires IsPowerOfTwo(m) && a < m && b < m
    ensures BitXor(a, b) < m
  {
    if m == 1 {
    } else {
      XorBound(a / 2, b / 2, m / 2);
    }
  }

  // ---------- Attributes as values ----------

  // An attribute on the wire: its padding bytes are any bytes that fill the last word.
  datatype Attribute = Attribute(typ: nat, value: seq<byte>, padding: seq<byte>) {
    predicate Valid() {
      && typ < 0x10000 && |value| < 0x10000
      && |value| + |padding| == RoundUp4(|value|)
    }
  }

  function RoundUp4(n: nat): (r: nat)
    ensures n <= r < n + 4 && r % 4 == 0
  {
    (n + 3) / 4 * 4
  }

  function EncodeAttribute(a: Attribute): (b: seq<byte>)
    requires a.Valid()
    ensures |b| == 4 + RoundUp4(|a.value|)
  {
    Bytes16(a.typ) + Bytes16(|a.value|) + a.value + a.padding
  }

  predicate AllValid(attrs: seq<Attribute>) {
    forall a :: a in attrs ==> a.Valid()
  }

  function Encode(attrs: seq<Attribute>): seq<byte>
    requires AllValid(attrs)
  {
    if attrs == [] then [] else EncodeAttribute(attrs[0]) + Encode(attrs[1..])
  }

  function Message(attrs: seq<Attribute>, transactionId: seq<byte>): seq<byte>
    requires AllValid(attrs) && |Encode(attrs)| < 0x10000 && |transactionId| == 12
  {
    Bytes16(BINDING_RESPONSE) + Bytes16(|Encode(attrs)|) + MAGIC_COOKIE + transactionId + Encode(attrs)
  }

  // ---------- What a response means ----------

  datatype Address = Address(ip: seq<byte>, port: nat)

  datatype StunError = TooShort | BadCookie | BadType | ErrorCodePresent | NoMappedAddress

  datatype Outcome = Found(address: Address) | Failed(error: StunError)

  predicate IsAddressType(typ: nat) {
    typ == ATTR_MAPPED_ADDRESS || typ == ATTR_XOR_MAPPED_ADDRESS
  }

  function Unmask(masked: seq<byte>): (ip: seq<byte>)
    requires |masked| == 4
    ensures |ip| == 4
  {
    seq(4, i requires 0 <= i < 4 => XorBytes(masked[i], MAGIC_COOKIE[i]))
  }

  // The IPv4 address an attribute value carries: family in its second byte, the port field
  // as it stands, the IP field unmasked when the type says so.
  function AddressIn(typ: nat, value: seq<byte>): Option<Address> {
    if |value| < 8 || value[1] != 0x01 then None
    else
      var field := value[4..8];
      Some(Address(if typ == ATTR_XOR_MAPPED_ADDRESS then Unmask(field) else field, U16(value[2], value[3])))
  }

  // Every decodable address, in message order.
  function Addresses(attrs: seq<Attribute>): seq<Address> {
    if attrs == [] then []
    else
      var a := attrs[0];
      (if IsAddressType(a.typ) && AddressIn(a.typ, a.value).Some? then [AddressIn(a.typ, a.value).value] else [])
      + Addresses(attrs[1..])
  }

  // The last decodable address, unless an ERROR-CODE stands anywhere.
  function Meaning(attrs: seq<Attribute>): Outcome {
    if exists a :: a in attrs && a.typ == ATTR_ERROR_CODE then Failed(ErrorCodePresent)
    else if Addresses(attrs) == [] then Failed(NoMappedAddress)
    else Found(Addresses(attrs)[|Addresses(attrs)| - 1])
  }

  // Where the attribute at the head of these bytes ends, padding included.
  function FirstEnd(rest: seq<byte>): (end: nat)
    requires |rest| >= 4
    ensures end >= 4
  {
    4 + RoundUp4(U16(rest[2], rest[3]))
  }

  // No further attribute can be read here: the announced length is used up, or what is left
  // does not hold a whole one.
  predicate Stuck(rest: seq<byte>, budget: int) {
    budget <= 0 || |rest| < 4 || FirstEnd(rest) > |rest|
  }

  function First(rest: seq<byte>): (a: Attribute)
    requires |rest| >= 4 && FirstEnd(rest) <= |rest|
    ensures a.Valid() && FirstEnd(rest) == 4 + RoundUp4(|a.value|)
  {
    var len := U16(rest[2], rest[3]);
    Attribute(U16(rest[0], rest[1]), rest[4..4 + len], rest[4 + len..FirstEnd(rest)])
  }

  // The attributes of a body: `budget` bytes are announced, but an attribute that starts
  // inside the announced length may run past it.
  function Decode(body: seq<byte>, budget: int): (attrs: seq<Attribute>)
    ensures AllValid(attrs)
    decreases |body|
  {
    if Stuck(body, budget) then []
    else [First(body)] + Decode(body[FirstEnd(body)..], budget - FirstEnd(body))
  }

  function Parse(response: seq<byte>): Outcome {
    if |response| < HEADER_LEN then Failed(TooShort)
    else if response[4..8] != MAGIC_COOKIE then Failed(BadCookie)
    else if U16(response[0], response[1]) != BINDING_RESPONSE then Failed(BadType)
    else Meaning(Decode(response[HEADER_LEN..], U16(response[2], response[3])))
  }
}
