/** The parser inverts the serializer: what it makes of serialized, extended and truncated
    messages. */
module StunFormat {
  import opened Common
  import opened Stun

  // The one list of attributes a body can be read as: serialized it starts the body, each
  // attribute starts inside the announced length, and no further one can be read.
  ghost predicate Reads(body: seq<byte>, budget: int, attrs: seq<Attribute>) {
    && AllValid(attrs) && Encode(attrs) <= body
    && (forall i :: 0 <= i < |attrs| ==> |Encode(attrs[..i])| < budget)
    && Stuck(body[|Encode(attrs)|..], budget - |Encode(attrs)|)
  }

  lemma EncodeCons(attrs: seq<Attribute>, i: nat)
    requires AllValid(attrs) && i < |attrs|
    ensures Encode(attrs[..i + 1]) == EncodeAttribute(attrs[0]) + Encode(attrs[1..][..i])
  {
    assert attrs[..i + 1][1..] == attrs[1..][..i];
  }

  lemma FirstOfEncoded(a: Attribute, tail: seq<byte>)
    requires a.Valid()
    ensures var body := EncodeAttribute(a) + tail;
            FirstEnd(body) == |EncodeAttribute(a)| && First(body) == a && body[FirstEnd(body)..] == tail
  {
    var body := EncodeAttribute(a) + tail;
    var b := EncodeAttribute(a);
    assert b[0..2] == Bytes16(a.typ) && b[2..4] == Bytes16(|a.value|);
    assert body[0] == Bytes16(a.typ)[0] && body[1] == Bytes16(a.typ)[1];
    assert body[2] == Bytes16(|a.value|)[0] && body[3] == Bytes16(|a.value|)[1];
    assert body[4..4 + |a.value|] == a.value;
    assert body[4 + |a.value|..|b|] == a.padding;
  }

  lemma BytesOfU16(hi: byte, lo: byte)
    ensures Bytes16(U16(hi, lo)) == [hi, lo]
  {
  }

  lemma EncodedFirst(body: seq<byte>)
    requires |body| >= 4 && FirstEnd(body) <= |body|
    ensures EncodeAttribute(First(body)) == body[..FirstEnd(body)]
  {
    var a := First(body);
    BytesOfU16(body[0], body[1]);
    BytesOfU16(body[2], body[3]);
    hide U16, Bytes16, RoundUp4;
    assert Bytes16(a.typ) == body[0..2];
    assert Bytes16(|a.value|) == body[2..4];
    assert body[..FirstEnd(body)] == body[0..2] + body[2..4] + a.value + a.padding;
  }

  // Reading on: a list that starts with `a` reads the body exactly when its tail reads
  // what follows `a`.
  lemma ReadsCons(a: Attribute, tail: seq<byte>, budget: int, rest: seq<Attribute>)
    requires a.Valid()
    ensures var b := EncodeAttribute(a);
            Reads(b + tail, budget, [a] + rest) <==> 0 < budget && Reads(tail, budget - |b|, rest)
  {
    var b, attrs := EncodeAttribute(a), [a] + rest;
    assert attrs[1..] == rest;
    if AllValid(rest) {
      assert Encode(attrs) == b + Encode(rest);
      EncodedPrefix(b, Encode(rest), tail);
      assert Encode(attrs[..0]) == [];
      forall i | 0 <= i < |rest|
        ensures |Encode(attrs[..i + 1])| == |b| + |Encode(rest[..i])|
      {
        EncodeCons(attrs, i);
      }
      StartsShift(attrs, rest, |b|, budget);
    }
  }

  lemma EncodedPrefix(b: seq<byte>, encoded: seq<byte>, tail: seq<byte>)
    ensures b + encoded <= b + tail <==> encoded <= tail
    ensures encoded <= tail ==> (b + tail)[|b + encoded|..] == tail[|encoded|..]
  {
    if encoded <= tail {
      assert tail == encoded + tail[|encoded|..];
      assert b + tail == (b + encoded) + tail[|encoded|..];
    }
    if b + encoded <= b + tail {
      assert (b + tail)[..|b + encoded|] == b + encoded;
      assert tail[..|encoded|] == (b + tail)[..|b + encoded|][|b|..];
    }
  }

  lemma StartsShift(attrs: seq<Attribute>, rest: seq<Attribute>, shift: nat, budget: int)
    requires AllValid(attrs) && AllValid(rest) && |attrs| == |rest| + 1
    requires |Encode(attrs[..0])| == 0
    requires forall i :: 0 <= i < |rest| ==> |Encode(attrs[..i + 1])| == shift + |Encode(rest[..i])|
    ensures (forall i :: 0 <= i < |attrs| ==> |Encode(attrs[..i])| < budget) <==>
            (0 < budget && forall i :: 0 <= i < |rest| ==> |Encode(rest[..i])| < budget - shift)
  {
    if forall i :: 0 <= i < |attrs| ==> |Encode(attrs[..i])| < budget {
      forall i | 0 <= i < |rest|
        ensures |Encode(rest[..i])| < budget - shift
      {
        assert |Encode(attrs[..i + 1])| < budget;
      }
    }
    if 0 < budget && forall i :: 0 <= i < |rest| ==> |Encode(rest[..i])| < budget - shift {
      forall i | 0 <= i < |attrs|
        ensures |Encode(attrs[..i])| < budget
      {
        if i > 0 {
          assert |Encode(rest[..i - 1])| < budget - shift;
        }
      }
    }
  }

  lemma HeadAndTail(body: seq<byte>, attrs: seq<Attribute>) returns (tail: seq<byte>)
    requires AllValid(attrs) && attrs != [] && Encode(attrs) <= body
    ensures body == EncodeAttribute(attrs[0]) + tail && attrs == [attrs[0]] + attrs[1..]
  {
    var b := EncodeAttribute(attrs[0]);
    tail := body[|b|..];
    assert body[..|b|] == Encode(attrs)[..|b|] == b;
  }

  lemma DecodeOfEncoded(a: Attribute, tail: seq<byte>, budget: int)
    requires a.Valid() && 0 < budget
    ensures Decode(EncodeAttribute(a) + tail, budget) == [a] + Decode(tail, budget - |EncodeAttribute(a)|)
  {
    FirstOfEncoded(a, tail);
  }

  lemma {:induction false} ReadsIsDecode(body: seq<byte>, budget: int, attrs: seq<Attribute>)
    requires Reads(body, budget, attrs)
    ensures attrs == Decode(body, budget)
    decreases |attrs|
  {
    hide Reads, Decode, Encode, EncodeAttribute, Stuck;
    if attrs == [] {
      NothingRead(body, budget);
    } else {
      ReadsHead(body, budget, attrs);
      var tail := body[|EncodeAttribute(attrs[0])|..];
      ReadsIsDecode(tail, budget - |EncodeAttribute(attrs[0])|, attrs[1..]);
      DecodeOfEncoded(attrs[0], tail, budget);
    }
  }

  lemma NothingRead(body: seq<byte>, budget: int)
    requires Reads(body, budget, [])
    ensures Decode(body, budget) == []
  {
    assert body[0..] == body;
  }

  lemma ReadsHead(body: seq<byte>, budget: int, attrs: seq<Attribute>)
    requires Reads(body, budget, attrs) && attrs != []
    ensures attrs[0].Valid() && 0 < budget && |EncodeAttribute(attrs[0])| <= |body| && attrs == [attrs[0]] + attrs[1..]
    ensures body == EncodeAttribute(attrs[0]) + body[|EncodeAttribute(attrs[0])|..]
    ensures Reads(body[|EncodeAttribute(attrs[0])|..], budget - |EncodeAttribute(attrs[0])|, attrs[1..])
  {
    var tail := HeadAndTail(body, attrs);
    assert tail == body[|EncodeAttribute(attrs[0])|..];
    hide Encode, EncodeAttribute, Stuck, RoundUp4;
    ReadsCons(attrs[0], tail, budget, attrs[1..]);
  }

  lemma ReadsOneMore(body: seq<byte>, budget: int, rest: seq<Attribute>)
    requires !Stuck(body, budget) && Reads(body[FirstEnd(body)..], budget - FirstEnd(body), rest)
    ensures Reads(body, budget, [First(body)] + rest)
  {
    hide Reads, Encode, EncodeAttribute, First, RoundUp4;
    EncodedFirst(body);
    assert body == body[..FirstEnd(body)] + body[FirstEnd(body)..];
    ReadsCons(First(body), body[FirstEnd(body)..], budget, rest);
  }

  lemma {:induction false} DecodeReads(body: seq<byte>, budget: int)
    ensures Reads(body, budget, Decode(body, budget))
    decreases |body|
  {
    hide First, FirstEnd, Encode;
    if Stuck(body, budget) {
      StuckReadsNothing(body, budget);
    } else {
      var end := FirstEnd(body);
      DecodeReads(body[end..], budget - end);
      ReadsOneMore(body, budget, Decode(body[end..], budget - end));
    }
  }

  lemma StuckReadsNothing(body: seq<byte>, budget: int)
    requires Stuck(body, budget)
    ensures Reads(body, budget, [])
  {
    assert body[0..] == body;
  }

  // On every byte sequence and announced length, the decoder's list is the one the grammar
  // allows.
  lemma DecodeExactly(body: seq<byte>, budget: int, attrs: seq<Attribute>)
    ensures Reads(body, budget, attrs) <==> attrs == Decode(body, budget)
  {
    DecodeReads(body, budget);
    if Reads(body, budget, attrs) {
      ReadsIsDecode(body, budget, attrs);
    }
  }

  // ---------- Whole messages ----------

  lemma MessageLayout(attrs: seq<Attribute>, transactionId: seq<byte>)
    requires AllValid(attrs) && |Encode(attrs)| < 0x10000 && |transactionId| == 12
    ensures var m := Message(attrs, transactionId);
            && |m| == HEADER_LEN + |Encode(attrs)| && m[4..8] == MAGIC_COOKIE
            && U16(m[0], m[1]) == BINDING_RESPONSE && U16(m[2], m[3]) == |Encode(attrs)|
            && m[HEADER_LEN..] == Encode(attrs)
  {
    var m := Message(attrs, transactionId);
    assert m[0..2] == Bytes16(BINDING_RESPONSE) && m[2..4] == Bytes16(|Encode(attrs)|);
    assert m[0] == Bytes16(BINDING_RESPONSE)[0] && m[1] == Bytes16(BINDING_RESPONSE)[1];
    assert m[2] == Bytes16(|Encode(attrs)|)[0] && m[3] == Bytes16(|Encode(attrs)|)[1];
  }

  lemma {:induction false} EncodePrefix(attrs: seq<Attribute>, n: nat)
    requires AllValid(attrs) && n <= |attrs|
    ensures Encode(attrs[..n]) <= Encode(attrs)
    ensures n < |attrs| ==> |Encode(attrs[..n])| < |Encode(attrs)|
    decreases |attrs|
  {
    if n == 0 {
    } else {
      EncodeCons(attrs, n - 1);
      EncodePrefix(attrs[1..], n - 1);
    }
  }

  // Round trip: whatever bytes follow it in the buffer, a serialized message means what its
  // attribute list means.
  lemma SerializedMessageRoundTrips(attrs: seq<Attribute>, transactionId: seq<byte>, trailing: seq<byte>)
    requires AllValid(attrs) && |Encode(attrs)| < 0x10000 && |transactionId| == 12
    ensures Parse(Message(attrs, transactionId) + trailing) == Meaning(attrs)
  {
    hide Message, Encode, Decode, Meaning, FirstEnd;
    var body := Encode(attrs) + trailing;
    MessageLayout(attrs, transactionId);
    assert (Message(attrs, transactionId) + trailing)[HEADER_LEN..] == body;
    assert (Message(attrs, transactionId) + trailing)[4..8] == MAGIC_COOKIE;
    forall i | 0 <= i < |attrs|
      ensures |Encode(attrs[..i])| < |Encode(attrs)|
    {
      EncodePrefix(attrs, i);
    }
    ReadsIsDecode(body, |Encode(attrs)|, attrs);
  }

  // Where attribute n starts, seen from the cut: it does not fit in the first k body bytes.
  lemma StuckAtCut(attrs: seq<Attribute>, n: nat, k: nat)
    requires AllValid(attrs) && n < |attrs| && k <= |Encode(attrs)|
    requires |Encode(attrs[..n])| <= k < |Encode(attrs[..n + 1])|
    ensures Stuck(Encode(attrs)[..k][|Encode(attrs[..n])|..], |Encode(attrs)| - |Encode(attrs[..n])|)
  {
    hide EncodeAttribute, RoundUp4;
    var done := |Encode(attrs[..n])|;
    var rest := Encode(attrs)[..k][done..];
    EncodeSplit(attrs, n);
    EncodeSplit(attrs[..n + 1], n);
    assert attrs[..n + 1][..n] == attrs[..n] && attrs[..n + 1][n..] == [attrs[n]];
    assert Encode([attrs[n]]) == EncodeAttribute(attrs[n]);
    var b, tail := EncodeAttribute(attrs[n]), Encode(attrs[n + 1..]);
    assert attrs[n..][1..] == attrs[n + 1..];
    assert Encode(attrs[n..]) == b + tail;
    FirstOfEncoded(attrs[n], tail);
    assert rest == (b + tail)[..k - done];
  }

  lemma {:induction false} EncodeSplit(attrs: seq<Attribute>, n: nat)
    requires AllValid(attrs) && n <= |attrs|
    ensures Encode(attrs) == Encode(attrs[..n]) + Encode(attrs[n..])
    decreases |attrs|
  {
    hide EncodeAttribute, RoundUp4;
    if n == 0 {
      assert attrs[n..] == attrs;
    } else {
      EncodeCons(attrs, n - 1);
      EncodeSplit(attrs[1..], n - 1);
      assert attrs[1..][n - 1..] == attrs[n..];
    }
  }

  // How many attributes fit whole, padding included, into the first k bytes of the body.
  function FitWhole(attrs: seq<Attribute>, k: nat): (n: nat)
    requires AllValid(attrs)
    ensures n <= |attrs|
  {
    if attrs == [] || k < |EncodeAttribute(attrs[0])| then 0
    else 1 + FitWhole(attrs[1..], k - |EncodeAttribute(attrs[0])|)
  }

  // It is the number whose encoding fits while the next one's does not.
  lemma {:induction false} FitWholeExactly(attrs: seq<Attribute>, k: nat)
    requires AllValid(attrs)
    ensures var n := FitWhole(attrs, k);
            |Encode(attrs[..n])| <= k && (n < |attrs| ==> k < |Encode(attrs[..n + 1])|)
    decreases |attrs|
  {
    hide EncodeAttribute;
    var n := FitWhole(attrs, k);
    if attrs == [] {
    } else if n == 0 {
      EncodeCons(attrs, 0);
    } else {
      FitWholeExactly(attrs[1..], k - |EncodeAttribute(attrs[0])|);
      EncodeCons(attrs, n - 1);
      if n < |attrs| {
        EncodeCons(attrs, n);
      }
    }
  }

  // Truncation: a message cut anywhere after its header means what the attributes that still
  // fit whole mean; cut inside its header it means nothing.
  lemma TruncatedMessageKeepsWholeAttributes(attrs: seq<Attribute>, transactionId: seq<byte>, cut: nat)
    requires AllValid(attrs) && |Encode(attrs)| < 0x10000 && |transactionId| == 12
    requires cut <= |Message(attrs, transactionId)|
    ensures Parse(Message(attrs, transactionId)[..cut]) ==
            if cut < HEADER_LEN then Failed(TooShort)
            else Meaning(attrs[..FitWhole(attrs, cut - HEADER_LEN)])
  {
    if cut >= HEADER_LEN {
      FitWholeExactly(attrs, cut - HEADER_LEN);
      CutAfterHeader(attrs, transactionId, cut, FitWhole(attrs, cut - HEADER_LEN));
    }
  }

  lemma CutAfterHeader(attrs: seq<Attribute>, transactionId: seq<byte>, cut: nat, n: nat)
    requires AllValid(attrs) && |Encode(attrs)| < 0x10000 && |transactionId| == 12
    requires HEADER_LEN <= cut <= |Message(attrs, transactionId)| && n <= |attrs|
    requires |Encode(attrs[..n])| <= cut - HEADER_LEN
    requires n < |attrs| ==> cut - HEADER_LEN < |Encode(attrs[..n + 1])|
    ensures Parse(Message(attrs, transactionId)[..cut]) == Meaning(attrs[..n])
  {
    hide Message, Decode, Meaning, FirstEnd, Encode;
    var m, k, kept := Message(attrs, transactionId)[..cut], cut - HEADER_LEN, attrs[..n];
    MessageLayout(attrs, transactionId);
    var body := Encode(attrs)[..k];
    assert m[HEADER_LEN..] == body && m[4..8] == Message(attrs, transactionId)[4..8];
    EncodePrefix(attrs, n);
    assert Encode(kept) <= body;
    forall i | 0 <= i < |kept|
      ensures |Encode(kept[..i])| < |Encode(attrs)|
    {
      assert kept[..i] == attrs[..i];
      EncodePrefix(attrs, i);
    }
    if n < |attrs| {
      StuckAtCut(attrs, n, k);
    } else {
      assert kept == attrs;
    }
    ReadsIsDecode(body, |Encode(attrs)|, kept);
  }

  // ---------- Last one wins ----------

  predicate Decodable(a: Attribute) {
    IsAddressType(a.typ) && AddressIn(a.typ, a.value).Some?
  }

  // Position i holds the last decodable address.
  ghost predicate DecidedAt(attrs: seq<Attribute>, i: nat, address: Address) {
    && i < |attrs| && IsAddressType(attrs[i].typ) && AddressIn(attrs[i].typ, attrs[i].value) == Some(address)
    && forall j :: i < j < |attrs| ==> !Decodable(attrs[j])
  }

  lemma {:induction false} LastAddressIsDecided(attrs: seq<Attribute>) returns (i: nat)
    ensures Addresses(attrs) == [] ==> forall a :: a in attrs ==> !Decodable(a)
    ensures Addresses(attrs) != [] ==> DecidedAt(attrs, i, Addresses(attrs)[|Addresses(attrs)| - 1])
    decreases |attrs|
  {
    hide AddressIn;
    i := 0;
    if attrs == [] {
    } else {
      var rest := LastAddressIsDecided(attrs[1..]);
      assert forall j :: 0 < j < |attrs| ==> attrs[j] == attrs[1..][j - 1];
      if Addresses(attrs[1..]) != [] {
        i := rest + 1;
      }
    }
  }

  // A response yields an address exactly when no ERROR-CODE is in it and some address
  // attribute decodes, and then it is the last that does.
  lemma LastDecodableWins(attrs: seq<Attribute>, address: Address)
    ensures Meaning(attrs) == Found(address) <==>
            (forall a :: a in attrs ==> a.typ != ATTR_ERROR_CODE) && exists i: nat :: DecidedAt(attrs, i, address)
  {
    var last := LastAddressIsDecided(attrs);
    if exists i: nat :: DecidedAt(attrs, i, address) {
      var i: nat :| DecidedAt(attrs, i, address);
      assert Decodable(attrs[i]);
      assert last == i;
    }
  }

  // ---------- Addresses as a conforming server writes them ----------

  lemma {:induction false} XorTwice(a: nat, b: nat)
    ensures BitXor(BitXor(a, b), b) == a
    decreases a + b
  {
    if a == 0 && b == 0 {
    } else {
      var half := BitXor(a / 2, b / 2);
      var x := (if a % 2 == b % 2 then 0 else 1) + 2 * half;
      assert x / 2 == half;
      XorTwice(a / 2, b / 2);
      assert BitXor(x, b) == (if x % 2 == b % 2 then 0 else 1) + 2 * (a / 2);
    }
  }

  lemma {:induction false} XorChanges(a: nat, b: nat)
    requires BitXor(a, b) == a
    ensures b == 0
    decreases a + b
  {
    if a == 0 && b == 0 {
    } else {
      XorChanges(a / 2, b / 2);
    }
  }

  // Sections 15.1 and 15.2: a zero byte, the family, the port and the address; XOR-MAPPED
  // masks the port with the cookie's first half and the address with the whole cookie.
  function RfcValue(typ: nat, ip: seq<byte>, port: nat): seq<byte>
    requires |ip| == 4 && port < 0x10000
  {
    var p := Bytes16(port);
    if typ == ATTR_XOR_MAPPED_ADDRESS then
      [0, 1, XorBytes(p[0], MAGIC_COOKIE[0]), XorBytes(p[1], MAGIC_COOKIE[1])] + Unmask(ip)
    else
      [0, 1] + p + ip
  }

  // The parser recovers every address, but a port only from the plain attribute: for the
  // masked one it reports a wrong port for every port there is.
  lemma PortIsRightExactlyWhenPlain(typ: nat, ip: seq<byte>, port: nat)
    requires IsAddressType(typ) && |ip| == 4 && port < 0x10000
    ensures AddressIn(typ, RfcValue(typ, ip, port)).Some?
    ensures AddressIn(typ, RfcValue(typ, ip, port)).value.ip == ip
    ensures AddressIn(typ, RfcValue(typ, ip, port)).value.port == port <==> typ == ATTR_MAPPED_ADDRESS
  {
    var value, p := RfcValue(typ, ip, port), Bytes16(port);
    if typ == ATTR_XOR_MAPPED_ADDRESS {
      assert value[4..8] == Unmask(ip);
      forall i | 0 <= i < 4
        ensures Unmask(Unmask(ip))[i] == ip[i]
      {
        XorTwice(ip[i], MAGIC_COOKIE[i]);
      }
      assert Unmask(Unmask(ip)) == ip;
      if BitXor(p[0], MAGIC_COOKIE[0]) == p[0] {
        XorChanges(p[0], MAGIC_COOKIE[0]);
      }
      assert value[2] != p[0];
    } else {
      assert value[4..8] == ip && value[2..4] == p;
    }
  }

  // A whole response: the deciding attribute is the last decodable one, and it is written as
  // the RFC says. The client learns its address always, its port exactly when that attribute
  // is the plain one.
  lemma ReportedPortIsRightExactlyWhenPlain(
    attrs: seq<Attribute>, transactionId: seq<byte>, trailing: seq<byte>, i: nat, ip: seq<byte>, port: nat)
    requires AllValid(attrs) && |Encode(attrs)| < 0x10000 && |transactionId| == 12
    requires forall a :: a in attrs ==> a.typ != ATTR_ERROR_CODE
    requires i < |attrs| && IsAddressType(attrs[i].typ) && forall j :: i < j < |attrs| ==> !Decodable(attrs[j])
    requires |ip| == 4 && port < 0x10000 && attrs[i].value == RfcValue(attrs[i].typ, ip, port)
    ensures var outcome := Parse(Message(attrs, transactionId) + trailing);
            && outcome.Found? && outcome.address.ip == ip
            && (outcome.address.port == port <==> attrs[i].typ == ATTR_MAPPED_ADDRESS)
  {
    hide Parse, Message, Meaning, AddressIn, RfcValue, Encode;
    SerializedMessageRoundTrips(attrs, transactionId, trailing);
    PortIsRightExactlyWhenPlain(attrs[i].typ, ip, port);
    var address := AddressIn(attrs[i].typ, attrs[i].value).value;
    assert DecidedAt(attrs, i, address);
    LastDecodableWins(attrs, address);
  }
}
