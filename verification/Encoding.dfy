/**
 Byte encodings: the tightly packed values that clients and contract hash and sign, and the payload
 that turns a token transfer into a channel creation or a top-up.
 */
module Encoding {
  import opened Prelude

  type Bytes = seq<Byte>

  // ---------------------------------------------------------------- big-endian integers

  function Pow256(n: nat): (p: nat)
    ensures p > 0
  {
    if n == 0 then 1 else 256 * Pow256(n - 1)
  }

  function BigEndian(value: nat, len: nat): (b: Bytes)
    ensures |b| == len
  {
    if len == 0 then [] else BigEndian(value / 256, len - 1) + [value % 256]
  }

  function FromBigEndian(b: Bytes): nat {
    if b == [] then 0 else 256 * FromBigEndian(b[..|b| - 1]) + b[|b| - 1]
  }

  lemma {:induction false} BigEndianRoundTrip(value: nat, len: nat)
    requires value < Pow256(len)
    ensures FromBigEndian(BigEndian(value, len)) == value
  {
    if len > 0 {
      BigEndianRoundTrip(value / 256, len - 1);
      assert BigEndian(value, len)[..len - 1] == BigEndian(value / 256, len - 1);
    }
  }

  lemma {:induction false} FromBigEndianRoundTrip(b: Bytes)
    ensures FromBigEndian(b) < Pow256(|b|)
    ensures BigEndian(FromBigEndian(b), |b|) == b
  {
    if b != [] {
      FromBigEndianRoundTrip(b[..|b| - 1]);
      assert b == b[..|b| - 1] + [b[|b| - 1]];
    }
  }

  lemma FieldWidths()
    ensures Pow256(4) == TWO_32 && Pow256(20) == TWO_160 && Pow256(24) == TWO_192
  {
    assert Pow256(4) == 256 * 256 * 256 * 256 * Pow256(0);
    assert Pow256(12) == TWO_32 * TWO_32 * TWO_32;
    assert Pow256(20) == TWO_32 * TWO_32 * Pow256(12);
  }

  // ---------------------------------------------------------------- crypto.py: pack

  /** The argument kinds that pack distinguishes; a prefixed hex string has been decoded already. */
  datatype PyValue =
    | PyBytes(bytes: Bytes)
    | PyText(text: Bytes)
    | PyHex(decoded: Bytes)
    | PyBool(flag: bool)
    | PyInt(value: int)
    | PySized(value: int, bits: nat)

  /** Number of hexadecimal digits Python prints for a value, never fewer than one. */
  function HexDigits(value: nat): (d: nat)
    ensures d >= 1
  {
    if value < 16 then 1 else 1 + HexDigits(value / 16)
  }

  /** Decoding the hexadecimal form fails on an odd number of digits. */
  function DecodeHex(value: nat, digits: nat): Option<Bytes> {
    if digits % 2 == 1 then None else Some(BigEndian(value, digits / 2))
  }

  /** format_int: only non-negative values are padded, and nothing is ever cut off. */
  function FormatInt(value: int, bits: nat): Option<Bytes> {
    if value >= 0 then
      DecodeHex(value, Max(HexDigits(value), bits / 4))
    else
      var twos := TwoTo(bits) + value;
      if twos < 0 then None else DecodeHex(twos, HexDigits(twos))
  }

  function TwoTo(n: nat): nat {
    if n == 0 then 1 else 2 * TwoTo(n - 1)
  }

  function PackOne(v: PyValue): Option<Bytes> {
    match v
    case PyBytes(b) => Some(b)
    case PyText(t) => Some(t)
    case PyHex(b) => Some(b)
    case PyBool(f) => FormatInt(if f then 1 else 0, 8)
    case PyInt(i) => FormatInt(i, 256)
    case PySized(i, bits) => FormatInt(i, bits)
  }

  function PackAll(args: seq<PyValue>): Option<Bytes> {
    if args == [] then Some([])
    else
      match (PackAll(args[..|args| - 1]), PackOne(args[|args| - 1]))
      case (Some(front), Some(last)) => Some(front + last)
      case _ => None
  }

  /** pack: None stands for the exception decode_hex raises. */
  method Pack(args: seq<PyValue>) returns (msg: Option<Bytes>)
    ensures msg == PackAll(args)
  {
    var acc := [];
    var i := 0;
    while i < |args|
      invariant 0 <= i <= |args|
      invariant PackAll(args[..i]) == Some(acc)
    {
      assert args[..i + 1][..i] == args[..i];
      var part := PackOne(args[i]);
      if part.None? {
        PackFailureStays(args, i + 1);
        return None;
      }
      acc := acc + part.value;
      i := i + 1;
    }
    assert args[..i] == args;
    return Some(acc);
  }

  lemma {:induction false} PackFailureStays(args: seq<PyValue>, n: nat)
    requires n <= |args| && PackAll(args[..n]).None?
    ensures PackAll(args).None?
    decreases |args|
  {
    if n < |args| {
      assert args[..|args| - 1][..n] == args[..n];
      PackFailureStays(args[..|args| - 1], n);
    } else {
      assert args[..n] == args;
    }
  }

  // ---------------------------------------------------------------- fixed-width fields

  lemma {:induction false} HexDigitsFit(value: nat, len: nat)
    requires len > 0 && value < Pow256(len)
    ensures HexDigits(value) <= 2 * len
  {
    if value >= 256 {
      assert value / 16 / 16 == value / 256;
      assert HexDigits(value) == 2 + HexDigits(value / 256);
      HexDigitsFit(value / 256, len - 1);
    }
  }

  /** A value in range is packed into exactly the bytes the contract's tight packing uses. */
  lemma FormatIntInRange(value: nat, len: nat)
    requires len > 0 && value < Pow256(len)
    ensures FormatInt(value, 8 * len) == Some(BigEndian(value, len))
  {
    HexDigitsFit(value, len);
    assert 8 * len / 4 == 2 * len;
  }

  lemma FourBits(n: nat)
    ensures TwoTo(n + 4) == 16 * TwoTo(n)
  {
    assert TwoTo(n + 2) == 4 * TwoTo(n);
  }

  lemma {:induction false} HexDigitsBound(value: nat)
    ensures value < TwoTo(4 * HexDigits(value))
  {
    if value < 16 {
      FourBits(0);
    } else {
      HexDigitsBound(value / 16);
      FourBits(4 * HexDigits(value / 16));
      assert HexDigits(value) == 1 + HexDigits(value / 16);
    }
  }

  lemma {:induction false} TwoToIsPow256(n: nat)
    ensures TwoTo(8 * n) == Pow256(n)
  {
    if n > 0 {
      TwoToIsPow256(n - 1);
      FourBits(8 * n - 8);
      FourBits(8 * n - 4);
    }
  }

  lemma {:induction false} TwoToGrows(m: nat, n: nat)
    requires m <= n
    ensures TwoTo(m) <= TwoTo(n)
  {
    if m < n {
      TwoToGrows(m, n - 1);
    }
  }

  /** Whatever format_int returns reads back as the value, or for a negative one as its two's complement of the given
      width; non-negative values take at least that width. It fails exactly on an odd number of hexadecimal digits, and
      on a negative value beyond the width. */
  lemma FormatIntExact(value: int, bits: nat)
    ensures var word := if value >= 0 then value else TwoTo(bits) + value;
            var packed := FormatInt(value, bits);
            && (packed.Some? ==> word >= 0 && FromBigEndian(packed.value) == word)
            && (packed.Some? && value >= 0 ==> 2 * |packed.value| == Max(HexDigits(value), bits / 4))
            && (packed.None? <==> word < 0 || (if value >= 0 then Max(HexDigits(word), bits / 4)
                                               else HexDigits(word)) % 2 == 1)
  {
    var word := if value >= 0 then value else TwoTo(bits) + value;
    if word >= 0 && FormatInt(value, bits).Some? {
      var len := |FormatInt(value, bits).value|;
      HexDigitsBound(word);
      TwoToGrows(4 * HexDigits(word), 8 * len);
      TwoToIsPow256(len);
      BigEndianRoundTrip(word, len);
    }
  }

  /** Truth values take one byte, and integers of no given width thirty-two. */
  lemma DefaultWidths(flag: bool, value: nat)
    requires value < Pow256(32)
    ensures PackOne(PyBool(flag)) == Some([if flag then 1 else 0])
    ensures PackOne(PyInt(value)) == Some(BigEndian(value, 32))
  {
    FormatIntInRange(value, 32);
    var bit := if flag then 1 else 0;
    assert Pow256(1) == 256 * Pow256(0);
    FormatIntInRange(bit, 1);
    assert FormatInt(bit, 8) == Some(BigEndian(bit, 1));
    assert BigEndian(bit, 1) == BigEndian(0, 0) + [bit] == [bit];
  }

  // ---------------------------------------------------------------- signed messages

  const SENDER_LABEL: Bytes := Ascii("Sender balance proof signature")
  const RECEIVER_LABEL: Bytes := Ascii("Receiver closing signature")

  function Ascii(text: string): (b: Bytes)
    ensures |b| == |text|
  {
    seq(|text|, i requires 0 <= i < |text| => text[i] as int % 256)
  }

  /** The fields that get_balance_message and get_closing_message hash after their label. */
  datatype Fields = Fields(party: Address, openBlock: uint32, balance: uint192, escrow: Address)

  /** The contract's keccak256 argument: label, address, uint32, uint192, address, tightly packed. */
  function SolidityPacked(prefix: Bytes, f: Fields): Bytes {
    prefix + BigEndian(f.party, 20) + BigEndian(f.openBlock, 4) + BigEndian(f.balance, 24) + BigEndian(f.escrow, 20)
  }

  /** The value list that crypto.py hands to pack. */
  function PythonValues(prefix: Bytes, f: Fields): seq<PyValue> {
    [PyText(prefix), PyHex(BigEndian(f.party, 20)), PySized(f.openBlock, 32), PySized(f.balance, 192),
     PyHex(BigEndian(f.escrow, 20))]
  }

  /** Python client and contract hash the same bytes. */
  lemma PythonPacksLikeSolidity(prefix: Bytes, f: Fields)
    ensures PackAll(PythonValues(prefix, f)) == Some(SolidityPacked(prefix, f))
  {
    FieldWidths();
    FormatIntInRange(f.openBlock, 4);
    FormatIntInRange(f.balance, 24);
    PackFive(PythonValues(prefix, f), prefix, BigEndian(f.party, 20), BigEndian(f.openBlock, 4),
             BigEndian(f.balance, 24), BigEndian(f.escrow, 20));
  }

  /** Packing five values whose parts are known; the sequence grows by one value at a time. */
  lemma PackFive(v: seq<PyValue>, a: Bytes, b: Bytes, c: Bytes, d: Bytes, e: Bytes)
    requires |v| == 5 && PackOne(v[0]) == Some(a) && PackOne(v[1]) == Some(b) && PackOne(v[2]) == Some(c)
    requires PackOne(v[3]) == Some(d) && PackOne(v[4]) == Some(e)
    ensures PackAll(v) == Some(a + b + c + d + e)
  {
    assert PackAll([]) == Some([]);
    var s1 := PackSnoc([], [], v[0], a);
    var s2 := PackSnoc(s1, [] + a, v[1], b);
    var s3 := PackSnoc(s2, [] + a + b, v[2], c);
    var s4 := PackSnoc(s3, [] + a + b + c, v[3], d);
    var s5 := PackSnoc(s4, [] + a + b + c + d, v[4], e);
    assert s5 == v;
    assert [] + a == a;
  }

  lemma PackSnoc(front: seq<PyValue>, f: Bytes, last: PyValue, l: Bytes) returns (all: seq<PyValue>)
    requires PackAll(front) == Some(f) && PackOne(last) == Some(l)
    ensures all == front + [last]
    ensures PackAll(all) == Some(f + l)
  {
    all := front + [last];
    assert all[..|front|] == front;
  }

  lemma FixedWidthInjective(a: nat, b: nat, len: nat)
    requires a < Pow256(len) && b < Pow256(len)
    requires BigEndian(a, len) == BigEndian(b, len)
    ensures a == b
  {
    BigEndianRoundTrip(a, len);
    BigEndianRoundTrip(b, len);
  }

  /** Under one label the packed bytes determine every field. */
  lemma PackedInjective(prefix: Bytes, f: Fields, g: Fields)
    requires SolidityPacked(prefix, f) == SolidityPacked(prefix, g)
    ensures f == g
  {
    var n := |prefix|;
    var pf, pg := SolidityPacked(prefix, f), SolidityPacked(prefix, g);
    FieldWidths();
    assert pf[n..n + 20] == BigEndian(f.party, 20) && pg[n..n + 20] == BigEndian(g.party, 20);
    FixedWidthInjective(f.party, g.party, 20);
    assert pf[n + 20..n + 24] == BigEndian(f.openBlock, 4) && pg[n + 20..n + 24] == BigEndian(g.openBlock, 4);
    FixedWidthInjective(f.openBlock, g.openBlock, 4);
    assert pf[n + 24..n + 48] == BigEndian(f.balance, 24) && pg[n + 24..n + 48] == BigEndian(g.balance, 24);
    FixedWidthInjective(f.balance, g.balance, 24);
    assert pf[n + 48..] == BigEndian(f.escrow, 20) && pg[n + 48..] == BigEndian(g.escrow, 20);
    FixedWidthInjective(f.escrow, g.escrow, 20);
  }

  /** A balance proof and a closing agreement are never the same bytes. */
  lemma LabelsApart(f: Fields, g: Fields)
    ensures SolidityPacked(SENDER_LABEL, f) != SolidityPacked(RECEIVER_LABEL, g)
  {
    assert |SolidityPacked(SENDER_LABEL, f)| == |SENDER_LABEL| + 68;
    assert |SolidityPacked(RECEIVER_LABEL, g)| == |RECEIVER_LABEL| + 68;
  }

  /** The two kinds of signed message. */
  datatype Signed = Proof | Agreement {
    function Label(): Bytes {
      if Proof? then SENDER_LABEL else RECEIVER_LABEL
    }

    /** Type and name of the five fields, as shown to whoever signs. */
    function FieldNames(): seq<string> {
      ["string message_id", if Proof? then "address receiver" else "address sender", "uint32 block_created",
       "uint192 balance", "address contract"]
    }
  }

  /** The packed bytes determine the kind of message and every field. */
  lemma PackedDetermines(k: Signed, l: Signed, f: Fields, g: Fields)
    ensures SolidityPacked(k.Label(), f) == SolidityPacked(l.Label(), g) <==> k == l && f == g
  {
    LabelsApart(f, g);
    LabelsApart(g, f);
    if k == l && SolidityPacked(k.Label(), f) == SolidityPacked(l.Label(), g) {
      PackedInjective(k.Label(), f, g);
    }
  }

  /** The names, tightly packed. */
  function Schema(k: Signed): Bytes {
    var n := k.FieldNames();
    Ascii(n[0]) + Ascii(n[1]) + Ascii(n[2]) + Ascii(n[3]) + Ascii(n[4])
  }

  /** The hash of the schema and the hash of the packed values, side by side. */
  function SchemaAndValues(keccak: Bytes -> Bytes, k: Signed, f: Fields): Bytes {
    keccak(Schema(k)) + keccak(SolidityPacked(k.Label(), f))
  }

  /** What the contract recovers a signer for. */
  function MessageHash(keccak: Bytes -> Bytes, k: Signed, f: Fields): Bytes {
    keccak(SchemaAndValues(keccak, k, f))
  }

  /** keccak256 of Python values. */
  function PythonKeccak(keccak: Bytes -> Bytes, args: seq<PyValue>): Option<Bytes> {
    match PackAll(args)
    case None => None
    case Some(b) => Some(keccak(b))
  }

  /** eth_sign_typed_data_message on the fields of get_balance_message or get_closing_message. */
  function PythonMessageHash(keccak: Bytes -> Bytes, k: Signed, f: Fields): Option<Bytes> {
    var names := k.FieldNames();
    match (PythonKeccak(keccak, seq(|names|, i requires 0 <= i < |names| => PyText(Ascii(names[i])))),
           PythonKeccak(keccak, PythonValues(k.Label(), f)))
    case (Some(schema), Some(values)) => PythonKeccak(keccak, [PyBytes(schema), PyBytes(values)])
    case _ => None
  }

  /** Both sides sign and recover one hash, for either kind of message. */
  lemma PythonHashesLikeContract(keccak: Bytes -> Bytes, k: Signed, f: Fields)
    ensures PythonMessageHash(keccak, k, f) == Some(MessageHash(keccak, k, f))
  {
    var n := k.FieldNames();
    PackFive(seq(|n|, i requires 0 <= i < |n| => PyText(Ascii(n[i]))),
             Ascii(n[0]), Ascii(n[1]), Ascii(n[2]), Ascii(n[3]), Ascii(n[4]));
    PythonPacksLikeSolidity(k.Label(), f);
    var schema, values := keccak(Schema(k)), keccak(SolidityPacked(k.Label(), f));
    assert PackAll([]) == Some([]);
    var s1 := PackSnoc([], [], PyBytes(schema), schema);
    var s2 := PackSnoc(s1, [] + schema, PyBytes(values), values);
    assert s2 == [PyBytes(schema), PyBytes(values)] && [] + schema == schema;
  }

  /** Two strings that show a hash not to be injective. */
  predicate Collide(keccak: Bytes -> Bytes, a: Bytes, b: Bytes) {
    a != b && keccak(a) == keccak(b)
  }

  /** The collisions that confuse two messages: of the strings hashed last, or, under schemas of one hash, of their
      packed values. */
  predicate Confused(keccak: Bytes -> Bytes, k: Signed, f: Fields, l: Signed, g: Fields) {
    || Collide(keccak, SchemaAndValues(keccak, k, f), SchemaAndValues(keccak, l, g))
    || (keccak(Schema(k)) == keccak(Schema(l))
        && Collide(keccak, SolidityPacked(k.Label(), f), SolidityPacked(l.Label(), g)))
  }

  /** A signed hash names one kind of message and one choice of fields: a balance proof is never a closing agreement,
      and neither can be replayed for another channel, balance or contract. Two messages have one hash if and only if
      they are the same message, or a named pair of strings is a collision of the hash. */
  lemma MessageHashInjective(keccak: Bytes -> Bytes, k: Signed, f: Fields, l: Signed, g: Fields)
    requires forall x :: |keccak(x)| == 32
    ensures MessageHash(keccak, k, f) == MessageHash(keccak, l, g) <==>
              (k == l && f == g) || Confused(keccak, k, f, l, g)
  {
    var a, b := SchemaAndValues(keccak, k, f), SchemaAndValues(keccak, l, g);
    PackedDetermines(k, l, f, g);
    if a == b {
      assert a[32..] == keccak(SolidityPacked(k.Label(), f)) && b[32..] == keccak(SolidityPacked(l.Label(), g));
    }
  }

  // ---------------------------------------------------------------- tokenFallback payload

  /** What a payload asks the escrow to do. */
  datatype Request =
    | OpenRequest(sender: Address, receiver: Address)
    | TopUpRequest(sender: Address, receiver: Address, openBlock: uint32)

  /** The bytes Client.open_channel and Channel.topup attach to the token transfer. */
  function ClientPayload(r: Request): Bytes {
    BigEndian(r.sender, 20) + BigEndian(r.receiver, 20) + if r.TopUpRequest? then BigEndian(r.openBlock, 4) else []
  }

  function AddressFromBytes(data: Bytes, offset: nat): Address
    requires 0x20 <= offset && offset - 0x20 + 20 <= |data|
  {
    FieldWidths();
    FromBigEndianRoundTrip(data[offset - 0x20..offset - 0x20 + 20]);
    FromBigEndian(data[offset - 0x20..offset - 0x20 + 20])
  }

  function BlockNumberFromBytes(data: Bytes, offset: nat): uint32
    requires 0x20 <= offset && offset - 0x20 + 4 <= |data|
  {
    FieldWidths();
    FromBigEndianRoundTrip(data[offset - 0x20..offset - 0x20 + 4]);
    FromBigEndian(data[offset - 0x20..offset - 0x20 + 4])
  }

  /** The decoding in tokenFallback; None is the revert on any other length. */
  function DecodePayload(data: Bytes): Option<Request> {
    if |data| == 40 then
      Some(OpenRequest(AddressFromBytes(data, 0x20), AddressFromBytes(data, 0x34)))
    else if |data| == 44 then
      Some(TopUpRequest(AddressFromBytes(data, 0x20), AddressFromBytes(data, 0x34), BlockNumberFromBytes(data, 0x48)))
    else None
  }

  /** The escrow reads back exactly what the client wrote. */
  lemma PayloadRoundTrip(r: Request)
    ensures DecodePayload(ClientPayload(r)) == Some(r)
  {
    var data := ClientPayload(r);
    FieldWidths();
    BigEndianRoundTrip(r.sender, 20);
    BigEndianRoundTrip(r.receiver, 20);
    assert data[0..20] == BigEndian(r.sender, 20);
    assert data[20..40] == BigEndian(r.receiver, 20);
    if r.TopUpRequest? {
      BigEndianRoundTrip(r.openBlock, 4);
      assert data[40..44] == BigEndian(r.openBlock, 4);
    }
  }

  /** Conversely, every payload the escrow accepts is the client's own encoding of what it reads. */
  lemma AcceptedPayloadIsCanonical(data: Bytes)
    requires DecodePayload(data).Some?
    ensures ClientPayload(DecodePayload(data).value) == data
  {
    FromBigEndianRoundTrip(data[0..20]);
    FromBigEndianRoundTrip(data[20..40]);
    assert data == data[0..20] + data[20..40] + data[40..];
    if |data| == 44 {
      FromBigEndianRoundTrip(data[40..44]);
      assert data[40..] == data[40..44];
    }
  }
}
