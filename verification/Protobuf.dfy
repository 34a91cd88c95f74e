/** Protobuf layout of the messages whose size the sidecar computes by hand (src/proof.rs and the
    pulsar.verifier.v1 schemas): varints, length-delimited fields, proto3 default omission.

    The encodings below follow the "Base 128 Varints" and "Length-Delimited Records" sections of the
    Protocol Buffers Encoding specification. The decoder exists so that the encoders can be shown to
    lose nothing. */
module Protobuf {
  import opened Common
  import opened Proofs

  // ---------------------------------------------------------------- varints

  function EncodeVarint(n: nat): Bytes {
    if n < 128 then [n] else [n % 128 + 128] + EncodeVarint(n / 128)
  }

  /** prost's encoded_len_varint: the number of seven-bit groups. */
  function VarintLen(n: nat): nat {
    if n < 128 then 1 else 1 + VarintLen(n / 128)
  }

  function DecodeVarint(b: Bytes): (r: Option<(nat, Bytes)>)
    ensures r.Some? ==> |r.value.1| < |b|
  {
    if b == [] then None
    else if b[0] < 128 then Some((b[0], b[1..]))
    else
      match DecodeVarint(b[1..])
      case None => None
      case Some((high, rest)) => Some((b[0] - 128 + 128 * high, rest))
  }

  lemma {:induction false} VarintLength(n: nat)
    ensures |EncodeVarint(n)| == VarintLen(n)
  {
    if n >= 128 { VarintLength(n / 128); }
  }

  lemma {:induction false} VarintRoundTrip(n: nat, rest: Bytes)
    ensures DecodeVarint(EncodeVarint(n) + rest) == Some((n, rest))
  {
    var b := EncodeVarint(n) + rest;
    if n < 128 {
      assert b[1..] == rest;
    } else {
      assert b[1..] == EncodeVarint(n / 128) + rest;
      VarintRoundTrip(n / 128, rest);
    }
  }

  lemma {:induction false} VarintLenMonotone(m: nat, n: nat)
    requires m <= n
    ensures 1 <= VarintLen(m) <= VarintLen(n)
    decreases n
  {
    if m >= 128 { VarintLenMonotone(m / 128, n / 128); }
    else if n >= 128 { VarintLenMonotone(0, n / 128); }
  }

  // ---------------------------------------------------------------- fields

  datatype Field = Number(tag: nat, value: nat) | Data(tag: nat, bytes: Bytes)

  function EncodeField(f: Field): Bytes {
    match f
    case Number(tag, value) => EncodeVarint(8 * tag) + EncodeVarint(value)
    case Data(tag, bytes) => EncodeVarint(8 * tag + 2) + EncodeVarint(|bytes|) + bytes
  }

  function Encode(fields: seq<Field>): Bytes {
    if fields == [] then [] else EncodeField(fields[0]) + Encode(fields[1..])
  }

  function DecodeField(b: Bytes): (r: Option<(Field, Bytes)>)
    ensures r.Some? ==> |r.value.1| < |b|
  {
    match DecodeVarint(b)
    case None => None
    case Some((key, body)) =>
      match DecodeVarint(body)
      case None => None
      case Some((value, rest)) =>
        if key % 8 == 0 then Some((Number(key / 8, value), rest))
        else if key % 8 == 2 && value <= |rest| then Some((Data(key / 8, rest[..value]), rest[value..]))
        else None
  }

  function Decode(b: Bytes): Option<seq<Field>>
    decreases |b|
  {
    if b == [] then Some([])
    else
      match DecodeField(b)
      case None => None
      case Some((field, rest)) =>
        match Decode(rest)
        case None => None
        case Some(fields) => Some([field] + fields)
  }

  lemma FieldRoundTrip(f: Field, rest: Bytes)
    ensures DecodeField(EncodeField(f) + rest) == Some((f, rest))
  {
    match f
    case Number(tag, value) =>
      assert EncodeField(f) + rest == EncodeVarint(8 * tag) + (EncodeVarint(value) + rest);
      VarintRoundTrip(8 * tag, EncodeVarint(value) + rest);
      VarintRoundTrip(value, rest);
    case Data(tag, bytes) =>
      var tail := bytes + rest;
      assert EncodeField(f) + rest == EncodeVarint(8 * tag + 2) + (EncodeVarint(|bytes|) + tail);
      VarintRoundTrip(8 * tag + 2, EncodeVarint(|bytes|) + tail);
      VarintRoundTrip(|bytes|, tail);
      assert tail[..|bytes|] == bytes && tail[|bytes|..] == rest;
  }

  lemma EncodeFieldNonempty(f: Field)
    ensures EncodeField(f) != []
  {
    VarintLength(8 * f.tag);
    VarintLength(8 * f.tag + 2);
    VarintLenMonotone(0, 8 * f.tag);
    VarintLenMonotone(0, 8 * f.tag + 2);
  }

  lemma {:induction false} FieldsRoundTrip(fields: seq<Field>)
    ensures Decode(Encode(fields)) == Some(fields)
  {
    if fields != [] {
      EncodeFieldNonempty(fields[0]);
      FieldRoundTrip(fields[0], Encode(fields[1..]));
      FieldsRoundTrip(fields[1..]);
      assert [fields[0]] + fields[1..] == fields;
    }
  }

  lemma DataFieldLength(tag: nat, bytes: Bytes)
    requires tag < 16
    ensures |EncodeField(Data(tag, bytes))| == 1 + VarintLen(|bytes|) + |bytes|
  {
    VarintLength(|bytes|);
  }

  // ---------------------------------------------------------------- Proof

  /** proto3 leaves an empty bytes or string field out. */
  function OptionalData(tag: nat, bytes: Bytes): seq<Field> {
    if bytes == [] then [] else [Data(tag, bytes)]
  }

  function ProofFields(p: Proof): seq<Field> {
    [Number(1, TypeNumber(p.proofType))] + OptionalData(2, p.proof) + OptionalData(3, p.publicInputs)
    + OptionalData(4, p.verificationKey)
  }

  function EncodeProof(p: Proof): Bytes { Encode(ProofFields(p)) }

  function EncodedBytesLen(bytes: Bytes): nat {
    if bytes == [] then 0 else 1 + VarintLen(|bytes|) + |bytes|
  }

  function EncodedLen(p: Proof): nat {
    2 + EncodedBytesLen(p.proof) + EncodedBytesLen(p.publicInputs) + EncodedBytesLen(p.verificationKey)
  }

  /** Length of the three artifacts alone; None when the sum leaves usize. */
  function PayloadLen(p: Proof): Option<nat> {
    var total := |p.proof| + |p.publicInputs| + |p.verificationKey|;
    if total <= USIZE_MAX then Some(total) else None
  }

  lemma {:induction false} EncodeConcat(a: seq<Field>, b: seq<Field>)
    ensures Encode(a + b) == Encode(a) + Encode(b)
  {
    if a == [] {
      assert a + b == b;
    } else {
      assert (a + b)[1..] == a[1..] + b;
      EncodeConcat(a[1..], b);
    }
  }

  lemma OptionalDataLength(tag: nat, bytes: Bytes)
    requires tag < 16
    ensures |Encode(OptionalData(tag, bytes))| == EncodedBytesLen(bytes)
  {
    if bytes != [] {
      DataFieldLength(tag, bytes);
      assert Encode([Data(tag, bytes)][1..]) == [];
    }
  }

  /** The size every ingress boundary compares with its limit is the real encoded size. */
  lemma EncodedLenIsEncodingLength(p: Proof)
    ensures |EncodeProof(p)| == EncodedLen(p)
  {
    var kind := [Number(1, TypeNumber(p.proofType))];
    var one, two := OptionalData(2, p.proof), OptionalData(3, p.publicInputs);
    var three := OptionalData(4, p.verificationKey);
    EncodeConcat(kind + one + two, three);
    EncodeConcat(kind + one, two);
    EncodeConcat(kind, one);
    OptionalDataLength(2, p.proof);
    OptionalDataLength(3, p.publicInputs);
    OptionalDataLength(4, p.verificationKey);
    assert kind[1..] == [];
    assert EncodeVarint(8) == [8];
    assert |Encode(kind)| == 2;
  }

  /** Payload never exceeds the encoded size, so a size-checked proof always has a payload length. */
  lemma PayloadWithinEncodedLen(p: Proof)
    ensures |p.proof| + |p.publicInputs| + |p.verificationKey| <= EncodedLen(p)
    ensures EncodedLen(p) <= USIZE_MAX ==> PayloadLen(p).Some?
  {
  }

  // ---------------------------------------------------------------- reading a Proof back

  /** The wire message with proto3 defaults; the type number is still unchecked. */
  datatype WireProof = WireProof(proofType: nat, proof: Bytes, publicInputs: Bytes, verificationKey: Bytes)

  /** Unknown fields are skipped. */
  function ReadField(f: Field, w: WireProof): WireProof {
    match f
    case Number(1, n) => w.(proofType := n)
    case Data(2, b) => w.(proof := b)
    case Data(3, b) => w.(publicInputs := b)
    case Data(4, b) => w.(verificationKey := b)
    case _ => w
  }

  /** Later fields override earlier ones. */
  function ReadFields(fields: seq<Field>, w: WireProof): WireProof
    decreases |fields|
  {
    if fields == [] then w else ReadFields(fields[1..], ReadField(fields[0], w))
  }

  function DecodeWireProof(b: Bytes): Option<WireProof> {
    match Decode(b)
    case None => None
    case Some(fields) => Some(ReadFields(fields, WireProof(0, [], [], [])))
  }

  function FromWire(w: WireProof): Option<Proof> {
    match TypeFromNumber(w.proofType)
    case None => None
    case Some(t) => Some(Proof(t, w.proof, w.publicInputs, w.verificationKey))
  }

  function ToWire(p: Proof): WireProof {
    WireProof(TypeNumber(p.proofType), p.proof, p.publicInputs, p.verificationKey)
  }

  lemma {:induction false} ReadConcat(a: seq<Field>, b: seq<Field>, w: WireProof)
    ensures ReadFields(a + b, w) == ReadFields(b, ReadFields(a, w))
    decreases |a|
  {
    if a == [] {
      assert a + b == b;
    } else {
      assert (a + b)[1..] == a[1..] + b;
      ReadConcat(a[1..], b, ReadField(a[0], w));
    }
  }

  /** Encoding and decoding a proof gives back the same four parts, whichever of them are empty. */
  lemma ProofRoundTrip(p: Proof)
    ensures DecodeWireProof(EncodeProof(p)) == Some(ToWire(p))
    ensures FromWire(ToWire(p)) == Some(p)
  {
    FieldsRoundTrip(ProofFields(p));
    var w0 := WireProof(0, [], [], []);
    var kind := [Number(1, TypeNumber(p.proofType))];
    var one, two := OptionalData(2, p.proof), OptionalData(3, p.publicInputs);
    var three := OptionalData(4, p.verificationKey);
    ReadConcat(kind + one + two, three, w0);
    ReadConcat(kind + one, two, w0);
    ReadConcat(kind, one, w0);
    assert ReadFields(kind, w0) == w0.(proofType := TypeNumber(p.proofType));
  }

  /** A proof can be recovered from its bytes, so different proofs have different encodings. */
  lemma EncodingInjective(p: Proof, q: Proof)
    requires EncodeProof(p) == EncodeProof(q)
    ensures p == q
  {
    ProofRoundTrip(p);
    ProofRoundTrip(q);
  }
}
