/** Limits derived from the proof size limit (src/p2p/codec.rs, src/rpc/submission.rs, src/store/mod.rs):
    every proof within the limit passes each of them, and they agree with one another. */
module Sizes {
  import opened Common
  import opened Proofs
  import opened Protobuf
  import opened Records
  import opened StoreOps
  import opened DriverModel

  const MAX_REQUEST_BYTES: nat := 1024
  const PROTOBUF_ENVELOPE_OVERHEAD: nat := 16
  const MAX_TRANSACTION_BYTES: nat := 0x100_0000
  const METADATA_WEIGHT_BYTES: nat := 256

  function CheckedAdd(a: Option<nat>, b: nat, max: nat): Option<nat> {
    if a.Some? && a.value + b <= max then Some(a.value + b) else None
  }

  // ---------------------------------------------------------------- proof exchange

  datatype Body = Found(proof: Proof) | Missing

  /** The limit ProofExchangeCodec::new computes, or its overflow error. */
  function MaxResponseBytes(maxProofBytes: nat, chainId: Bytes): Option<nat> {
    var one := CheckedAdd(Some(maxProofBytes), 1, USIZE_MAX);
    var two := CheckedAdd(one, VarintLen(|chainId|), USIZE_MAX);
    var three := CheckedAdd(two, |chainId|, USIZE_MAX);
    var four := CheckedAdd(three, 1, USIZE_MAX);
    CheckedAdd(four, VarintLen(maxProofBytes), USIZE_MAX)
  }

  function BodyField(body: Body): Field {
    match body
    case Found(p) => Data(2, EncodeProof(p))
    case Missing => Data(3, [])
  }

  function EncodeResponse(chainId: Bytes, body: Body): Bytes { Encode(OptionalData(1, chainId) + [BodyField(body)]) }

  function EncodeRequest(chainId: Bytes, id: VerificationId): Bytes {
    Encode(OptionalData(1, chainId) + [Data(2, id.bytes)])
  }

  lemma TwoFieldLength(tag: nat, optional: Bytes, tag': nat, bytes: Bytes)
    requires tag < 16 && tag' < 16
    ensures |Encode(OptionalData(tag, optional) + [Data(tag', bytes)])| ==
            EncodedBytesLen(optional) + 1 + VarintLen(|bytes|) + |bytes|
  {
    EncodeConcat(OptionalData(tag, optional), [Data(tag', bytes)]);
    OptionalDataLength(tag, optional);
    DataFieldLength(tag', bytes);
    assert [Data(tag', bytes)][1..] == [];
  }

  /** Every answer the driver may give fits the codec's limit, and the limit lets nothing else through:
      with a chain id, a found proof fits exactly when it is within the proof limit. */
  lemma ResponseFitsIff(maxProofBytes: nat, chainId: Bytes, p: Proof)
    requires MaxResponseBytes(maxProofBytes, chainId).Some?
    ensures var limit := MaxResponseBytes(maxProofBytes, chainId).value;
            && |EncodeResponse(chainId, Missing)| <= limit
            && (EncodedLen(p) <= maxProofBytes ==> |EncodeResponse(chainId, Found(p))| <= limit)
            && (chainId != [] ==> (|EncodeResponse(chainId, Found(p))| <= limit <==> EncodedLen(p) <= maxProofBytes))
  {
    TwoFieldLength(1, chainId, 2, EncodeProof(p));
    TwoFieldLength(1, chainId, 3, []);
    EncodedLenIsEncodingLength(p);
    if EncodedLen(p) <= maxProofBytes {
      VarintLenMonotone(EncodedLen(p), maxProofBytes);
    } else {
      VarintLenMonotone(maxProofBytes, EncodedLen(p));
    }
    VarintLenMonotone(0, maxProofBytes);
  }

  /** A request is within its fixed limit exactly for chain ids of at most 987 bytes; the configuration
      does not bound the chain id. */
  lemma RequestFitsIff(chainId: Bytes, id: VerificationId)
    ensures |EncodeRequest(chainId, id)| <= MAX_REQUEST_BYTES <==> |chainId| <= 987
  {
    TwoFieldLength(1, chainId, 2, id.bytes);
    if |chainId| >= 128 {
      VarintLenMonotone(128, |chainId|);
      if |chainId| <= 987 { VarintLenMonotone(|chainId|, 987); }
    }
  }

  /** read_message: at most one byte over the limit is taken from the stream. */
  function ReadFrame(stream: Bytes, maximum: nat): Option<Bytes> {
    if maximum + 1 > USIZE_MAX then None
    else
      var bytes := if |stream| <= maximum + 1 then stream else stream[..maximum + 1];
      if |bytes| > maximum then None else Some(bytes)
  }

  datatype ProofResponse = ProofResponse(chainId: Bytes, body: Option<WireResult>)

  function ReadResponseField(f: Field, r: ProofResponse): ProofResponse {
    match f
    case Data(1, b) => r.(chainId := b)
    case Data(2, b) => (match DecodeWireProof(b) case Some(w) => r.(body := Some(FoundProof(w))) case None => r)
    case Data(3, _) => r.(body := Some(WireResult.NotFound))
    case _ => r
  }

  function ReadResponseFields(fields: seq<Field>, r: ProofResponse): ProofResponse
    decreases |fields|
  {
    if fields == [] then r else ReadResponseFields(fields[1..], ReadResponseField(fields[0], r))
  }

  function DecodeResponse(b: Bytes): Option<ProofResponse> {
    match Decode(b)
    case None => None
    case Some(fields) => Some(ReadResponseFields(fields, ProofResponse([], None)))
  }

  function WireBody(body: Body): WireResult {
    match body
    case Found(p) => FoundProof(ToWire(p))
    case Missing => WireResult.NotFound
  }

  lemma BodyRead(body: Body, r: ProofResponse)
    ensures ReadResponseField(BodyField(body), r) == r.(body := Some(WireBody(body)))
  {
    if body.Found? { ProofRoundTrip(body.proof); }
  }

  lemma ResponseRoundTrip(chainId: Bytes, body: Body)
    ensures DecodeResponse(EncodeResponse(chainId, body)) == Some(ProofResponse(chainId, Some(WireBody(body))))
  {
    var fields, start := OptionalData(1, chainId) + [BodyField(body)], ProofResponse([], None);
    FieldsRoundTrip(fields);
    BodyRead(body, start.(chainId := chainId));
    if chainId == [] {
      assert fields == [BodyField(body)];
      assert ReadResponseFields(fields, start) == ReadResponseFields(fields[1..], ReadResponseField(fields[0], start));
    } else {
      assert fields[0] == Data(1, chainId) && fields[1..] == [BodyField(body)];
      assert ReadResponseFields(fields, start) == ReadResponseFields(fields[1..], start.(chainId := chainId));
      assert ReadResponseFields(fields[1..], start.(chainId := chainId)) ==
             ReadResponseFields(fields[1..][1..], ReadResponseField(BodyField(body), start.(chainId := chainId)));
    }
  }

  /** End to end: what one peer answers within the limits, the other reads back unchanged. */
  lemma ExchangeRoundTrip(maxProofBytes: nat, chainId: Bytes, body: Body)
    requires MaxResponseBytes(maxProofBytes, chainId).Some? && MaxResponseBytes(maxProofBytes, chainId).value < USIZE_MAX
    requires body.Found? ==> EncodedLen(body.proof) <= maxProofBytes
    ensures var limit, bytes := MaxResponseBytes(maxProofBytes, chainId).value, EncodeResponse(chainId, body);
            ReadFrame(bytes, limit) == Some(bytes) && DecodeResponse(bytes) == Some(ProofResponse(chainId, Some(WireBody(body))))
  {
    ResponseFitsIff(maxProofBytes, chainId, if body.Found? then body.proof else Proof(MinaPickles, [], [], []));
    ResponseRoundTrip(chainId, body);
  }

  // ---------------------------------------------------------------- submission

  function SubmissionLimit(maxProofBytes: nat, maxTransactionBytes: nat): Option<nat> {
    CheckedAdd(CheckedAdd(Some(maxProofBytes), maxTransactionBytes, USIZE_MAX), PROTOBUF_ENVELOPE_OVERHEAD, USIZE_MAX)
  }

  function EncodeSubmission(p: Proof, tx: Bytes): Bytes { Encode([Data(1, EncodeProof(p))] + OptionalData(2, tx)) }

  lemma VarintLenOf32Bits(n: nat)
    requires n <= U32_MAX
    ensures VarintLen(n) <= 5
  {
    VarintLenMonotone(n, U32_MAX);
    assert VarintLen(U32_MAX / 128 / 128) == 1 + VarintLen(U32_MAX / 128 / 128 / 128);
  }

  /** Under the configured ranges the limit exists, and a proof and a transaction that are each within
      their own limit are never refused for the size of the request around them. */
  lemma SubmissionFits(maxProofBytes: nat, maxTransactionBytes: nat, p: Proof, tx: Bytes)
    requires maxProofBytes <= U32_MAX && 1 <= maxTransactionBytes <= MAX_TRANSACTION_BYTES
    requires EncodedLen(p) <= maxProofBytes && |tx| <= maxTransactionBytes
    ensures SubmissionLimit(maxProofBytes, maxTransactionBytes).Some?
    ensures |EncodeSubmission(p, tx)| <= SubmissionLimit(maxProofBytes, maxTransactionBytes).value
  {
    var one := [Data(1, EncodeProof(p))];
    EncodeConcat(one, OptionalData(2, tx));
    assert one[1..] == [];
    DataFieldLength(1, EncodeProof(p));
    OptionalDataLength(2, tx);
    EncodedLenIsEncodingLength(p);
    VarintLenOf32Bits(EncodedLen(p));
    VarintLenOf32Bits(|tx|);
  }

  // ---------------------------------------------------------------- driver and store

  /** The size the driver measures on the received message is the size the store measures. */
  lemma WireSizeAgrees(w: WireProof, p: Proof)
    requires FromWire(w) == Some(p)
    ensures WireEncodedLen(w) == EncodedLen(p)
  {
    assert w.proofType in {1, 2};
  }

  /** A proof the driver delivers is never refused by the store for its size or its identity, so a
      finished download either is stored or finds its record gone. */
  lemma DeliveredProofIsStorable(
    d: DriverConfig, cfg: Limits, st: Store, wire: WireProof, id: VerificationId, p: Proof, peer: PeerId, now: nat)
    requires StoreOk(cfg, st) && d.sha == cfg.sha && d.maxProofBytes == cfg.maxProofBytes
    requires ValidateResponse(d, wire, id) == Some(p)
    ensures ContentOk(cfg, id, p)
    ensures var r := AttachDownloaded(cfg, st, id, p, peer, now); r.Ok? || r == Err(ProofNotObserved(id))
  {
    WireSizeAgrees(wire, p);
    AttachEffect(cfg, st, id, p, peer, now);
  }

  // ---------------------------------------------------------------- cache weight

  /** The check ProofStore::new makes once. */
  function MaximumWeight(maxProofBytes: nat): Option<nat> {
    if maxProofBytes > U32_MAX then None
    else CheckedAdd(CheckedAdd(Some(maxProofBytes), METADATA_WEIGHT_BYTES, U32_MAX),
                    FAILURE_CODE_MAX_BYTES + FAILURE_MESSAGE_MAX_BYTES, U32_MAX)
  }

  function FailureLen(r: ProofRecord): nat {
    if r.verification.Some? && r.verification.value.Failed?
    then |r.verification.value.failure.code| + |r.verification.value.failure.message| else 0
  }

  /** proof_weight; None stands for a failed expect. */
  function ProofWeight(r: ProofRecord): Option<nat> {
    var payload := if r.proof.Some? then PayloadLen(r.proof.value) else Some(0);
    if payload.None? || payload.value > U32_MAX || FailureLen(r) > U32_MAX then None
    else CheckedAdd(CheckedAdd(payload, METADATA_WEIGHT_BYTES, U32_MAX), FailureLen(r), U32_MAX)
  }

  /** No expect in the weigher can fail for a record that the store may hold, and no record outweighs
      the maximum checked at start-up. */
  lemma WeightIsDefined(cfg: Limits, id: VerificationId, r: ProofRecord)
    requires MaximumWeight(cfg.maxProofBytes).Some? && RecordOk(cfg, id, r)
    ensures ProofWeight(r).Some? && ProofWeight(r).value <= MaximumWeight(cfg.maxProofBytes).value
  {
    if r.proof.Some? { PayloadWithinEncodedLen(r.proof.value); }
    if r.verification.Some? && r.verification.value.Failed? { assert WireBounded(r.verification.value.failure); }
  }
}
