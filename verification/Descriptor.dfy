/** Validation of committed verification requests (src/chain/descriptor.rs). */
module Descriptors {
  import opened Common
  import opened Proofs

  const MAX_PROOFS_PER_BLOCK: nat := 256

  datatype Descriptor = Descriptor(
    proofType: int, proofHash: Bytes, publicInputsHash: Bytes, verificationKeyHash: Bytes, verificationId: Bytes)

  datatype ProofKey = ProofKey(height: nat, index: nat)

  datatype RecordState = Pending(descriptor: Descriptor) | Final(descriptor: Descriptor, height: nat)

  datatype QueryProof = QueryProof(key: Option<ProofKey>, state: Option<RecordState>)

  /** A committed request that still waits for its verdict. */
  datatype ChainProof = ChainProof(id: VerificationId, height: nat, index: nat)

  datatype ContractError = BadPosition | BadDescriptor | IdMismatch | MissingKey | MissingState | BadFinalHeight

  function ToDigest(b: Bytes): (r: Option<Digest>)
    ensures r.Some? <==> |b| == 32
    ensures r.Some? ==> r.value == b
  {
    if |b| == 32 then Some(b) else None
  }

  function ValidateDescriptor(sha: Sha256, d: Descriptor): Result<VerificationId, ContractError> {
    var t, p, i, k, id := TypeFromNumber(d.proofType), ToDigest(d.proofHash), ToDigest(d.publicInputsHash),
                          ToDigest(d.verificationKeyHash), ToDigest(d.verificationId);
    if t.None? || p.None? || i.None? || k.None? || id.None? then Err(BadDescriptor)
    else if FromComponentHashes(sha, t.value, p.value, i.value, k.value) != VerificationId(id.value) then Err(IdMismatch)
    else Ok(VerificationId(id.value))
  }

  function ValidatePosition(height: nat, index: nat, expected: nat): Option<ContractError> {
    if height == 0 || height != expected || index >= MAX_PROOFS_PER_BLOCK then Some(BadPosition) else None
  }

  function ValidateQueryProof(sha: Sha256, q: QueryProof, height: nat): Result<Option<ChainProof>, ContractError> {
    if q.key.None? then Err(MissingKey)
    else
      var key := q.key.value;
      match ValidatePosition(key.height, key.index, height)
      case Some(e) => Err(e)
      case None =>
        match q.state
        case None => Err(MissingState)
        case Some(Pending(d)) =>
          (match ValidateDescriptor(sha, d)
           case Err(e) => Err(e)
           case Ok(id) => Ok(Some(ChainProof(id, key.height, key.index))))
        case Some(Final(d, h)) =>
          if h != key.height then Err(BadFinalHeight)
          else
            match ValidateDescriptor(sha, d)
            case Err(e) => Err(e)
            case Ok(_) => Ok(None)
  }

  /** A committed descriptor whose hashes are those of some content identifies exactly that content:
      the id the listener observes is the id the store computes when the content arrives. */
  lemma ObservedIdIsContentId(sha: Sha256, d: Descriptor, p: Proof)
    requires Describes(sha, d, p)
    ensures ValidateDescriptor(sha, d).Ok? <==> d.verificationId == IdOf(sha, p).bytes
    ensures ValidateDescriptor(sha, d).Ok? ==> ValidateDescriptor(sha, d).value == IdOf(sha, p)
  {
    assert TypeFromNumber(d.proofType) == Some(p.proofType);
  }

  /** The descriptor names exactly this content. */
  predicate Describes(sha: Sha256, d: Descriptor, p: Proof) {
    && d.proofType == TypeNumber(p.proofType) && d.proofHash == sha(p.proof)
    && d.publicInputsHash == sha(p.publicInputs) && d.verificationKeyHash == sha(p.verificationKey)
  }

  /** What the descriptor's id is the hash of. */
  function DescriptorPreimage(d: Descriptor): Bytes
    requires TypeFromNumber(d.proofType).Some? && |d.proofHash| == |d.publicInputsHash| == |d.verificationKeyHash| == 32
  {
    Preimage(TypeFromNumber(d.proofType).value, d.proofHash, d.publicInputsHash, d.verificationKeyHash)
  }

  /** And content with an observed id is the content the chain described, unless the two preimages of that
      id collide. */
  lemma ObservedIdBindsContent(sha: Sha256, d: Descriptor, p: Proof)
    requires ValidateDescriptor(sha, d) == Ok(IdOf(sha, p))
    ensures Describes(sha, d, p) || Collision(sha, DescriptorPreimage(d), IdPreimage(sha, p))
  {
    var t: ProofType := TypeFromNumber(d.proofType).value;
    if DescriptorPreimage(d) == IdPreimage(sha, p) {
      PreimageInjective(t, d.proofHash, d.publicInputsHash, d.verificationKeyHash,
                        p.proofType, sha(p.proof), sha(p.publicInputs), sha(p.verificationKey));
    }
  }
}
